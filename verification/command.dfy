/** The `dnf container check|update` command (`ContainerCommand.run`,
    `_check` as a subcommand, and `_update`). */
module Command {
  import opened Results
  import opened Drift
  import opened Gate
  import opened Orchestrator

  /** The host configuration the command reads. */
  datatype Config = Config(assumeyes: bool, assumeno: bool, debuglevel: int)

  /** Backend calls are made verbose above debug level 5. */
  function Debug(conf: Config): bool
  {
    conf.debuglevel > 5
  }

  /** The error a command ends with: from the check, or from the update loop. */
  datatype CommandError = CheckFailed(checkCause: CheckError) | UpdateFailed(updateCause: UpdateError)

  /** Everything a command run observably does: the references inspected, the
      drift found, whether the operator was asked, the backend calls made, and
      the error it ended with, if any. */
  datatype Session = Session(
    inspected: seq<string>,
    drift: seq<Record>,
    prompted: bool,
    trace: seq<Action>,
    error: Option<CommandError>
  )

  /** `dnf container check`: report drift; never asks and never touches a backend. */
  function CheckCommand(inventory: seq<Container>, inspect: string -> Inspection): (s: Session)
    ensures !s.prompted && s.trace == []
    ensures s.error.None? <==> Check(inventory, inspect).outcome.Success?
    ensures s.error.None? ==> s.inspected == References(inventory)
  {
    var run := Check(inventory, inspect);
    match run.outcome
    case Failure(e) => Session(run.inspected, [], false, [], Some(CheckFailed(e)))
    case Success(records) => Session(run.inspected, records, false, [], None)
  }

  /** `dnf container update`: check, then, if anything drifted and the gate lets
      it through, pull and update every drifted container in order. */
  function UpdateCommand(conf: Config, answer: bool, inventory: seq<Container>,
                         inspect: string -> Inspection, be: Backend): (s: Session)
    ensures s.prompted <==> s.drift != [] && !conf.assumeyes && !conf.assumeno
    ensures s.trace != [] ==> s.drift != [] && (conf.assumeyes || (!conf.assumeno && answer))
    ensures s.error.Some? && s.error.value.CheckFailed? ==> s.trace == [] && !s.prompted
  {
    var checked := CheckCommand(inventory, inspect);
    if checked.error.Some? || checked.drift == [] then checked
    else
      var gate := Confirm(conf.assumeyes, conf.assumeno, answer);
      if !gate.proceed then checked.(prompted := gate.prompted)
      else
        var run := Apply(checked.drift, be, Debug(conf));
        var error := match run.error
          case None => None
          case Some(e) => Some(UpdateFailed(e));
        checked.(prompted := gate.prompted, trace := run.trace, error := error)
  }

  /** `run`: dispatch on the subcommand; argument parsing admits only "check" and "update". */
  function RunCommand(subcommand: string, conf: Config, answer: bool, inventory: seq<Container>,
                      inspect: string -> Inspection, be: Backend): (s: Session)
    ensures subcommand == "check" ==>
              && (s.error.None? <==> Check(inventory, inspect).outcome.Success?)
              && (s.error.None? ==> s.inspected == References(inventory)
                                    && s.drift == Check(inventory, inspect).outcome.value)
    ensures subcommand == "update" ==>
              && (s.prompted <==> s.drift != [] && !conf.assumeyes && !conf.assumeno)
              && (s.trace != [] ==> s.drift != [] && (conf.assumeyes || (!conf.assumeno && answer)))
              && (Check(inventory, inspect).outcome.Failure? ==>
                    s.error == Some(CheckFailed(Check(inventory, inspect).outcome.error)))
              && (Check(inventory, inspect).outcome.Success? ==>
                    s.drift == Check(inventory, inspect).outcome.value)
    ensures subcommand == "update" && Check(inventory, inspect).outcome.Success?
              && (conf.assumeyes || (!conf.assumeno && answer)) ==>
              var drift := Check(inventory, inspect).outcome.value;
              && (s.error.None? <==> AllSucceed(drift, be))
              && (AllSucceed(drift, be) ==> s.trace == ExpectedTrace(drift, be, Debug(conf)))
    ensures subcommand != "check" && subcommand != "update" ==> s == Session([], [], false, [], None)
    ensures subcommand != "update" ==> !s.prompted && s.trace == []
  {
    if subcommand == "check" then CheckCommand(inventory, inspect)
    else if subcommand == "update" then
      if Check(inventory, inspect).outcome.Success? && (conf.assumeyes || (!conf.assumeno && answer)) then
        UpdateApproved(conf, answer, inventory, inspect, be);
        UpdateCommand(conf, answer, inventory, inspect, be)
      else
        UpdateCommand(conf, answer, inventory, inspect, be)
    else Session([], [], false, [], None)
  }

  /** With no drift there is neither a prompt nor a backend call. */
  lemma UpdateWithoutDrift(conf: Config, answer: bool, inventory: seq<Container>,
                           inspect: string -> Inspection, be: Backend)
    requires Check(inventory, inspect).outcome == Success([])
    ensures var s := UpdateCommand(conf, answer, inventory, inspect, be);
            !s.prompted && s.trace == [] && s.error.None?
  {
  }

  /** A declined gate makes no backend call and ends without error. */
  lemma UpdateDeclined(conf: Config, answer: bool, inventory: seq<Container>,
                       inspect: string -> Inspection, be: Backend)
    requires Check(inventory, inspect).outcome.Success?
    requires !conf.assumeyes && (conf.assumeno || !answer)
    ensures var s := UpdateCommand(conf, answer, inventory, inspect, be);
            s.trace == [] && s.error.None?
  {
  }

  /** When `assumeyes` or `assumeno` is set, the operator's reply is never read. */
  lemma UpdatePresetIgnoresAnswer(conf: Config, inventory: seq<Container>,
                                  inspect: string -> Inspection, be: Backend)
    requires conf.assumeyes || conf.assumeno
    ensures UpdateCommand(conf, true, inventory, inspect, be) == UpdateCommand(conf, false, inventory, inspect, be)
    ensures !UpdateCommand(conf, true, inventory, inspect, be).prompted
  {
    UnpromptedIgnoresAnswer(conf.assumeyes, conf.assumeno);
  }

  /** An approved update succeeds exactly when every drifted container's calls
      do, and then it pulls and updates each drifted container, in order. */
  lemma UpdateApproved(conf: Config, answer: bool, inventory: seq<Container>,
                       inspect: string -> Inspection, be: Backend)
    requires Check(inventory, inspect).outcome.Success?
    requires conf.assumeyes || (!conf.assumeno && answer)
    ensures var s := UpdateCommand(conf, answer, inventory, inspect, be);
            var drift := Check(inventory, inspect).outcome.value;
            && s.drift == drift
            && (s.error.None? <==> AllSucceed(drift, be))
            && (AllSucceed(drift, be) ==> s.trace == ExpectedTrace(drift, be, Debug(conf)))
  {
    var drift := Check(inventory, inspect).outcome.value;
    ApplyAllSucceed(drift, be, Debug(conf));
  }

  /** An approved update stops at the first drifted container whose calls fail,
      ends with the error of that container's first failing call, and touches
      no container after it. */
  lemma UpdateFailsFast(conf: Config, answer: bool, inventory: seq<Container>,
                        inspect: string -> Inspection, be: Backend, k: nat)
    requires Check(inventory, inspect).outcome.Success?
    requires conf.assumeyes || (!conf.assumeno && answer)
    requires k < |Check(inventory, inspect).outcome.value|
    requires forall i | 0 <= i < k :: Succeeds(Check(inventory, inspect).outcome.value[i].container, be)
    requires !Succeeds(Check(inventory, inspect).outcome.value[k].container, be)
    ensures var s := UpdateCommand(conf, answer, inventory, inspect, be);
            var drift := Check(inventory, inspect).outcome.value;
            && AllSucceed(drift[..k], be)
            && s.error == Some(UpdateFailed(Fault(drift[k].container, be)))
            && s.trace == ExpectedTrace(drift[..k], be, Debug(conf))
                          + UpdateOne(drift[k].container, be, Debug(conf)).actions
  {
    var drift := Check(inventory, inspect).outcome.value;
    ApplyStopsAtFirstFailure(drift, be, Debug(conf), k);
  }
}
