/** The update loop of `ContainerCommand._update`: for each outdated container,
    in order, pull its tag again (`_pull_existing_tag`) and then re-provision
    its checkout (`_update_container`). Nothing catches an error between
    containers, so the first failure ends the batch. */
module Orchestrator {
  import opened Results
  import opened Drift

  /** The calls the plugin makes into the container backends, in order. */
  datatype Action =
    | Pull(backend: string, inputName: string, force: bool, debug: bool)  // be.update(...) on backend `be`
    | Reprovision(name: string, overrides: seq<string>, image: string)    // sc.update_container(...)

  /** What `get_backend_and_image_obj` finds for an image: the backend that
      holds it and the image's local input name. */
  datatype Located = Located(backend: string, inputName: string)

  /** The error that ends a container's update. Only the two lookups the plugin
      makes itself raise errors naming the container; a pull or checkout update
      that raises propagates the backend's own error, modelled as its message. */
  datatype UpdateError =
    | NotFoundLocally(name: string)     // no local image to pull into
    | PullFailed(cause: string)         // be.update raised this
    | CheckoutMissing(name: string)     // no live checkout to update
    | ReprovisionFailed(cause: string)  // update_container raised this

  /** The backends, as far as the plugin observes them. */
  datatype Backend = Backend(
    // get_backend_and_image_obj(image, preferred backend): the backend and input name, or None on ValueError
    resolve: (string, string) -> Option<Located>,
    // what be.update(input name, force) on the given backend raises, if anything
    pullRaises: (string, string, bool) -> Option<string>,
    // whether get_checkout(name) finds a checkout
    hasCheckout: string -> bool,
    // what update_container(name, overrides, image) raises, if anything
    updateRaises: (string, seq<string>, string) -> Option<string>
  )

  /** The calls made for one step and the error it raised, if any. */
  datatype Step = Step(actions: seq<Action>, error: Option<UpdateError>)

  /** The calls made for a whole batch and the error that ended it, if any. */
  datatype Run = Run(trace: seq<Action>, error: Option<UpdateError>)

  /** The backend that refuses forced pulls. */
  const Ostree: string := "ostree"

  /** `_pull_existing_tag`: find the local image, then pull it on the backend
      that holds it, forced unless the container's own recorded backend is ostree. */
  function PullExistingTag(c: Container, be: Backend, debug: bool): (s: Step)
    ensures be.resolve(c.imageName, c.backend).None? ==> s == Step([], Some(NotFoundLocally(c.name)))
    ensures be.resolve(c.imageName, c.backend).Some? ==>
              var found := be.resolve(c.imageName, c.backend).value;
              && |s.actions| == 1
              && s.actions[0].Pull?
              && s.actions[0].backend == found.backend
              && s.actions[0].inputName == found.inputName
              && (s.actions[0].force <==> c.backend != Ostree)
              && s.actions[0].debug == debug
              && (s.error.None? <==> be.pullRaises(found.backend, found.inputName, s.actions[0].force).None?)
              && (s.error.Some? ==>
                    s.error == Some(PullFailed(be.pullRaises(found.backend, found.inputName, s.actions[0].force).value)))
  {
    match be.resolve(c.imageName, c.backend)
    case None => Step([], Some(NotFoundLocally(c.name)))
    case Some(found) =>
      var force := if c.backend == Ostree then false else true;
      var pull := Pull(found.backend, found.inputName, force, debug);
      match be.pullRaises(found.backend, found.inputName, force)
      case Some(cause) => Step([pull], Some(PullFailed(cause)))
      case None => Step([pull], None)
  }

  /** `_update_container`: re-provision the checkout from the container's own
      image reference, with no argument overrides. */
  function UpdateContainer(c: Container, be: Backend): (s: Step)
    ensures !be.hasCheckout(c.name) ==> s == Step([], Some(CheckoutMissing(c.name)))
    ensures be.hasCheckout(c.name) ==> s.actions == [Reprovision(c.name, [], c.imageName)]
    ensures s.error.None? <==> be.hasCheckout(c.name) && be.updateRaises(c.name, [], c.imageName).None?
    ensures be.hasCheckout(c.name) && s.error.Some? ==>
              s.error == Some(ReprovisionFailed(be.updateRaises(c.name, [], c.imageName).value))
  {
    if be.hasCheckout(c.name) then
      var call := Reprovision(c.name, [], c.imageName);
      match be.updateRaises(c.name, [], c.imageName)
      case Some(cause) => Step([call], Some(ReprovisionFailed(cause)))
      case None => Step([call], None)
    else
      Step([], Some(CheckoutMissing(c.name)))
  }

  // Reference behaviour, stated without the loop.

  /** Every backend call for `c` goes through. */
  predicate Succeeds(c: Container, be: Backend)
  {
    match be.resolve(c.imageName, c.backend)
    case None => false
    case Some(found) =>
      && be.pullRaises(found.backend, found.inputName, c.backend != Ostree).None?
      && be.hasCheckout(c.name)
      && be.updateRaises(c.name, [], c.imageName).None?
  }

  /** Every container in the plan succeeds. */
  predicate AllSucceed(plan: seq<Record>, be: Backend)
  {
    forall i | 0 <= i < |plan| :: Succeeds(plan[i].container, be)
  }

  /** The error of the first backend call for `c` that does not go through. */
  function Fault(c: Container, be: Backend): UpdateError
    requires !Succeeds(c, be)
  {
    var found := be.resolve(c.imageName, c.backend);
    if found.None? then NotFoundLocally(c.name)
    else if be.pullRaises(found.value.backend, found.value.inputName, c.backend != Ostree).Some? then
      PullFailed(be.pullRaises(found.value.backend, found.value.inputName, c.backend != Ostree).value)
    else if !be.hasCheckout(c.name) then CheckoutMissing(c.name)
    else ReprovisionFailed(be.updateRaises(c.name, [], c.imageName).value)
  }

  /** The two calls a successful update of `c` makes: the pull, then the update. */
  function Expected(c: Container, be: Backend, debug: bool): seq<Action>
    requires Succeeds(c, be)
  {
    var found := be.resolve(c.imageName, c.backend).value;
    [Pull(found.backend, found.inputName, c.backend != Ostree, debug),
     Reprovision(c.name, [], c.imageName)]
  }

  /** The calls of a batch in which every container succeeds. */
  function ExpectedTrace(plan: seq<Record>, be: Backend, debug: bool): seq<Action>
    requires AllSucceed(plan, be)
    decreases |plan|
  {
    if plan == [] then [] else Expected(plan[0].container, be, debug) + ExpectedTrace(plan[1..], be, debug)
  }

  /** One iteration of the loop: pull, and only if that returned, update. It
      finishes exactly when all of the container's backend calls go through,
      and makes at most the pull and the update, both only when it finishes. */
  function UpdateOne(c: Container, be: Backend, debug: bool): (s: Step)
    ensures s.error.None? <==> Succeeds(c, be)
    ensures |s.actions| <= 2
    ensures s.error.None? ==> |s.actions| == 2
  {
    var pulled := PullExistingTag(c, be, debug);
    if pulled.error.Some? then pulled
    else
      var updated := UpdateContainer(c, be);
      Step(pulled.actions + updated.actions, updated.error)
  }

  /** The loop `for container, digest in needs_update`, stopping at the first
      error. It finishes exactly when every container's calls go through,
      making two calls per container; it never makes more. */
  function Apply(plan: seq<Record>, be: Backend, debug: bool): (r: Run)
    ensures r.error.None? <==> AllSucceed(plan, be)
    ensures r.error.None? ==> |r.trace| == 2 * |plan|
    ensures |r.trace| <= 2 * |plan|
    decreases |plan|
  {
    if plan == [] then Run([], None)
    else
      var step := UpdateOne(plan[0].container, be, debug);
      if step.error.Some? then Run(step.actions, step.error)
      else
        var rest := Apply(plan[1..], be, debug);
        assert forall i | 0 <= i < |plan[1..]| :: plan[1..][i] == plan[i + 1];
        Run(step.actions + rest.trace, rest.error)
  }

  /** One container's step makes exactly the expected pull and update, in that
      order, when all of its calls go through, and otherwise ends with the
      error of the first call that does not: a missing local image or
      checkout names the container, a raising pull or update carries the
      backend's own error. */
  lemma UpdateOneMatchesExpected(c: Container, be: Backend, debug: bool)
    ensures Succeeds(c, be) ==> UpdateOne(c, be, debug).actions == Expected(c, be, debug)
    ensures !Succeeds(c, be) ==> UpdateOne(c, be, debug).error == Some(Fault(c, be))
  {
    var pulled := PullExistingTag(c, be, debug);
    if pulled.error.None? {
      var found := be.resolve(c.imageName, c.backend).value;
      assert pulled.actions == [Pull(found.backend, found.inputName, c.backend != Ostree, debug)];
    }
  }

  /** The batch finishes without error exactly when every container's calls
      succeed, and then it makes exactly the expected calls, in plan order. */
  lemma {:induction false} ApplyAllSucceed(plan: seq<Record>, be: Backend, debug: bool)
    ensures Apply(plan, be, debug).error.None? <==> AllSucceed(plan, be)
    ensures AllSucceed(plan, be) ==> Apply(plan, be, debug).trace == ExpectedTrace(plan, be, debug)
    decreases |plan|
  {
    if plan != [] {
      UpdateOneMatchesExpected(plan[0].container, be, debug);
      ApplyAllSucceed(plan[1..], be, debug);
      assert AllSucceed(plan, be) <==> Succeeds(plan[0].container, be) && AllSucceed(plan[1..], be) by {
        forall i | 0 <= i < |plan[1..]|
          ensures plan[1..][i] == plan[i + 1]
        {
        }
      }
    }
  }

  /** Fail-fast: if container `k` is the first whose calls fail, the batch ends
      with the error of its first failing call, after the expected calls for
      the containers before it and the calls `k` itself made; no later
      container is touched. */
  lemma {:induction false} ApplyStopsAtFirstFailure(plan: seq<Record>, be: Backend, debug: bool, k: nat)
    requires k < |plan|
    requires forall i | 0 <= i < k :: Succeeds(plan[i].container, be)
    requires !Succeeds(plan[k].container, be)
    ensures Apply(plan, be, debug).error == Some(Fault(plan[k].container, be))
    ensures AllSucceed(plan[..k], be)
    ensures Apply(plan, be, debug).trace ==
              ExpectedTrace(plan[..k], be, debug) + UpdateOne(plan[k].container, be, debug).actions
    decreases k
  {
    UpdateOneMatchesExpected(plan[k].container, be, debug);
    if k == 0 {
      assert plan[..0] == [];
    } else {
      var c := plan[0].container;
      UpdateOneMatchesExpected(c, be, debug);
      var tail := plan[1..];
      assert tail[k - 1] == plan[k];
      assert forall i | 0 <= i < k - 1 :: tail[i] == plan[i + 1];
      ApplyStopsAtFirstFailure(tail, be, debug, k - 1);
      assert plan[..k] == [plan[0]] + tail[..k - 1];
    }
  }

  /** In a successful batch the pull for the `i`-th container sits at position
      `2i` and its update right after it, at `2i + 1`. */
  lemma {:induction false} ExpectedTraceLayout(plan: seq<Record>, be: Backend, debug: bool, i: nat)
    requires AllSucceed(plan, be)
    requires i < |plan|
    ensures |ExpectedTrace(plan, be, debug)| == 2 * |plan|
    ensures ExpectedTrace(plan, be, debug)[2 * i] ==
              Pull(be.resolve(plan[i].container.imageName, plan[i].container.backend).value.backend,
                   be.resolve(plan[i].container.imageName, plan[i].container.backend).value.inputName,
                   plan[i].container.backend != Ostree, debug)
    ensures ExpectedTrace(plan, be, debug)[2 * i + 1] ==
              Reprovision(plan[i].container.name, [], plan[i].container.imageName)
    decreases |plan|
  {
    assert AllSucceed(plan[1..], be) by {
      forall j | 0 <= j < |plan[1..]|
        ensures Succeeds(plan[1..][j].container, be)
      {
        assert plan[1..][j] == plan[j + 1];
      }
    }
    if i == 0 {
      if |plan| > 1 {
        ExpectedTraceLayout(plan[1..], be, debug, 0);
      } else {
        assert plan[1..] == [];
      }
    } else {
      ExpectedTraceLayout(plan[1..], be, debug, i - 1);
      assert plan[1..][i - 1] == plan[i];
    }
  }
}
