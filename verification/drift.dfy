/** Drift detection (`ContainerCommand._check`): every installed container's
    image is inspected on its registry, and those whose remote digest differs
    from the installed one are reported, in inventory order. */
module Drift {
  import opened Results
  import opened Digest

  /** An installed system container as the backend utilities list it. */
  datatype Container = Container(
    name: string,       // unique name of the container
    imageName: string,  // image reference the container was created from
    image: string,      // digest of the image currently backing the container
    backend: string     // name of the backend that manages it, e.g. "ostree"
  )

  /** A container that needs updating, with the digest the registry now serves. */
  datatype Record = Record(container: Container, digest: string)

  /** What the registry inspection of one reference produced. */
  datatype Inspection = Reply(fields: map<string, string>) | NoReply(raised: string)

  /** Why the check stopped: the inspection call raised (its own error,
      propagated as raised), or the digest had no colon (a bare IndexError). */
  datatype CheckError = InspectFailed(message: string) | DigestIndexError

  /** The references inspected, in call order, and what `_check` returned or raised. */
  datatype CheckRun = CheckRun(inspected: seq<string>, outcome: Result<seq<Record>, CheckError>)

  /** The reference handed to the registry inspection for a container: its
      image name behind the `docker://` transport prefix. */
  function Reference(c: Container): (ref: string)
    ensures |ref| == |"docker://"| + |c.imageName|
    ensures ref[..|"docker://"|] == "docker://" && ref[|"docker://"|..] == c.imageName
  {
    "docker://" + c.imageName
  }

  /** The references inspected for a whole inventory, in order. */
  function References(inventory: seq<Container>): (refs: seq<string>)
    ensures |refs| == |inventory|
    ensures forall i | 0 <= i < |inventory| :: refs[i] == Reference(inventory[i])
  {
    if inventory == [] then [] else [Reference(inventory[0])] + References(inventory[1..])
  }

  /** The remote digest of one container, or the error its inspection raises:
      an unanswered inspection of its reference, or a reported digest with no
      colon. */
  function RemoteDigestOf(c: Container, inspect: string -> Inspection): (r: Result<string, CheckError>)
    ensures inspect(Reference(c)).NoReply? ==> r == Failure(InspectFailed(inspect(Reference(c)).raised))
    ensures inspect(Reference(c)).Reply? ==>
              var fields := inspect(Reference(c)).fields;
              (r.Failure? <==> DigestKey in fields && ':' !in fields[DigestKey]) &&
              (r.Failure? ==> r.error == DigestIndexError)
    ensures r.Success? ==> ':' !in r.value
  {
    match inspect(Reference(c))
    case NoReply(raised) => Failure(InspectFailed(raised))
    case Reply(fields) =>
      match RemoteDigest(fields)
      case None => Failure(DigestIndexError)
      case Some(d) => Success(d)
  }

  /** The containers of a list of records, in the same order. */
  function ContainersOf(records: seq<Record>): (cs: seq<Container>)
    ensures |cs| == |records|
    ensures forall i | 0 <= i < |records| :: cs[i] == records[i].container
  {
    if records == [] then [] else [records[0].container] + ContainersOf(records[1..])
  }

  /** `xs` can be obtained from `ys` by deleting elements, keeping the order. */
  predicate Subsequence<T(==)>(xs: seq<T>, ys: seq<T>)
    decreases |ys|
  {
    xs == [] ||
    (ys != [] &&
     ((xs[0] == ys[0] && Subsequence(xs[1..], ys[1..])) || Subsequence(xs, ys[1..])))
  }

  /** `_check`: inspect every container in order and keep the outdated ones.
      The first inspection that raises aborts the whole check; on success
      every container was inspected exactly once, in inventory order. */
  function Check(inventory: seq<Container>, inspect: string -> Inspection): (r: CheckRun)
    ensures r.outcome.Success? <==>
              forall i | 0 <= i < |inventory| :: RemoteDigestOf(inventory[i], inspect).Success?
    ensures r.outcome.Success? ==> r.inspected == References(inventory)
    decreases |inventory|
  {
    if inventory == [] then CheckRun([], Success([]))
    else
      var c := inventory[0];
      match RemoteDigestOf(c, inspect)
      case Failure(e) => CheckRun([Reference(c)], Failure(e))
      case Success(d) =>
        var rest := Check(inventory[1..], inspect);
        var found := if d != c.image then [Record(c, d)] else [];
        match rest.outcome
        case Failure(e) => CheckRun([Reference(c)] + rest.inspected, Failure(e))
        case Success(later) => CheckRun([Reference(c)] + rest.inspected, Success(found + later))
  }

  /** A container is reported exactly when its remote digest differs from the
      installed one, and its record carries that remote digest. */
  lemma {:induction false} CheckReportsExactlyOutdated(inventory: seq<Container>, inspect: string -> Inspection)
    requires Check(inventory, inspect).outcome.Success?
    ensures forall c, d :: Record(c, d) in Check(inventory, inspect).outcome.value <==>
              c in inventory && RemoteDigestOf(c, inspect) == Success(d) && d != c.image
    decreases |inventory|
  {
    if inventory != [] {
      var c := inventory[0];
      CheckReportsExactlyOutdated(inventory[1..], inspect);
      assert inventory == [c] + inventory[1..];
      assert forall x :: x in inventory <==> x == c || x in inventory[1..];
    }
  }

  /** The records follow inventory order: their containers form a subsequence of it. */
  lemma {:induction false} CheckPreservesOrder(inventory: seq<Container>, inspect: string -> Inspection)
    requires Check(inventory, inspect).outcome.Success?
    ensures Subsequence(ContainersOf(Check(inventory, inspect).outcome.value), inventory)
    decreases |inventory|
  {
    if inventory != [] {
      var c := inventory[0];
      CheckPreservesOrder(inventory[1..], inspect);
      var later := Check(inventory[1..], inspect).outcome.value;
      var records := Check(inventory, inspect).outcome.value;
      if RemoteDigestOf(c, inspect).value != c.image {
        assert records == [Record(c, RemoteDigestOf(c, inspect).value)] + later;
        assert ContainersOf(records)[1..] == ContainersOf(later);
      } else {
        assert records == later;
      }
    }
  }

  /** No record ever carries the digest that is already installed. */
  lemma CheckNeverReportsCurrent(inventory: seq<Container>, inspect: string -> Inspection)
    requires Check(inventory, inspect).outcome.Success?
    ensures forall rec | rec in Check(inventory, inspect).outcome.value :: rec.digest != rec.container.image
  {
    var records := Check(inventory, inspect).outcome.value;
    CheckReportsExactlyOutdated(inventory, inspect);
    forall rec | rec in records
      ensures rec.digest != rec.container.image
    {
      assert Record(rec.container, rec.digest) == rec;
    }
  }

  /** An empty inventory gives an empty result and inspects nothing. */
  lemma CheckEmptyInventory(inspect: string -> Inspection)
    ensures Check([], inspect) == CheckRun([], Success([]))
  {
  }

  /** The first container whose inspection raises ends the check: the
      containers before it were inspected, the ones after it never are. */
  lemma {:induction false} CheckStopsAtFirstError(inventory: seq<Container>, inspect: string -> Inspection, k: nat)
    requires k < |inventory|
    requires forall i | 0 <= i < k :: RemoteDigestOf(inventory[i], inspect).Success?
    requires RemoteDigestOf(inventory[k], inspect).Failure?
    ensures Check(inventory, inspect).outcome == Failure(RemoteDigestOf(inventory[k], inspect).error)
    ensures Check(inventory, inspect).inspected == References(inventory[..k + 1])
    decreases k
  {
    var c := inventory[0];
    if k == 0 {
      assert inventory[..1] == [c];
      assert References([c]) == [Reference(c)] + References([]);
    } else {
      CheckStopsAtFirstError(inventory[1..], inspect, k - 1);
      assert inventory[1..][..k] == inventory[1..k + 1];
      assert inventory[..k + 1] == [c] + inventory[1..k + 1];
      assert inventory[..k + 1][1..] == inventory[1..k + 1];
    }
  }

  /** Checking a single container that inspects cleanly. */
  lemma CheckOne(c: Container, inspect: string -> Inspection, d: string)
    requires RemoteDigestOf(c, inspect) == Success(d)
    ensures Check([c], inspect) ==
              CheckRun([Reference(c)], Success(if d != c.image then [Record(c, d)] else []))
  {
    assert [c][1..] == [];
    var found: seq<Record> := if d != c.image then [Record(c, d)] else [];
    assert found + [] == found;
  }

  /** A cleanly inspected container in front of an inventory adds its own record, if any, in front. */
  lemma CheckCons(c: Container, rest: seq<Container>, inspect: string -> Inspection, d: string)
    requires RemoteDigestOf(c, inspect) == Success(d)
    requires Check(rest, inspect).outcome.Success?
    ensures Check([c] + rest, inspect).outcome ==
              Success((if d != c.image then [Record(c, d)] else []) + Check(rest, inspect).outcome.value)
  {
    assert ([c] + rest)[1..] == rest;
  }

  /** Inventory `[a, b, c]` with `a` and `c` outdated reports `[a, c]`, in that order. */
  lemma OrderExample(a: Container, b: Container, c: Container, inspect: string -> Inspection,
                     da: string, db: string, dc: string)
    requires RemoteDigestOf(a, inspect) == Success(da) && da != a.image
    requires RemoteDigestOf(b, inspect) == Success(db) && db == b.image
    requires RemoteDigestOf(c, inspect) == Success(dc) && dc != c.image
    ensures Check([a, b, c], inspect).outcome == Success([Record(a, da), Record(c, dc)])
  {
    var rc := Record(c, dc);
    CheckOne(c, inspect, dc);
    assert Check([c], inspect).outcome == Success([rc]);
    CheckCons(b, [c], inspect, db);
    assert [b] + [c] == [b, c];
    assert Check([b, c], inspect).outcome == Success([rc]) by {
      assert [] + [rc] == [rc];
    }
    CheckCons(a, [b, c], inspect, da);
    assert [a] + [b, c] == [a, b, c];
    assert Check([a, b, c], inspect).outcome == Success([Record(a, da)] + [rc]);
    assert [Record(a, da)] + [rc] == [Record(a, da), rc];
  }

  const Web := Container("web", "registry/web:latest", "abc123", "ostree")
  const Db := Container("db", "registry/db:latest", "xyz", "docker")

  /** A remote `sha256:def456` against installed `abc123` is reported as `def456`. */
  lemma WebNeedsUpdate(inspect: string -> Inspection)
    requires inspect(Reference(Web)) == Reply(map["Digest" := "sha256:def456"])
    ensures Check([Web], inspect) == CheckRun([Reference(Web)], Success([Record(Web, "def456")]))
  {
    var fields := map["Digest" := "sha256:def456"];
    assert DigestField(fields) == "sha256:def456";
    ShaExample();
    assert RemoteDigestOf(Web, inspect) == Success("def456");
    assert "def456" != Web.image by {
      assert "def456"[0] != "abc123"[0];
    }
    CheckOne(Web, inspect, "def456");
  }

  /** A remote `sha256:xyz` against installed `xyz` is not reported. */
  lemma DbUpToDate(inspect: string -> Inspection)
    requires inspect(Reference(Db)) == Reply(map["Digest" := "sha256:xyz"])
    ensures Check([Db], inspect) == CheckRun([Reference(Db)], Success([]))
  {
    var fields := map["Digest" := "sha256:xyz"];
    assert DigestField(fields) == "sha256:xyz";
    AlgorithmAndHex("sha256", "xyz");
    assert "sha256" + [':'] + "xyz" == "sha256:xyz";
    assert RemoteDigestOf(Db, inspect) == Success("xyz");
    CheckOne(Db, inspect, "xyz");
  }
}
