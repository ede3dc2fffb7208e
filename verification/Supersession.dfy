/** `validate.py`: retiring entries of a private inventory by compare-and-set. */
module Supersession {
  import opened Wrappers

  // ------------------------------------------------------------------- the document

  /** One entry: the logical name its group is keyed by, and everything else it holds. */
  datatype Row = Row(name: string, rest: string)

  /** A stored document. `version` is absent only from the content that `content_digest` hashes;
      `other` holds every key this code does not read, the source sets and future fields included. */
  datatype Stored = Stored(
    document: string, version: Option<int>, environment: string,
    targets: seq<Row>, federations: seq<Row>, receivers: seq<Row>, other: map<string, string>)

  /** The canonical digest is injective: it is its document. */
  datatype Digest = Canonical(document: Stored) | Hex(text: string)

  /** `PrivateInventory`, as far as supersession reads it. */
  datatype Loaded = Loaded(
    document: string, version: int, environment: string, digest: Digest, contentDigest: Digest)

  /** `load_private_inventory`, of a document its schema accepts. */
  function Load(s: Stored): Loaded
    requires s.version.Some?
  {
    Loaded(s.document, s.version.value, s.environment, Canonical(s), Canonical(s.(version := None)))
  }

  datatype Kind = Retire | MigrateCapture

  datatype Request = Request(
    kind: Kind, document: string, previousVersion: int, previousDigest: Digest,
    targets: seq<string>, federations: seq<string>, receivers: seq<string>)

  datatype Group = Targets | Federations | Receivers

  datatype Complaint =
    | RequestKind | RequestDocument | RequestVersion | RequestPreviousDigest
    | RequestAbsent(group: Group, name: string)

  // ---------------------------------------------------------------------- one group

  predicate Holds(rows: seq<Row>, name: string) {
    exists r :: r in rows && r.name == name
  }

  /** The rows that are not retired, in their order. */
  function Without(rows: seq<Row>, names: set<string>): (kept: seq<Row>)
    ensures forall r :: r in kept <==> r in rows && r.name !in names
  {
    if rows == [] then []
    else
      var last := rows[|rows| - 1];
      Without(rows[..|rows| - 1], names) + if last.name in names then [] else [last]
  }

  function Named(names: seq<string>): set<string> {
    set n | n in names
  }

  /** The inner `retire`: the rows kept, and a complaint for every name the group does not hold. */
  method RetireGroup(group: Group, rows: seq<Row>, names: seq<string>)
    returns (kept: seq<Row>, complaints: seq<Complaint>)
    ensures kept == Without(rows, Named(names))
    ensures forall c :: c in complaints <==> exists n :: n in names && !Holds(rows, n) && c == RequestAbsent(group, n)
    ensures complaints == [] <==> forall n :: n in names ==> Holds(rows, n)
  {
    complaints := [];
    for i := 0 to |names|
      invariant forall c :: c in complaints <==>
                  exists n :: n in names[..i] && !Holds(rows, n) && c == RequestAbsent(group, n)
      invariant complaints == [] <==> forall n :: n in names[..i] ==> Holds(rows, n)
    {
      assert names[..i + 1] == names[..i] + [names[i]];
      if !Holds(rows, names[i]) {
        complaints := complaints + [RequestAbsent(group, names[i])];
      }
    }
    assert names[..|names|] == names;
    kept := [];
    for i := 0 to |rows|
      invariant kept == Without(rows[..i], Named(names))
    {
      assert rows[..i + 1][..i] == rows[..i];
      if rows[i].name !in Named(names) {
        kept := kept + [rows[i]];
      }
    }
    assert rows[..|rows|] == rows;
  }

  // -------------------------------------------------------------- applying a request

  /** The request was reviewed against exactly this document. */
  predicate Reviewed(q: Request, previous: Loaded) {
    q.document == previous.document && q.previousVersion == previous.version && q.previousDigest == previous.digest
  }

  predicate AllHeld(q: Request, s: Stored) {
    && (forall n :: n in q.targets ==> Holds(s.targets, n))
    && (forall n :: n in q.federations ==> Holds(s.federations, n))
    && (forall n :: n in q.receivers ==> Holds(s.receivers, n))
  }

  predicate Applies(q: Request, s: Stored)
    requires s.version.Some?
  {
    q.kind == Retire && Reviewed(q, Load(s)) && AllHeld(q, s)
  }

  /** The next version of a document: the retired entries gone, the version one higher, every other key
      carried as it was stored. */
  function Following(q: Request, s: Stored): Stored
    requires s.version.Some?
  {
    s.(version := Some(s.version.value + 1),
       targets := Without(s.targets, Named(q.targets)),
       federations := Without(s.federations, Named(q.federations)),
       receivers := Without(s.receivers, Named(q.receivers)))
  }

  /** `apply_supersession`, on the document `previous` was loaded from. */
  method ApplySupersession(q: Request, previous: Loaded, stored: Stored)
    returns (following: Option<Stored>, complaints: seq<Complaint>)
    requires stored.version.Some? && previous == Load(stored)
    ensures complaints == [] <==> Applies(q, stored)
    ensures following == if Applies(q, stored) then Some(Following(q, stored)) else None
    ensures q.kind != Retire ==> complaints == [RequestKind]
    ensures q.kind == Retire ==> (RequestDocument in complaints <==> q.document != previous.document)
    ensures q.kind == Retire ==> (RequestVersion in complaints <==> q.previousVersion != previous.version)
    ensures q.kind == Retire ==> (RequestPreviousDigest in complaints <==> q.previousDigest != previous.digest)
  {
    complaints := [];
    if q.kind != Retire {
      return None, [RequestKind];
    }
    if q.document != previous.document {
      complaints := complaints + [RequestDocument];
    }
    if q.previousVersion != previous.version {
      complaints := complaints + [RequestVersion];
    }
    if q.previousDigest != previous.digest {
      complaints := complaints + [RequestPreviousDigest];
    }
    if complaints != [] {
      return None, complaints;
    }
    var next := stored.(version := Some(previous.version + 1));
    var targets, ofTargets := RetireGroup(Targets, next.targets, q.targets);
    next := next.(targets := targets);
    var federations, ofFederations := RetireGroup(Federations, next.federations, q.federations);
    next := next.(federations := federations);
    var receivers, ofReceivers := RetireGroup(Receivers, next.receivers, q.receivers);
    next := next.(receivers := receivers);
    complaints := ofTargets + ofFederations + ofReceivers;
    if complaints != [] {
      return None, complaints;
    }
    return Some(next), [];
  }

  // ---------------------------------------------------------------- supersede_findings

  datatype Refusal =
    | SupersedePreviousDigest | SupersedeDocument | SupersedeEnvironment | SupersedeVersion | SupersedeNoChange

  method SupersedeFindings(previous: Loaded, following: Loaded, expected: Digest) returns (refusals: seq<Refusal>)
    ensures SupersedePreviousDigest in refusals <==> previous.digest != expected
    ensures SupersedeDocument in refusals <==> following.document != previous.document
    ensures SupersedeEnvironment in refusals <==> following.environment != previous.environment
    ensures SupersedeVersion in refusals <==> following.version != previous.version + 1
    ensures SupersedeNoChange in refusals <==> following.contentDigest == previous.contentDigest
    ensures refusals == [] <==> Succeeds(previous, following, expected)
  {
    refusals := if previous.digest != expected then [SupersedePreviousDigest] else [];
    if following.document != previous.document {
      refusals := refusals + [SupersedeDocument];
    }
    if following.environment != previous.environment {
      refusals := refusals + [SupersedeEnvironment];
    }
    if following.version != previous.version + 1 {
      refusals := refusals + [SupersedeVersion];
    }
    if following.contentDigest == previous.contentDigest {
      refusals := refusals + [SupersedeNoChange];
    }
  }

  /** An in-place succession of the named document that changes something. */
  predicate Succeeds(previous: Loaded, following: Loaded, expected: Digest) {
    && previous.digest == expected && following.document == previous.document
    && following.environment == previous.environment && following.version == previous.version + 1
    && following.contentDigest != previous.contentDigest
  }

  predicate RetiresNothing(q: Request) {
    q.targets == [] && q.federations == [] && q.receivers == []
  }

  /** Rows are unchanged exactly when none of them is named. */
  lemma WithoutNothing(rows: seq<Row>, names: set<string>)
    ensures Without(rows, names) == rows <==> forall n :: n in names ==> !Holds(rows, n)
  {
    if forall n :: n in names ==> !Holds(rows, n) {
      forall r | r in rows ensures r.name !in names {
        assert Holds(rows, r.name);
      }
      KeepsAll(rows, names);
    } else {
      var n :| n in names && Holds(rows, n);
      var r :| r in rows && r.name == n;
      assert r !in Without(rows, names);
    }
  }

  lemma {:induction false} KeepsAll(rows: seq<Row>, names: set<string>)
    requires forall i :: 0 <= i < |rows| ==> rows[i].name !in names
    ensures Without(rows, names) == rows
  {
    if rows != [] {
      var before, last := rows[..|rows| - 1], rows[|rows| - 1];
      KeepsAll(before, names);
      assert before + [last] == rows;
    }
  }

  /** An applied retirement passes the succession check against the digest it was reviewed against,
      exactly when it retires anything. */
  lemma AppliedSucceeds(q: Request, s: Stored)
    requires s.version.Some? && Applies(q, s)
    ensures Succeeds(Load(s), Load(Following(q, s)), q.previousDigest) <==> !RetiresNothing(q)
  {
    RetiresSome(s.targets, q.targets);
    RetiresSome(s.federations, q.federations);
    RetiresSome(s.receivers, q.receivers);
    var f := Following(q, s);
    assert f.(version := None) == s.(version := None)
      <==> f.targets == s.targets && f.federations == s.federations && f.receivers == s.receivers;
  }

  /** Retiring names a group holds changes it unless there are none. */
  lemma RetiresSome(rows: seq<Row>, names: seq<string>)
    requires forall n :: n in names ==> Holds(rows, n)
    ensures Without(rows, Named(names)) == rows <==> names == []
  {
    WithoutNothing(rows, Named(names));
    if names != [] {
      assert names[0] in Named(names);
    }
  }

  function NamesOf(rows: seq<Row>): set<string> {
    set r | r in rows :: r.name
  }

  /** What the summary shows of an applied request is what was reviewed: the names removed from each
      group are the names retired, and none is added. */
  lemma SummaryIsTheRequest(q: Request, s: Stored)
    requires s.version.Some? && Applies(q, s)
    ensures NamesOf(s.targets) - NamesOf(Following(q, s).targets) == Named(q.targets)
    ensures NamesOf(s.federations) - NamesOf(Following(q, s).federations) == Named(q.federations)
    ensures NamesOf(s.receivers) - NamesOf(Following(q, s).receivers) == Named(q.receivers)
    ensures NamesOf(Following(q, s).targets) <= NamesOf(s.targets)
    ensures NamesOf(Following(q, s).federations) <= NamesOf(s.federations)
    ensures NamesOf(Following(q, s).receivers) <= NamesOf(s.receivers)
  {
    RemovedNames(s.targets, q.targets);
    RemovedNames(s.federations, q.federations);
    RemovedNames(s.receivers, q.receivers);
  }

  lemma RemovedNames(rows: seq<Row>, names: seq<string>)
    requires forall n :: n in names ==> Holds(rows, n)
    ensures NamesOf(rows) - NamesOf(Without(rows, Named(names))) == Named(names)
    ensures NamesOf(Without(rows, Named(names))) <= NamesOf(rows)
  {
    var kept := Without(rows, Named(names));
    forall n | n in NamesOf(rows) && n !in Named(names) ensures n in NamesOf(kept) {
      var r :| r in rows && r.name == n;
      assert r in kept;
    }
  }

  // -------------------------------------------------------------------- whole histories

  /** The store lets a request through or leaves the document alone. */
  function Step(s: Stored, q: Request): (next: Stored)
    requires s.version.Some?
    ensures next.version.Some?
  {
    if Applies(q, s) then Following(q, s) else s
  }

  /** The store after the first `n` requests of a history. */
  function After(s: Stored, history: seq<Request>, n: nat): (now: Stored)
    requires s.version.Some? && n <= |history|
    ensures now.version.Some?
  {
    if n == 0 then s else Step(After(s, history, n - 1), history[n - 1])
  }

  predicate AppliedAt(s: Stored, history: seq<Request>, k: nat)
    requires s.version.Some? && k < |history|
  {
    Applies(history[k], After(s, history, k))
  }

  function AppliedCount(s: Stored, history: seq<Request>, n: nat): nat
    requires s.version.Some? && n <= |history|
  {
    if n == 0 then 0 else AppliedCount(s, history, n - 1) + if AppliedAt(s, history, n - 1) then 1 else 0
  }

  /** The version counts the applied requests, so no number is skipped and none is used twice. */
  lemma {:induction false} VersionCounts(s: Stored, history: seq<Request>, n: nat)
    requires s.version.Some? && n <= |history|
    ensures After(s, history, n).version.value == s.version.value + AppliedCount(s, history, n)
  {
    if n > 0 {
      VersionCounts(s, history, n - 1);
    }
  }

  lemma {:induction false} CountGrows(s: Stored, history: seq<Request>, m: nat, n: nat)
    requires s.version.Some? && m <= n <= |history|
    ensures AppliedCount(s, history, m) <= AppliedCount(s, history, n)
    decreases n - m
  {
    if m < n {
      CountGrows(s, history, m, n - 1);
    }
  }

  /** Compare-and-set: of all the requests reviewed against one digest, at most one ever applies. */
  lemma AtMostOnePerDigest(s: Stored, history: seq<Request>, i: nat, j: nat)
    requires s.version.Some? && i < j < |history|
    requires AppliedAt(s, history, i) && AppliedAt(s, history, j)
    ensures history[i].previousDigest != history[j].previousDigest
  {
    VersionCounts(s, history, i);
    VersionCounts(s, history, j);
    CountGrows(s, history, i + 1, j);
  }

  /** All the names of a group that applied requests retired. */
  function RetiredNames(s: Stored, history: seq<Request>, n: nat, group: Group): set<string>
    requires s.version.Some? && n <= |history|
  {
    if n == 0 then {}
    else
      RetiredNames(s, history, n - 1, group)
      + if AppliedAt(s, history, n - 1) then Named(NamesIn(history[n - 1], group)) else {}
  }

  function NamesIn(q: Request, group: Group): seq<string> {
    match group
    case Targets => q.targets
    case Federations => q.federations
    case Receivers => q.receivers
  }

  function RowsOf(s: Stored, group: Group): seq<Row> {
    match group
    case Targets => s.targets
    case Federations => s.federations
    case Receivers => s.receivers
  }

  lemma {:induction false} WithoutTwice(rows: seq<Row>, a: set<string>, b: set<string>)
    ensures Without(Without(rows, a), b) == Without(rows, a + b)
  {
    if rows != [] {
      var before, last := rows[..|rows| - 1], rows[|rows| - 1];
      WithoutTwice(before, a, b);
      if last.name !in a {
        assert Without(rows, a)[..|Without(rows, a)| - 1] == Without(before, a);
      } else {
        assert Without(rows, a) == Without(before, a);
      }
    }
  }

  lemma StepRetires(s: Stored, q: Request, group: Group)
    requires s.version.Some?
    ensures RowsOf(Step(s, q), group)
         == if Applies(q, s) then Without(RowsOf(s, group), Named(NamesIn(q, group))) else RowsOf(s, group)
    ensures Step(s, q).document == s.document && Step(s, q).environment == s.environment && Step(s, q).other == s.other
  {
  }

  lemma RetireMore(rows: seq<Row>, now: seq<Row>, retired: set<string>, more: set<string>)
    requires now == Without(rows, retired)
    ensures Without(now, more) == Without(rows, retired + more)
  {
    WithoutTwice(rows, retired, more);
  }

  /** After any history each group holds its initial rows less every retired name, contents and order
      intact. */
  lemma {:induction false} HistoryRetires(s: Stored, history: seq<Request>, n: nat, group: Group)
    requires s.version.Some? && n <= |history|
    ensures RowsOf(After(s, history, n), group) == Without(RowsOf(s, group), RetiredNames(s, history, n, group))
  {
    if n == 0 {
      KeepsAll(RowsOf(s, group), {});
    } else {
      HistoryRetires(s, history, n - 1, group);
      var before, q, retired := After(s, history, n - 1), history[n - 1], RetiredNames(s, history, n - 1, group);
      StepRetires(before, q, group);
      RetireMore(RowsOf(s, group), RowsOf(before, group), retired, Named(NamesIn(q, group)));
      assert retired + {} == retired;
    }
  }

  /** And every key that is no group and not the version is as it was stored. */
  lemma {:induction false} HistoryCarries(s: Stored, history: seq<Request>, n: nat)
    requires s.version.Some? && n <= |history|
    ensures After(s, history, n).document == s.document && After(s, history, n).environment == s.environment
    ensures After(s, history, n).other == s.other
  {
    if n > 0 {
      HistoryCarries(s, history, n - 1);
      StepRetires(After(s, history, n - 1), history[n - 1], Targets);
    }
  }

  /** A retired name never comes back. */
  lemma {:induction false} RetiredStaysRetired(s: Stored, history: seq<Request>, k: nat, n: nat, group: Group, name: string)
    requires s.version.Some? && k < n <= |history|
    requires AppliedAt(s, history, k) && name in NamesIn(history[k], group)
    ensures !Holds(RowsOf(After(s, history, n), group), name)
  {
    RetiredAccumulates(s, history, k, n, group, name);
    HistoryRetires(s, history, n, group);
  }

  lemma {:induction false} RetiredAccumulates(s: Stored, history: seq<Request>, k: nat, n: nat, group: Group, name: string)
    requires s.version.Some? && k < n <= |history|
    requires AppliedAt(s, history, k) && name in NamesIn(history[k], group)
    ensures name in RetiredNames(s, history, n, group)
    decreases n
  {
    if k < n - 1 {
      RetiredAccumulates(s, history, k, n - 1, group, name);
    }
  }
}
