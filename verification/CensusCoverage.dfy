/** `attribution_enumerators.py`: every declared family once, and what degrades a count to a floor. */
module CensusCoverage {
  import opened CensusRecords
  import opened CensusWalk
  import opened Census
  import opened CensusTheorems

  type Outcomes = map<Family, FamilyOutcome>

  predicate Declared(o: Outcomes) {
    forall f: Family :: f in DECLARED_FAMILIES ==> f in o
  }

  lemma EveryFamilyIsDeclared(f: Family)
    ensures f in DECLARED_FAMILIES
  {
    match f
    case SystemdService => assert DECLARED_FAMILIES[0] == f;
    case SystemdTimer => assert DECLARED_FAMILIES[1] == f;
    case SystemdDropin => assert DECLARED_FAMILIES[2] == f;
    case Cron => assert DECLARED_FAMILIES[3] == f;
    case Anacron => assert DECLARED_FAMILIES[4] == f;
    case At => assert DECLARED_FAMILIES[5] == f;
    case Docker => assert DECLARED_FAMILIES[6] == f;
    case Compose => assert DECLARED_FAMILIES[7] == f;
    case CiRunner => assert DECLARED_FAMILIES[8] == f;
    case ScriptFamily => assert DECLARED_FAMILIES[9] == f;
    case AgentFamily => assert DECLARED_FAMILIES[10] == f;
  }

  // -------------------------------------------------------------------- degradations

  datatype Degradation = Degradation(error: ErrorClass, families: seq<Family>)

  const DEGRADING_PATHS :=
    ["/root/.pgpass", "/etc/pgbouncer/pgbouncer.ini", "/etc/postgresql-common/pg_service.conf"]

  function HomePaths(principals: seq<string>): seq<string> {
    seq(|principals|, i requires 0 <= i < |principals| => "/home/" + principals[i] + "/.pgpass")
  }

  /** A path is present, or the host cannot say that it is not. */
  predicate Suspect(exists_: string -> Outcome<bool>, path: string) {
    exists_(path) != Answered(false)
  }

  /** `degradations`: by presence alone, one for every suspect path, each over every family. */
  method Degradations(exists_: string -> Outcome<bool>, principals: seq<string>) returns (found: seq<Degradation>)
    ensures forall d :: d in found ==> d == Degradation(Ambiguous, DECLARED_FAMILIES)
    ensures found == [] <==> forall p :: p in DEGRADING_PATHS + HomePaths(principals) ==> !Suspect(exists_, p)
    ensures |found| <= |DEGRADING_PATHS| + |principals|
    ensures found == []
       <==> && !Suspect(exists_, "/root/.pgpass") && !Suspect(exists_, "/etc/pgbouncer/pgbouncer.ini")
            && !Suspect(exists_, "/etc/postgresql-common/pg_service.conf")
            && forall p :: p in principals ==> !Suspect(exists_, "/home/" + p + "/.pgpass")
  {
    var candidates := DEGRADING_PATHS + HomePaths(principals);
    found := [];
    for i := 0 to |candidates|
      invariant |found| <= i
      invariant forall d :: d in found ==> d == Degradation(Ambiguous, DECLARED_FAMILIES)
      invariant found == [] <==> forall p :: p in candidates[..i] ==> !Suspect(exists_, p)
    {
      assert candidates[..i + 1] == candidates[..i] + [candidates[i]];
      var answer := exists_(candidates[i]);
      var present := if answer.Answered? then answer.value else true;
      assert present <==> Suspect(exists_, candidates[i]);
      assert candidates[i] in candidates[..i + 1];
      assert forall p :: p in candidates[..i] ==> p in candidates[..i + 1];
      if present {
        found := found + [Degradation(Ambiguous, DECLARED_FAMILIES)];
      }
    }
    assert candidates[..|candidates|] == candidates;
    CandidatesMean(exists_, principals);
  }

  lemma CandidatesMean(exists_: string -> Outcome<bool>, principals: seq<string>)
    ensures (forall p :: p in DEGRADING_PATHS + HomePaths(principals) ==> !Suspect(exists_, p))
       <==> && !Suspect(exists_, "/root/.pgpass") && !Suspect(exists_, "/etc/pgbouncer/pgbouncer.ini")
            && !Suspect(exists_, "/etc/postgresql-common/pg_service.conf")
            && forall p :: p in principals ==> !Suspect(exists_, "/home/" + p + "/.pgpass")
  {
    assert DEGRADING_PATHS[0] == "/root/.pgpass" && DEGRADING_PATHS[1] == "/etc/pgbouncer/pgbouncer.ini";
    assert DEGRADING_PATHS[2] == "/etc/postgresql-common/pg_service.conf";
    var homes := HomePaths(principals);
    forall i | 0 <= i < |principals|
      ensures principals[i] in principals && homes[i] in homes && homes[i] == "/home/" + principals[i] + "/.pgpass"
    {
    }
  }

  function OneDegradation(d: Degradation, families: seq<Family>, f: Family): seq<ErrorClass> {
    if families == [] then []
    else
      OneDegradation(d, families[..|families| - 1], f) + if families[|families| - 1] == f then [d.error] else []
  }

  /** The errors a family is given, one for each time it is named. */
  function ErrorsFor(found: seq<Degradation>, f: Family): seq<ErrorClass> {
    if found == [] then []
    else
      var last := found[|found| - 1];
      ErrorsFor(found[..|found| - 1], f) + OneDegradation(last, last.families, f)
  }

  function WithErrors(o: FamilyOutcome, errors: seq<ErrorClass>): FamilyOutcome {
    FamilyOutcome(o.scan.(errors := o.scan.errors + errors), o.consumers)
  }

  /** `apply_degradations`: nothing found is lost, errors are only appended, and only to the families a
      degradation names. */
  method ApplyDegradations(outcomes: Outcomes, found: seq<Degradation>) returns (degraded: Outcomes)
    ensures degraded.Keys == outcomes.Keys
    ensures forall f :: f in outcomes ==> degraded[f] == WithErrors(outcomes[f], ErrorsFor(found, f))
  {
    degraded := outcomes;
    assert forall f :: f in outcomes ==> WithErrors(outcomes[f], []) == outcomes[f];
    for i := 0 to |found|
      invariant degraded.Keys == outcomes.Keys
      invariant forall f :: f in outcomes ==> degraded[f] == WithErrors(outcomes[f], ErrorsFor(found[..i], f))
    {
      assert found[..i + 1][..i] == found[..i];
      degraded := ApplyOne(degraded, found[i]);
      forall f | f in outcomes
        ensures degraded[f] == WithErrors(outcomes[f], ErrorsFor(found[..i + 1], f))
      {
        WithErrorsTwice(outcomes[f], ErrorsFor(found[..i], f), OneDegradation(found[i], found[i].families, f));
      }
    }
    assert found[..|found|] == found;
  }

  lemma WithErrorsTwice(o: FamilyOutcome, a: seq<ErrorClass>, b: seq<ErrorClass>)
    ensures WithErrors(WithErrors(o, a), b) == WithErrors(o, a + b)
  {
    assert o.scan.errors + a + b == o.scan.errors + (a + b);
  }

  method ApplyOne(outcomes: Outcomes, d: Degradation) returns (degraded: Outcomes)
    ensures degraded.Keys == outcomes.Keys
    ensures forall f :: f in outcomes ==> degraded[f] == WithErrors(outcomes[f], OneDegradation(d, d.families, f))
  {
    degraded := outcomes;
    for i := 0 to |d.families|
      invariant degraded.Keys == outcomes.Keys
      invariant forall f :: f in outcomes ==> degraded[f] == WithErrors(outcomes[f], OneDegradation(d, d.families[..i], f))
    {
      assert d.families[..i + 1][..i] == d.families[..i];
      var family := d.families[i];
      ghost var before := degraded;
      if family in degraded {
        degraded := degraded[family := WithErrors(degraded[family], [d.error])];
      }
      forall f | f in outcomes
        ensures degraded[f] == WithErrors(outcomes[f], OneDegradation(d, d.families[..i + 1], f))
      {
        WithErrorsTwice(outcomes[f], OneDegradation(d, d.families[..i], f), if f == family then [d.error] else []);
        assert WithErrors(before[f], []) == before[f];
      }
    }
    assert d.families[..|d.families|] == d.families;
  }

  predicate NamedIn(found: seq<Degradation>, f: Family) {
    exists d :: d in found && f in d.families
  }

  lemma {:induction false} OneDegradationNames(d: Degradation, families: seq<Family>, f: Family)
    ensures OneDegradation(d, families, f) != [] <==> f in families
  {
    if families != [] {
      OneDegradationNames(d, families[..|families| - 1], f);
    }
  }

  lemma {:induction false} ErrorsForNames(found: seq<Degradation>, f: Family)
    ensures ErrorsFor(found, f) != [] <==> NamedIn(found, f)
  {
    if found != [] {
      var before, last := found[..|found| - 1], found[|found| - 1];
      ErrorsForNames(before, f);
      OneDegradationNames(last, last.families, f);
      assert NamedIn(found, f) <==> NamedIn(before, f) || f in last.families;
    }
  }

  /** A degradation takes away certainty and nothing else: the family it names becomes UNKNOWN with
      every consumer and its count kept; a family none names keeps its verdict. */
  lemma DegradedMeans(o: FamilyOutcome, found: seq<Degradation>, f: Family)
    ensures var after := WithErrors(o, ErrorsFor(found, f));
            && after.consumers == o.consumers && after.scan.found == o.scan.found
            && o.scan.errors <= after.scan.errors
            && after.scan.Verdict() == if NamedIn(found, f) then UNKNOWN else o.scan.Verdict()
  {
    ErrorsForNames(found, f);
  }

  // ---------------------------------------------------------------------- every family

  /** What the world does to a census: a host for each family's walk, the enumerators that raise instead
      of returning, and the paths that exist. */
  datatype World = World(hosts: Family -> Host, raised: map<Family, SourceCode>, exists_: string -> Outcome<bool>)

  /** A family before degradation: skipped, raised on its way in, or walked. */
  function Base(w: World, b: Budget, skip: set<Family>, f: Family): FamilyOutcome {
    if f in skip then FamilyOutcome(FamilyScan(f, false, true, [], 0), [])
    else if f in w.raised then FamilyOutcome(FamilyScan(f, true, true, [Observed(w.raised[f])], 0), [])
    else OutcomeOf(f, Walk(w.hosts(f), b, f))
  }

  /** Nothing about the host degrades the whole census. */
  predicate Undegraded(w: World, principals: seq<string>) {
    forall p :: p in DEGRADING_PATHS + HomePaths(principals) ==> !Suspect(w.exists_, p)
  }

  /** `enumerate_all`: every declared family is there, with exactly what its walk found. */
  method EnumerateAll(w: World, b: Budget, principals: seq<string>, skip: set<Family>) returns (outcomes: Outcomes)
    ensures Declared(outcomes)
    ensures forall f :: f in outcomes ==>
              && outcomes[f].consumers == Base(w, b, skip, f).consumers
              && outcomes[f].scan.found == |outcomes[f].consumers|
              && outcomes[f].scan.Verdict()
                 == if Undegraded(w, principals) then Base(w, b, skip, f).scan.Verdict() else UNKNOWN
  {
    var base := EnumerateEach(w, b, skip);
    var found := Degradations(w.exists_, principals);
    outcomes := ApplyDegradations(base, found);
    forall f | f in outcomes
      ensures outcomes[f].consumers == Base(w, b, skip, f).consumers
      ensures outcomes[f].scan.found == |outcomes[f].consumers|
      ensures outcomes[f].scan.Verdict()
           == if Undegraded(w, principals) then Base(w, b, skip, f).scan.Verdict() else UNKNOWN
    {
      DegradedMeans(base[f], found, f);
      AllAreNamed(found, f);
    }
  }

  /** Its loop over the declared families. */
  method EnumerateEach(w: World, b: Budget, skip: set<Family>) returns (outcomes: Outcomes)
    ensures Declared(outcomes)
    ensures forall f :: f in outcomes ==> outcomes[f] == Base(w, b, skip, f)
    ensures forall f :: f in outcomes ==> outcomes[f].scan.found == |outcomes[f].consumers|
  {
    outcomes := map[];
    for i := 0 to |DECLARED_FAMILIES|
      invariant forall k :: 0 <= k < i ==> DECLARED_FAMILIES[k] in outcomes
      invariant forall f :: f in outcomes ==> outcomes[f] == Base(w, b, skip, f)
    {
      var f := DECLARED_FAMILIES[i];
      var one := EnumerateOne(w, b, skip, f);
      outcomes := outcomes[f := one];
    }
  }

  lemma AllAreNamed(found: seq<Degradation>, f: Family)
    requires forall d :: d in found ==> d.families == DECLARED_FAMILIES
    ensures NamedIn(found, f) <==> found != []
  {
    EveryFamilyIsDeclared(f);
    if found != [] {
      assert found[0] in found;
    }
  }

  method EnumerateOne(w: World, b: Budget, skip: set<Family>, f: Family) returns (outcome: FamilyOutcome)
    ensures outcome == Base(w, b, skip, f)
  {
    if f in skip {
      return FamilyOutcome(FamilyScan(f, false, true, [], 0), []);
    }
    if f in w.raised {
      var ledger := new Ledger();
      ledger.NoteError(Observed(w.raised[f]));
      outcome := Assemble(f, ledger, []);
      return;
    }
    var source := new Source(w.hosts(f));
    outcome := EnumerateFamily(f, source, b);
  }

  /** A census says ABSENT of a family exactly when nothing degrades the host, the family was neither
      skipped nor lost, and every step of its walk was clean. */
  lemma CensusAbsentExactly(w: World, b: Budget, principals: seq<string>, skip: set<Family>, f: Family)
    ensures (if Undegraded(w, principals) then Base(w, b, skip, f).scan.Verdict() else UNKNOWN) == ABSENT
       <==> && Undegraded(w, principals) && f !in skip && f !in w.raised
            && forall e :: e in Walk(w.hosts(f), b, f).trace ==> Clean(e)
  {
    AbsentExactly(w.hosts(f), b, f);
  }

  // ---------------------------------------------------------------------- counting

  function AllConsumersOf(o: Outcomes, families: seq<Family>): seq<Consumer> {
    if families == [] then []
    else
      var last := families[|families| - 1];
      AllConsumersOf(o, families[..|families| - 1]) + if last in o then o[last].consumers else []
  }

  function InCustody(consumers: seq<Consumer>, c: Custody): nat {
    if consumers == [] then 0
    else InCustody(consumers[..|consumers| - 1], c) + if consumers[|consumers| - 1].custody == c then 1 else 0
  }

  lemma {:induction false} CustodyAdds(a: seq<Consumer>, b: seq<Consumer>, c: Custody)
    ensures InCustody(a + b, c) == InCustody(a, c) + InCustody(b, c)
  {
    if b == [] {
      assert a + b == a;
    } else {
      assert (a + b)[..|a + b| - 1] == a + b[..|b| - 1];
      CustodyAdds(a, b[..|b| - 1], c);
    }
  }

  /** `custody_counts`. */
  method CustodyCounts(o: Outcomes) returns (attributed: nat, unattributed: nat)
    ensures attributed == InCustody(AllConsumersOf(o, DECLARED_FAMILIES), Attributed)
    ensures unattributed == InCustody(AllConsumersOf(o, DECLARED_FAMILIES), Unattributed)
    ensures attributed + unattributed == |AllConsumersOf(o, DECLARED_FAMILIES)|
  {
    attributed, unattributed := CountFamilies(o, DECLARED_FAMILIES);
    CustodyPartitions(AllConsumersOf(o, DECLARED_FAMILIES));
  }

  /** Its loop. */
  method CountFamilies(o: Outcomes, families: seq<Family>) returns (attributed: nat, unattributed: nat)
    ensures attributed == InCustody(AllConsumersOf(o, families), Attributed)
    ensures unattributed == InCustody(AllConsumersOf(o, families), Unattributed)
  {
    attributed, unattributed := 0, 0;
    for i := 0 to |families|
      invariant attributed == InCustody(AllConsumersOf(o, families[..i]), Attributed)
      invariant unattributed == InCustody(AllConsumersOf(o, families[..i]), Unattributed)
    {
      var f := families[i];
      var more := if f in o then o[f].consumers else [];
      assert families[..i + 1][..i] == families[..i];
      assert AllConsumersOf(o, families[..i + 1]) == AllConsumersOf(o, families[..i]) + more;
      var a, u := CountOne(more);
      CustodyAdds(AllConsumersOf(o, families[..i]), more, Attributed);
      CustodyAdds(AllConsumersOf(o, families[..i]), more, Unattributed);
      attributed, unattributed := attributed + a, unattributed + u;
    }
    assert families[..|families|] == families;
  }

  method CountOne(consumers: seq<Consumer>) returns (attributed: nat, unattributed: nat)
    ensures attributed == InCustody(consumers, Attributed) && unattributed == InCustody(consumers, Unattributed)
  {
    attributed, unattributed := 0, 0;
    for i := 0 to |consumers|
      invariant attributed == InCustody(consumers[..i], Attributed)
      invariant unattributed == InCustody(consumers[..i], Unattributed)
    {
      assert consumers[..i + 1][..i] == consumers[..i];
      if consumers[i].custody == Attributed {
        attributed := attributed + 1;
      } else {
        unattributed := unattributed + 1;
      }
    }
    assert consumers[..|consumers|] == consumers;
  }

  lemma {:induction false} CustodyPartitions(consumers: seq<Consumer>)
    ensures InCustody(consumers, Attributed) + InCustody(consumers, Unattributed) == |consumers|
  {
    if consumers != [] {
      CustodyPartitions(consumers[..|consumers| - 1]);
    }
  }

  function FoundTotal(o: Outcomes, families: seq<Family>): nat {
    if families == [] then 0
    else
      var last := families[|families| - 1];
      FoundTotal(o, families[..|families| - 1]) + if last in o then o[last].scan.found else 0
  }

  /** The published custody totals add up to the published per-family counts. */
  lemma {:induction false} TotalsAgree(o: Outcomes, families: seq<Family>)
    requires forall f :: f in o ==> o[f].scan.found == |o[f].consumers|
    ensures |AllConsumersOf(o, families)| == FoundTotal(o, families)
  {
    if families != [] {
      TotalsAgree(o, families[..|families| - 1]);
    }
  }
}
