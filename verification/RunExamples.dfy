/** Promotions of one small plan, for the properties that fail: runs that end in no outcome, an accepted
    run whose receipt its own check does not believe or names another release, and a rolled-back run
    whose record does not vouch for the rollback. */
module RunExamples {
  import opened Wrappers
  import opened Records
  import opened Digests
  import opened LiveTree
  import opened LiveTargets
  import opened LiveIntegrity
  import opened LiveDelivery
  import opened LiveProbes
  import opened LiveVerify
  import opened Receipt
  import opened Promote
  import opened PromoteTheorems
  import opened StateExamples
  import Resolution

  // ------------------------------------------------------------------ plan and host

  const RESTORED := LiveRollback(true, Some("r0"), Some(Hex("d0")), None, true)
  const NOT_RESTORED := LiveRollback(true, None, None, Some(NothingRestored), false)
  const OTHER_RESTORED := LiveRollback(true, Some("r9"), Some(Hex("d9")), None, true)
  const TARGETS := [LiveTarget("api", Up), LiveTarget("db", Up)]

  /** The host after the reload of `r1`, read back at `at` by someone who says it runs `current`. */
  function ReadBack(at: Stamp, current: string := "r1"): LiveState {
    LiveState(
      at, "production", "host", LiveRelease(current, Some("r0")), [TreeEntry("prometheus.yml", FileSha("global"))],
      TARGETS, [LiveRule("group", "rule", RuleOk)], [], [],
      LiveCanary(true, true, true, "ops", Some("reference")), [], Some(RESTORED))
  }

  /** `2026-01-01T00:00:00Z` counted from itself, and the same clock an hour later. */
  const MIDNIGHT := Aware(0.0)
  const ONE := Aware(3600.0)
  const ONE_WITHOUT_OFFSET := Naive(3600.0)

  function DemoPlan(second: Option<nat>): Plan {
    Plan(
      TwoJobs(second), BINDINGS, [("prometheus.yml", "global")],
      InventoryIdentity("inventory", 1, "digest"), "host", seq(40, _ => '0'), "oracle",
      Authorization("plan", "approval", None), [], Some(ReadBack(MIDNIGHT)), Some(Hex("d0")), false,
      Runs(None, None, Some("run")), "started", "finished")
  }

  /** A facility that answers everything, and shows `live` to whoever looks. */
  function Answering(live: LiveState, accept: Reply<bool>, record: LiveRollback): Script {
    Script(
      Returned([]), Returned(map[]), Returned(live), Returned(StagedRelease("r1", Some("r0"))),
      Returned(true), Returned(live), accept, Returned(live.(rollback := Some(record))))
  }

  /** Each of the two jobs has one endpoint. */
  const COUNTS: Endpoints := map["api" := 1, "db" := 1]

  lemma DemoEndpoints(second: Option<nat>)
    ensures DemoPlan(second).Endpoints() == COUNTS
  {
  }

  // ---------------------------------------------------------- the conditions it meets

  lemma DemoDeclared(second: Option<nat>)
    requires second.None? || second == Some(1)
    ensures JobsResolved(TwoJobs(second), COUNTS)
    ensures DeclaredPairs(Jobs(TwoJobs(second).targets), [], COUNTS) == [("api", 1), ("db", 1)]
    ensures DistinctNames(TwoJobs(second), COUNTS)
  {
    TwoJobsAre(second);
    assert Names([("api", 1), ("db", 1)]) == ["api", "db"];
  }

  lemma TargetsOfTwo(a: LiveTarget, b: LiveTarget, job: string)
    ensures OfJob([a, b], job) == (if a.job == job then [a] else []) + (if b.job == job then [b] else [])
  {
    assert [a, b][..1] == [a] && [a][..0] == [];
    assert OfJob([a], job) == if a.job == job then [a] else [];
  }

  lemma TargetsMet(second: Option<nat>, at: Stamp, current: string)
    requires second.None? || second == Some(1)
    ensures JobsResolved(TwoJobs(second), COUNTS)
    ensures TargetsAgree(TwoJobs(second), COUNTS, ReadBack(at, current))
  {
    DemoDeclared(second);
    TwoPairs(("api", 1), ("db", 1));
    TargetsOfTwo(TARGETS[0], TARGETS[1], "api");
    TargetsOfTwo(TARGETS[0], TARGETS[1], "db");
  }

  lemma TreeMet(at: Stamp, current: string)
    ensures TreeAgrees([("prometheus.yml", "global")], ReadBack(at, current))
  {
    var pair := ("prometheus.yml", FileSha("global"));
    assert ExpectedPairs([("prometheus.yml", "global")]) == [pair];
    assert ObservedPairs(ReadBack(at, current).tree) == [pair];
  }

  lemma DeliveryMet(second: Option<nat>, at: Stamp, current: string)
    ensures DeliveryProved(TwoJobs(second), ReadBack(at, current))
  {
    assert RoutePairs([]) == [];
    assert Receiver("ops", []) in TwoJobs(second).receivers;
  }

  lemma ProbesMet(second: Option<nat>, at: Stamp, current: string)
    ensures ProbesAgree(TwoJobs(second), ReadBack(at, current))
  {
    assert ProbePairs([]) == [];
  }

  lemma IntegrityMet(second: Option<nat>, current: string)
    ensures IntegrityHolds(TwoJobs(second), ReadBack(ONE, current), Some(ReadBack(MIDNIGHT)))
  {
    assert ReadingPairs([]) == [];
  }

  /** The four conditions of a rehearsal, and the other two of a promotion. */
  lemma ConditionsMet(p: Plan, live: LiveState)
    requires JobsResolved(p.state, p.Endpoints()) && Identified(p.state, live) && TreeAgrees(p.tree, live)
    requires TargetsAgree(p.state, p.Endpoints(), live) && RulesAgree(p.state, live)
    requires DeliveryProved(p.state, live) && ProbesAgree(p.state, live)
    ensures Rehearsed(p, live)
    ensures IntegrityHolds(p.state, live, p.baseline) && RollbackProved(live, p.previousDigest, p.firstPromotion) ==>
              Deployed(FinalQuestion(p, live))
  {
  }

  lemma DemoRehearsed(second: Option<nat>, at: Stamp, current: string)
    requires second.None? || second == Some(1)
    ensures var p, live := DemoPlan(second), ReadBack(at, current);
            && JobsResolved(p.state, p.Endpoints()) && Rehearsed(p, live)
            && (at == ONE ==> Deployed(FinalQuestion(p, live)))
  {
    DemoEndpoints(second);
    TargetsMet(second, at, current);
    TreeMet(at, current);
    DeliveryMet(second, at, current);
    ProbesMet(second, at, current);
    IntegrityMet(second, current);
    ConditionsMet(DemoPlan(second), ReadBack(at, current));
  }

  // ---------------------------------------------------------------------- the runs

  /** The facility answers every stage, and whoever looks is shown `live`. */
  predicate Cooperates(s: Script, live: LiveState) {
    && s.fetch.Returned? && s.check == Returned(map[]) && s.rehearse == Returned(live)
    && s.stage == Returned(StagedRelease("r1", Some("r0"))) && s.reload.Returned? && s.observe == Returned(live)
  }

  lemma EarlyStagesClear(p: Plan, s: Script, live: LiveState)
    requires JobsResolved(p.state, p.Endpoints()) && Cooperates(s, live) && Rehearsed(p, live)
    ensures forall k :: 0 <= k < 5 ==> Clears(k, p, s)
  {
  }

  lemma VerifiedRun(p: Plan, s: Script, live: LiveState)
    requires JobsResolved(p.state, p.Endpoints()) && Cooperates(s, live) && Rehearsed(p, live)
    requires Deployed(FinalQuestion(p, live))
    ensures StopsAt(p, s) == if s.accept.Returned? then 7 else 6
    ensures !Escapes(p, s) && StagedBy(p, s) == Some(StagedRelease("r1", Some("r0")))
  {
    EarlyStagesClear(p, s, live);
    assert Clears(5, p, s) && (Clears(6, p, s) <==> s.accept.Returned?);
    StopsExactly(p, s, if s.accept.Returned? then 7 else 6);
  }

  lemma RaisedRun(p: Plan, s: Script, live: LiveState)
    requires JobsResolved(p.state, p.Endpoints()) && Cooperates(s, live) && Rehearsed(p, live)
    requires Raises(FinalQuestion(p, live))
    ensures Escapes(p, s) && StagedBy(p, s) == Some(StagedRelease("r1", Some("r0")))
  {
    EarlyStagesClear(p, s, live);
    RaisingIsNotDeployed(FinalQuestion(p, live));
    assert !Clears(5, p, s);
    StopsExactly(p, s, 5);
  }

  predicate AcceptedRun(p: Plan, s: Script)
    requires JobsResolved(p.state, p.Endpoints())
  {
    !Escapes(p, s) && OutcomeOf(p, s) == Accepted && s.observe.Returned?
  }

  /** The receipt of an accepted run passes its own check. */
  predicate Believed(p: Plan, s: Script)
    requires JobsResolved(p.state, p.Endpoints()) && AcceptedRun(p, s)
  {
    AcceptanceShown(ReceiptFiled(p, s), Some(DeployedRepaired))
  }

  /** Nothing stands against the run or against its receipt, except for what the jobs state. */
  predicate Healthy(p: Plan, s: Script, live: LiveState)
    requires JobsResolved(p.state, p.Endpoints())
  {
    && Cooperates(s, live) && s.accept.Returned? && Rehearsed(p, live) && Deployed(FinalQuestion(p, live))
    && live.rules != [] && (forall r :: r in live.rules ==> r.health == RuleOk)
    && p.runs.promotion.Some? && DistinctNames(p.state, p.Endpoints())
  }

  lemma DemoHealthy(second: Option<nat>, current: string)
    requires second.None? || second == Some(1)
    ensures var p := DemoPlan(second);
            && JobsResolved(p.state, p.Endpoints())
            && Healthy(p, Answering(ReadBack(ONE, current), Returned(true), RESTORED), ReadBack(ONE, current))
  {
    DemoRehearsed(second, ONE, current);
    DemoEndpoints(second);
    DemoDeclared(second);
  }

  /** Of an accepted run that is healthy in everything else, one stated number decides. */
  lemma StatedDecides(p: Plan, s: Script, live: LiveState)
    requires JobsResolved(p.state, p.Endpoints()) && Healthy(p, s, live) && !NoneStated(Jobs(p.state.targets))
    ensures AcceptedRun(p, s) && (Believed(p, s) <==> AllStated(Jobs(p.state.targets)))
  {
    VerifiedRun(p, s, live);
    AcceptedThenBelieved(p, s);
  }

  lemma DemoStated(second: Option<nat>)
    requires second.None? || second == Some(1)
    ensures AllStated(Jobs(TwoJobs(second).targets)) <==> second == Some(1)
    ensures !NoneStated(Jobs(TwoJobs(second).targets))
  {
    TwoJobsAre(second);
    var jobs := [Job("api", Some(1)), Job("db", second)];
    assert jobs[0] in jobs && jobs[1] in jobs;
  }

  /** An accepted run. If both jobs state their number the receipt is believed; if one of them states
      none, the receipt of the very same host contradicts itself, two targets up of one expected. */
  lemma AcceptedNotBelieved(second: Option<nat>)
    requires second.None? || second == Some(1)
    ensures var p, s := DemoPlan(second), Answering(ReadBack(ONE), Returned(true), RESTORED);
            && JobsResolved(p.state, p.Endpoints()) && AcceptedRun(p, s)
            && (Believed(p, s) <==> second == Some(1))
  {
    DemoHealthy(second, "r1");
    DemoStated(second);
    StatedDecides(DemoPlan(second), Answering(ReadBack(ONE), Returned(true), RESTORED), ReadBack(ONE));
  }

  /** An accepted run whose read-back names any release at all: the receipt names that one and is
      believed, whatever was staged and accepted. */
  lemma AcceptedUnderAnotherName(current: string)
    ensures var p, s := DemoPlan(Some(1)), Answering(ReadBack(ONE, current), Returned(true), RESTORED);
            && JobsResolved(p.state, p.Endpoints()) && AcceptedRun(p, s) && Believed(p, s)
            && s.stage == Returned(StagedRelease("r1", Some("r0")))
            && ReceiptFiled(p, s).release == Some(LiveRelease(current, Some("r0")))
  {
    var p, s := DemoPlan(Some(1)), Answering(ReadBack(ONE, current), Returned(true), RESTORED);
    DemoHealthy(Some(1), current);
    DemoStated(Some(1));
    StatedDecides(p, s, ReadBack(ONE, current));
    ReceiptNamesReadBack(p, s);
  }

  lemma DemoStarts()
    ensures Starts(DemoPlan(Some(1)))
  {
    TwoJobsRender(Some(1));
  }

  /** A rolled-back run whose record does not vouch for the rollback, because it failed or because it
      restored another release: the outcome is the same as if it had worked, and the host may run
      anything. */
  lemma RolledBackNotRestored(record: LiveRollback, left: Option<string>)
    requires !Restores(record, Some("r0")) && left != Some("r0")
    ensures var p, s := DemoPlan(Some(1)), Answering(ReadBack(ONE), Raised("accept"), record);
            var a := Attempt(p, s, false, left);
            && Starts(p) && Faithful(Some("r0"), a)
            && !Escapes(p, s) && OutcomeOf(p, s) == RolledBack && s.rollback.value.rollback == Some(record)
            && HostAfter(Some("r0"), a) == left && AcceptedAfter(Some("r0"), a) == Some("r0")
  {
    var p, s := DemoPlan(Some(1)), Answering(ReadBack(ONE), Raised("accept"), record);
    DemoRehearsed(Some(1), ONE, "r1");
    DemoStarts();
    RolledBackRun(Attempt(p, s, false, left), ReadBack(ONE), record);
  }

  lemma RolledBackRun(a: Attempt, live: LiveState, record: LiveRollback)
    requires var p := a.plan; Starts(p) && Cooperates(a.script, live) && Rehearsed(p, live) && Deployed(FinalQuestion(p, live))
    requires a.script.accept.Raised? && a.script.rollback == Returned(live.(rollback := Some(record)))
    ensures !Escapes(a.plan, a.script) && OutcomeOf(a.plan, a.script) == RolledBack && Faithful(Some("r0"), a)
    ensures AcceptedAfter(Some("r0"), a) == Some("r0")
    ensures HostAfter(Some("r0"), a) == if Restores(record, Some("r0")) then Some("r0") else a.left
  {
    VerifiedRun(a.plan, a.script, live);
  }

  /** Two such records. */
  lemma NotVouchedFor()
    ensures !Restores(NOT_RESTORED, Some("r0")) && !Restores(OTHER_RESTORED, Some("r0"))
    ensures !NOT_RESTORED.succeeded && OTHER_RESTORED.succeeded
  {
    assert "r9"[1] != "r0"[1];
  }

  /** A run that ends in no outcome: the baseline was stamped with an offset and the read-back without
      one. The release is reloaded, its predecessor was captured, no rollback is called, and the host
      keeps running what nobody accepted. */
  lemma EscapedRun(log: seq<Call>)
    ensures var p, s := DemoPlan(Some(1)), Answering(ReadBack(ONE_WITHOUT_OFFSET), Returned(true), RESTORED);
            var a := Attempt(p, s, false, None);
            && Starts(p) && Faithful(Some("r0"), a) && Escapes(p, s)
            && StagedBy(p, s) == Some(StagedRelease("r1", Some("r0")))
            && (RunCalls(log, p, s) ==> |log| == 6 && forall c :: c in log ==> !c.Rollback? && !c.Accept?)
            && HostAfter(Some("r0"), a) == Some("r1") && AcceptedAfter(Some("r0"), a) == Some("r0")
  {
    var p, s := DemoPlan(Some(1)), Answering(ReadBack(ONE_WITHOUT_OFFSET), Returned(true), RESTORED);
    DemoRehearsed(Some(1), ONE_WITHOUT_OFFSET, "r1");
    DemoStarts();
    RaisedRun(p, s, ReadBack(ONE_WITHOUT_OFFSET));
    if RunCalls(log, p, s) {
      EscapedCalls(log, p, s);
    }
  }

  lemma EscapedCalls(log: seq<Call>, p: Plan, s: Script)
    requires JobsResolved(p.state, p.Endpoints()) && Escapes(p, s) && RunCalls(log, p, s)
    ensures |log| == 6 && forall c :: c in log ==> !c.Rollback? && !c.Accept?
  {
    CallsInOrder(log, p, s);
    RollbackExactlyWhenOwed(log, p, s);
  }

  /** The plan with syslog files of two owners. */
  function TwoOwnersPlan(): Plan {
    DemoPlan(Some(1)).(state := TwoJobs(Some(1), TWO_OWNERS))
  }

  /** A run that ends in no outcome and never begins: both gates pass two syslog files of different
      owners and no precondition refuses, but the render raises. Nothing happens to the host. */
  lemma UnrenderedRun(running: Option<string>, s: Script)
    ensures var p := TwoOwnersPlan();
            && Passes(p.state, NOTHING) && Resolution.DatasourcesDeclared(p.state)
            && p.resolution == Resolution.Resolved(p.state, NOTHING)
            && Refusal(p).None? && !p.Rendered()
            && HostAfter(running, Attempt(p, s, false, None)) == running
  {
    TwoOwnersDoNotRender(Some(1));
    TwoJobsResolve(Some(1), TWO_OWNERS, ["5m"]);
  }
}
