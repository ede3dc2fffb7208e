/** `receipt.py`: what a promotion writes down, and what an accepted receipt must show. */
module Receipt {
  import opened Wrappers
  import opened Records
  import opened Digests
  import opened Dicts
  import opened LiveTargets
  import opened LiveVerify

  datatype Outcome = Accepted | RolledBack | Failed

  datatype Authorization = Authorization(
    planDigest: string, approvalDecisionRef: string, executionPlanDigest: Option<string>)
  datatype ImageRecord = ImageRecord(service: string, repository: string, digest: string)
  datatype BundleRecord = BundleRecord(
    product: string, sourceRevision: string, rulesSha256: string, ruleCount: nat)
  datatype CheckResult = CheckResult(passed: bool, detail: Option<string>)
  datatype Runs = Runs(ci: Option<string>, rehearsal: Option<string>, promotion: Option<string>)
  datatype InventoryIdentity = InventoryIdentity(document: string, version: nat, digest: string)

  datatype LiveBlock = LiveBlock(
    targetsExpected: nat, targetsUp: nat, rulesLoaded: nat, rulesHealthy: nat,
    rulesSemanticDigest: Digest, routesVerified: nat)
  datatype CanaryBlock = CanaryBlock(fired: bool, delivered: bool, recovered: bool, receiver: string)
  datatype RollbackBlock = RollbackBlock(exercised: bool, restoredRelease: Option<string>, succeeded: bool)

  /** The last four blocks are absent when nothing was read back. */
  datatype Receipt = Receipt(
    outcome: Outcome, environment: string, controlPlaneRevision: string,
    authorization: Authorization, inventory: InventoryIdentity, renderedDigest: Digest,
    images: seq<ImageRecord>, bundles: seq<BundleRecord>,
    prometheusVersion: string, alertmanagerVersion: string, hostTarget: string,
    validation: map<string, CheckResult>, runs: Runs, startedAt: string, finishedAt: string,
    release: Option<LiveRelease>, live: Option<LiveBlock>, canary: Option<CanaryBlock>,
    rollback: Option<RollbackBlock>)

  /** `_ReceiptInputs`, without the read-back. */
  datatype Inputs = Inputs(
    state: DesiredState, inventory: InventoryIdentity, tree: Tree, revision: string,
    authorization: Authorization, images: seq<ImageRecord>, bundles: seq<BundleRecord>,
    validation: map<string, CheckResult>, runs: Runs, startedAt: string, finishedAt: string)

  // ---------------------------------------------------------------------- counts

  function UpCount(targets: seq<LiveTarget>): nat {
    if targets == [] then 0
    else UpCount(targets[..|targets| - 1]) + if targets[|targets| - 1].health == Up then 1 else 0
  }

  function OkCount(rules: seq<LiveRule>): nat {
    if rules == [] then 0
    else OkCount(rules[..|rules| - 1]) + if rules[|rules| - 1].health == RuleOk then 1 else 0
  }

  function StatedSum(jobs: seq<ScrapeJob>): nat {
    if jobs == [] then 0
    else
      var j := jobs[|jobs| - 1];
      StatedSum(jobs[..|jobs| - 1]) + if j.expected.Some? then j.expected.value else 0
  }

  function ExpectedTotal(state: DesiredState, live: LiveState): nat {
    var total := StatedSum(Jobs(state.targets)) + |state.federations|;
    if total == 0 then |live.targets| else total
  }

  lemma {:induction false} StatedSumConcat(a: seq<ScrapeJob>, b: seq<ScrapeJob>)
    ensures StatedSum(a + b) == StatedSum(a) + StatedSum(b)
  {
    if b == [] {
      assert a + b == a;
    } else {
      assert (a + b)[..|a + b| - 1] == a + b[..|b| - 1];
      StatedSumConcat(a, b[..|b| - 1]);
    }
  }

  /** `_expected_total`. A job that states no number adds nothing. */
  method CountExpected(state: DesiredState, live: LiveState) returns (total: nat)
    ensures total == ExpectedTotal(state, live)
  {
    total := 0;
    for i := 0 to |state.targets|
      invariant total == StatedSum(Jobs(state.targets[..i]))
    {
      assert state.targets[..i + 1][..i] == state.targets[..i];
      var jobs := state.targets[i].jobs;
      for k := 0 to |jobs|
        invariant total == StatedSum(Jobs(state.targets[..i])) + StatedSum(jobs[..k])
      {
        assert jobs[..k + 1][..k] == jobs[..k];
        total := total + if jobs[k].expected.Some? then jobs[k].expected.value else 0;
      }
      assert jobs[..|jobs|] == jobs;
      StatedSumConcat(Jobs(state.targets[..i]), jobs);
    }
    assert state.targets[..|state.targets|] == state.targets;
    total := total + |state.federations|;
    if total == 0 {
      total := |live.targets|;
    }
  }

  function UpPlaces(targets: seq<LiveTarget>): set<int> {
    set i | 0 <= i < |targets| && targets[i].health == Up
  }

  function OkPlaces(rules: seq<LiveRule>): set<int> {
    set i | 0 <= i < |rules| && rules[i].health == RuleOk
  }

  /** The counts are of the targets that are up and of the rules that evaluate, and of no others. */
  lemma {:induction false} UpCountMeans(targets: seq<LiveTarget>)
    ensures UpCount(targets) == |UpPlaces(targets)|
  {
    if targets == [] {
      assert UpPlaces(targets) == {};
    } else {
      var n := |targets| - 1;
      UpCountMeans(targets[..n]);
      assert UpPlaces(targets) == UpPlaces(targets[..n]) + if targets[n].health == Up then {n} else {};
    }
  }

  lemma {:induction false} OkCountIs(rules: seq<LiveRule>)
    ensures OkCount(rules) == |OkPlaces(rules)|
  {
    if rules == [] {
      assert OkPlaces(rules) == {};
    } else {
      var n := |rules| - 1;
      OkCountIs(rules[..n]);
      assert OkPlaces(rules) == OkPlaces(rules[..n]) + if rules[n].health == RuleOk then {n} else {};
    }
  }

  // --------------------------------------------------------------------- building

  function LiveBlockOf(state: DesiredState, live: LiveState): LiveBlock {
    LiveBlock(ExpectedTotal(state, live), UpCount(live.targets), |live.rules|, OkCount(live.rules),
              RulesSha(live.rules), |live.routes|)
  }

  function Version(v: Option<string>): string {
    if v.Some? && v.value != "" then v.value else "unknown"
  }

  function ReceiptOf(outcome: Outcome, x: Inputs, live: Option<LiveState>): Receipt {
    Receipt(
      outcome, x.state.environment, x.revision, x.authorization, x.inventory, TreeSha(x.tree),
      x.images, x.bundles, Version(x.state.prometheusVersion), Version(x.state.alertmanagerVersion),
      x.state.hostTarget, x.validation, x.runs, x.startedAt, x.finishedAt,
      if live.Some? then Some(live.value.release) else None,
      if live.Some? then Some(LiveBlockOf(x.state, live.value)) else None,
      if live.Some? then
        var c := live.value.canary;
        Some(CanaryBlock(c.fired, c.delivered, c.recovered, c.receiver))
      else None,
      if live.Some? && live.value.rollback.Some? then
        var r := live.value.rollback.value;
        Some(RollbackBlock(r.exercised, r.restoredRelease, r.succeeded))
      else None)
  }

  datatype BuildError = AcceptedWithoutReadBack

  /** `build_receipt`: every number in it is counted from the read-back. */
  method BuildReceipt(outcome: Outcome, x: Inputs, live: Option<LiveState>)
    returns (r: Result<Receipt, BuildError>)
    ensures r.Err? <==> outcome == Accepted && live.None?
    ensures r.Ok? ==> r.value == ReceiptOf(outcome, x, live)
  {
    if outcome == Accepted && live.None? {
      return Err(AcceptedWithoutReadBack);
    }
    var rendered := TreeDigest(x.tree);
    var document := Receipt(
      outcome, x.state.environment, x.revision, x.authorization, x.inventory, rendered,
      x.images, x.bundles, Version(x.state.prometheusVersion), Version(x.state.alertmanagerVersion),
      x.state.hostTarget, x.validation, x.runs, x.startedAt, x.finishedAt, None, None, None, None);
    if live.Some? {
      var state := live.value;
      var expected := CountExpected(x.state, state);
      var up := 0;
      for i := 0 to |state.targets|
        invariant up == UpCount(state.targets[..i])
      {
        assert state.targets[..i + 1][..i] == state.targets[..i];
        up := up + if state.targets[i].health == Up then 1 else 0;
      }
      var healthy := 0;
      for i := 0 to |state.rules|
        invariant healthy == OkCount(state.rules[..i])
      {
        assert state.rules[..i + 1][..i] == state.rules[..i];
        healthy := healthy + if state.rules[i].health == RuleOk then 1 else 0;
      }
      assert state.targets[..|state.targets|] == state.targets;
      assert state.rules[..|state.rules|] == state.rules;
      var digest := RulesSemanticDigest(state);
      var c := state.canary;
      document := document.(
        release := Some(state.release),
        live := Some(LiveBlock(expected, up, |state.rules|, healthy, digest, |state.routes|)),
        canary := Some(CanaryBlock(c.fired, c.delivered, c.recovered, c.receiver)));
      if state.rollback.Some? {
        var b := state.rollback.value;
        document := document.(rollback := Some(RollbackBlock(b.exercised, b.restoredRelease, b.succeeded)));
      }
    }
    return Ok(document);
  }

  // -------------------------------------------------------------------- believing

  /** What an accepted receipt asserts about itself. */
  predicate AcceptanceShown(r: Receipt, verdict: Option<Verdict>)
    requires r.live.Some? && r.canary.Some?
  {
    && (forall name :: name in r.validation ==> r.validation[name].passed)
    && r.live.value.targetsUp == r.live.value.targetsExpected
    && r.live.value.rulesLoaded > 0 && r.live.value.rulesHealthy == r.live.value.rulesLoaded
    && r.canary.value.delivered
    && r.runs.promotion.Some?
    && (verdict.Some? ==> verdict.value == DeployedRepaired)
  }

  /** One finding for every validation check that did not pass. */
  method FailedChecks(validation: map<string, CheckResult>) returns (failed: seq<string>)
    ensures forall name :: name in failed <==> name in validation && !validation[name].passed
  {
    failed := [];
    var pending := validation.Keys;
    while pending != {}
      invariant pending <= validation.Keys
      invariant forall name :: name in failed
                  <==> name in validation.Keys - pending && !validation[name].passed
    {
      var name :| name in pending;
      if !validation[name].passed {
        failed := failed + [name];
      }
      pending := pending - {name};
    }
  }

  /** `_accepted_findings`. The contract gives an accepted receipt its live and canary blocks. */
  method AcceptedFindings(r: Receipt, verification: Option<Verification>) returns (findings: seq<Finding>)
    requires r.outcome == Accepted ==> r.live.Some? && r.canary.Some?
    ensures r.outcome != Accepted ==> findings == []
    ensures r.outcome == Accepted ==>
              (findings == [] <==>
                 AcceptanceShown(r, if verification.Some? then Some(verification.value.Verdict()) else None))
  {
    findings := [];
    if r.outcome != Accepted {
      return;
    }
    var failed := FailedChecks(r.validation);
    for i := 0 to |failed|
      invariant |findings| == i
    {
      findings := findings + [Finding(ReceiptAcceptedWithFailedCheck, failed[i])];
    }
    if failed != [] {
      assert failed[0] in failed;
    }
    assert failed == [] <==> forall name :: name in r.validation ==> r.validation[name].passed;
    var live := r.live.value;
    if live.targetsUp != live.targetsExpected {
      findings := findings + [Finding(ReceiptAcceptedTargets, "live.targets_up")];
    }
    if live.rulesLoaded == 0 {
      findings := findings + [Finding(ReceiptAcceptedNoRules, "live.rules_loaded")];
    } else if live.rulesHealthy != live.rulesLoaded {
      findings := findings + [Finding(ReceiptAcceptedUnhealthyRules, "live.rules_healthy")];
    }
    if !r.canary.value.delivered {
      findings := findings + [Finding(ReceiptAcceptedCanary, "canary.delivered")];
    }
    if r.runs.promotion.None? {
      findings := findings + [Finding(ReceiptAcceptedUnprovenRun, "runs.promotion")];
    }
    if verification.Some? && verification.value.Verdict() != DeployedRepaired {
      findings := findings + [Finding(ReceiptAcceptedWithoutVerdict, "outcome")];
    }
  }

  // ------------------------------------------------------------- counting by group

  function GroupTotal(targets: seq<LiveTarget>, names: seq<string>): nat {
    if names == [] then 0
    else GroupTotal(targets, names[..|names| - 1]) + |OfJob(targets, names[|names| - 1])|
  }

  lemma {:induction false} GroupTotalGrows(targets: seq<LiveTarget>, t: LiveTarget, names: seq<string>)
    requires Distinct(names)
    ensures GroupTotal(targets + [t], names) == GroupTotal(targets, names) + if t.job in names then 1 else 0
  {
    if names != [] {
      var n := |names| - 1;
      GroupTotalGrows(targets, t, names[..n]);
      assert names == names[..n] + [names[n]];
      assert (targets + [t])[..|targets|] == targets;
    }
  }

  lemma {:induction false} GroupTotalEmpty(names: seq<string>)
    ensures GroupTotal([], names) == 0
  {
    if names != [] {
      GroupTotalEmpty(names[..|names| - 1]);
    }
  }

  /** Grouping a target list by job loses nothing: the group sizes sum to its length. */
  lemma {:induction false} GroupsPartition(targets: seq<LiveTarget>, names: seq<string>)
    requires Distinct(names) && forall t :: t in targets ==> t.job in names
    ensures GroupTotal(targets, names) == |targets|
  {
    if targets == [] {
      GroupTotalEmpty(names);
    } else {
      var n := |targets| - 1;
      GroupsPartition(targets[..n], names);
      GroupTotalGrows(targets[..n], targets[n], names);
      assert targets == targets[..n] + [targets[n]];
    }
  }

  // ------------------------------------------------- what an accepted run can show

  function Names(pairs: seq<(string, nat)>): seq<string> {
    seq(|pairs|, i requires 0 <= i < |pairs| => pairs[i].0)
  }

  function Sum(pairs: seq<(string, nat)>): nat {
    if pairs == [] then 0 else Sum(pairs[..|pairs| - 1]) + pairs[|pairs| - 1].1
  }

  /** No job shares its name with another job or a federation. */
  predicate DistinctNames(state: DesiredState, endpoints: Endpoints)
    requires JobsResolved(state, endpoints)
  {
    Distinct(Names(DeclaredPairs(Jobs(state.targets), state.federations, endpoints)))
  }

  lemma {:induction false} DeclaredIsGrouped(targets: seq<LiveTarget>, pairs: seq<(string, nat)>)
    requires forall i :: 0 <= i < |pairs| ==> |OfJob(targets, pairs[i].0)| == pairs[i].1
    ensures GroupTotal(targets, Names(pairs)) == Sum(pairs)
  {
    if pairs != [] {
      var n := |pairs| - 1;
      DeclaredIsGrouped(targets, pairs[..n]);
      assert Names(pairs)[..n] == Names(pairs[..n]);
    }
  }

  lemma {:induction false} AllUpCount(targets: seq<LiveTarget>)
    requires forall t :: t in targets ==> t.health == Up
    ensures UpCount(targets) == |targets|
  {
    if targets != [] {
      AllUpCount(targets[..|targets| - 1]);
    }
  }

  lemma {:induction false} SumOfFederations(jobs: seq<ScrapeJob>, federations: seq<Federation>, endpoints: Endpoints)
    requires forall j :: j in jobs ==> j.job in endpoints
    ensures Sum(DeclaredPairs(jobs, federations, endpoints))
         == Sum(DeclaredPairs(jobs, [], endpoints)) + |federations|
    decreases |federations|
  {
    if federations != [] {
      var n := |federations| - 1;
      SumOfFederations(jobs, federations[..n], endpoints);
      var pairs := DeclaredPairs(jobs, federations, endpoints);
      assert pairs[..|pairs| - 1] == DeclaredPairs(jobs, federations[..n], endpoints);
    }
  }

  predicate AllStated(jobs: seq<ScrapeJob>) {
    forall j :: j in jobs ==> j.expected.Some?
  }

  predicate NoneStated(jobs: seq<ScrapeJob>) {
    forall j :: j in jobs ==> j.expected.None?
  }

  lemma DeclaredStep(jobs: seq<ScrapeJob>, last: ScrapeJob, endpoints: Endpoints)
    requires forall j :: j in jobs + [last] ==> j.job in endpoints
    ensures forall j :: j in jobs ==> j.job in endpoints
    ensures last.job in endpoints
    ensures Sum(DeclaredPairs(jobs + [last], [], endpoints))
         == Sum(DeclaredPairs(jobs, [], endpoints)) + Declared(last, endpoints)
  {
    assert forall j :: j in jobs ==> j in jobs + [last];
    assert last in jobs + [last];
    var pairs := DeclaredPairs(jobs + [last], [], endpoints);
    assert pairs[..|jobs|] == DeclaredPairs(jobs, [], endpoints);
  }

  lemma StatedStep(jobs: seq<ScrapeJob>, last: ScrapeJob)
    ensures StatedSum(jobs + [last]) == StatedSum(jobs) + if last.expected.Some? then last.expected.value else 0
    ensures AllStated(jobs + [last]) <==> AllStated(jobs) && last.expected.Some?
    ensures NoneStated(jobs + [last]) <==> NoneStated(jobs) && last.expected.None?
  {
    assert (jobs + [last])[..|jobs|] == jobs;
    assert forall j :: j in jobs + [last] <==> j in jobs || j == last;
  }

  /** The two totals part as soon as one job states no number. */
  lemma {:induction false} StatedAgainstDeclared(jobs: seq<ScrapeJob>, endpoints: Endpoints)
    requires forall j :: j in jobs ==> j.job in endpoints && Declared(j, endpoints) > 0
    ensures var declared := Sum(DeclaredPairs(jobs, [], endpoints));
            && StatedSum(jobs) <= declared
            && (StatedSum(jobs) == declared <==> AllStated(jobs))
            && (StatedSum(jobs) == 0 <==> NoneStated(jobs))
  {
    if jobs != [] {
      var before, last := jobs[..|jobs| - 1], jobs[|jobs| - 1];
      assert jobs == before + [last] && last in jobs;
      assert forall j :: j in before ==> j in jobs;
      StatedAgainstDeclared(before, endpoints);
      DeclaredStep(before, last, endpoints);
      StatedStep(before, last);
    }
  }

  lemma HealthyPairs(targets: seq<LiveTarget>, pairs: seq<(string, nat)>)
    requires Distinct(Names(pairs))
    requires forall job :: job in FromPairs(pairs) ==> JobHealthy(OfJob(targets, job), FromPairs(pairs)[job])
    ensures forall i :: 0 <= i < |pairs| ==> |OfJob(targets, pairs[i].0)| == pairs[i].1 > 0
  {
    assert forall i :: 0 <= i < |pairs| ==> Names(pairs)[i] == pairs[i].0;
    DistinctPairs(pairs);
    forall i | 0 <= i < |pairs| ensures |OfJob(targets, pairs[i].0)| == pairs[i].1 > 0 {
      assert pairs[i].0 in FromPairs(pairs);
    }
  }

  lemma HealthyTargets(targets: seq<LiveTarget>, pairs: seq<(string, nat)>)
    requires forall job :: job in FromPairs(pairs) ==> JobHealthy(OfJob(targets, job), FromPairs(pairs)[job])
    requires forall t :: t in targets ==> t.job in FromPairs(pairs)
    ensures forall t :: t in targets ==> t.job in Names(pairs) && t.health == Up
  {
    OrderIsKeys(pairs);
    forall t | t in targets ensures t.job in Names(pairs) && t.health == Up {
      var i :| 0 <= i < |pairs| && pairs[i].0 == t.job;
      assert Names(pairs)[i] == t.job;
      OfJobMeans(targets, t.job);
    }
  }

  lemma HealthyCounts(targets: seq<LiveTarget>, pairs: seq<(string, nat)>)
    requires Distinct(Names(pairs))
    requires forall job :: job in FromPairs(pairs) ==> JobHealthy(OfJob(targets, job), FromPairs(pairs)[job])
    requires forall t :: t in targets ==> t.job in FromPairs(pairs)
    ensures UpCount(targets) == |targets| == Sum(pairs)
    ensures forall i :: 0 <= i < |pairs| ==> pairs[i].1 > 0
  {
    HealthyPairs(targets, pairs);
    HealthyTargets(targets, pairs);
    DeclaredIsGrouped(targets, pairs);
    GroupsPartition(targets, Names(pairs));
    AllUpCount(targets);
  }

  /** Under condition 2 the declared counts sum to the live targets, all of which are up. */
  lemma VerifiedCounts(state: DesiredState, endpoints: Endpoints, live: LiveState)
    requires JobsResolved(state, endpoints) && DistinctNames(state, endpoints)
    requires TargetsAgree(state, endpoints, live)
    ensures UpCount(live.targets) == |live.targets| > 0
    ensures Sum(DeclaredPairs(Jobs(state.targets), state.federations, endpoints)) == |live.targets|
    ensures forall j :: j in Jobs(state.targets) ==> Declared(j, endpoints) > 0
  {
    var pairs := DeclaredPairs(Jobs(state.targets), state.federations, endpoints);
    HealthyCounts(live.targets, pairs);
    forall j | j in Jobs(state.targets) ensures Declared(j, endpoints) > 0 {
      var i :| 0 <= i < |Jobs(state.targets)| && Jobs(state.targets)[i] == j;
      assert pairs[i].1 == Declared(j, endpoints);
    }
  }

  /** A verified host's receipt shows as many targets up as expected exactly when every job states its
      number, or when no job does and nothing is federated. */
  lemma ExpectedMatchesUp(state: DesiredState, endpoints: Endpoints, live: LiveState)
    requires JobsResolved(state, endpoints) && DistinctNames(state, endpoints)
    requires TargetsAgree(state, endpoints, live)
    ensures UpCount(live.targets) == ExpectedTotal(state, live)
       <==> AllStated(Jobs(state.targets)) || (NoneStated(Jobs(state.targets)) && state.federations == [])
  {
    VerifiedCounts(state, endpoints, live);
    SumOfFederations(Jobs(state.targets), state.federations, endpoints);
    StatedAgainstDeclared(Jobs(state.targets), endpoints);
  }

  lemma {:induction false} OkCountMeans(rules: seq<LiveRule>)
    ensures OkCount(rules) <= |rules|
    ensures OkCount(rules) == |rules| <==> forall r :: r in rules ==> r.health == RuleOk
  {
    if rules != [] {
      var n := |rules| - 1;
      OkCountMeans(rules[..n]);
      assert rules == rules[..n] + [rules[n]];
    }
  }

  /** Exactly which verified, validated runs file an accepted receipt that is then believed. */
  lemma AcceptedReceiptBelieved(x: Inputs, q: Question)
    requires Answerable(q) && Deployed(q) && q.state == x.state && DistinctNames(q.state, q.endpoints)
    requires forall name :: name in x.validation ==> x.validation[name].passed
    ensures AcceptanceShown(ReceiptOf(Accepted, x, Some(q.live)), Some(DeployedRepaired))
       <==> && (AllStated(Jobs(x.state.targets))
                || (NoneStated(Jobs(x.state.targets)) && x.state.federations == []))
            && q.live.rules != [] && (forall r :: r in q.live.rules ==> r.health == RuleOk)
            && x.runs.promotion.Some?
  {
    assert Holds(2, q) && Holds(4, q);
    ExpectedMatchesUp(q.state, q.endpoints, q.live);
    OkCountMeans(q.live.rules);
  }
}
