/** `live_verify.py`, `verify` and the verdict. */
module LiveVerify {
  import opened Wrappers
  import opened Records
  import opened LiveTree
  import opened LiveTargets
  import opened LiveIntegrity
  import opened LiveDelivery
  import opened LiveProbes

  datatype ConditionResult = ConditionResult(number: nat, findings: seq<Finding>)

  datatype Verdict = RenderedGuarded | DeployedRepaired

  /** `Verification`: constructing one with other numbers than one to six raises. */
  datatype Verification = Verification(conditions: seq<ConditionResult>) {
    predicate Complete() {
      |conditions| == 6 && forall i :: 0 <= i < 6 ==> conditions[i].number == i + 1
    }

    function Verdict(): Verdict {
      if forall c :: c in conditions ==> c.findings == [] then DeployedRepaired else RenderedGuarded
    }
  }

  /** Everything a verification is asked about. */
  datatype Question = Question(
    state: DesiredState, endpoints: Endpoints, tree: Tree, live: LiveState,
    baseline: Option<LiveState>, previousDigest: Option<Digest>, firstPromotion: bool)

  predicate Answerable(q: Question) {
    JobsResolved(q.state, q.endpoints)
  }

  predicate Identified(state: DesiredState, live: LiveState) {
    live.environment == state.environment && live.hostTargetId == state.hostTarget
  }

  /** The statement each numbered condition makes about the host. */
  predicate Holds(n: nat, q: Question)
    requires Answerable(q)
  {
    match n
    case 1 => Identified(q.state, q.live) && TreeAgrees(q.tree, q.live)
    case 2 => TargetsAgree(q.state, q.endpoints, q.live) && RulesAgree(q.state, q.live)
    case 3 => IntegrityHolds(q.state, q.live, q.baseline)
    case 4 => DeliveryProved(q.state, q.live)
    case 5 => ProbesAgree(q.state, q.live)
    case 6 => RollbackProved(q.live, q.previousDigest, q.firstPromotion)
    case _ => true
  }

  /** `verify` raises instead of answering: condition 3 subtracts two stamps that Python cannot. */
  predicate Raises(q: Question) {
    IntegrityRaises(q.live, q.baseline)
  }

  predicate Deployed(q: Question)
    requires Answerable(q)
  {
    forall n :: 1 <= n <= 6 ==> Holds(n, q)
  }

  /** A verification that answers `q`: each condition is silent exactly when its statement holds. */
  predicate Answers(v: Verification, q: Question)
    requires Answerable(q)
  {
    v.Complete() && forall i :: 0 <= i < 6 ==> (v.conditions[i].findings == [] <==> Holds(i + 1, q))
  }

  /** `grouped[n]`: the findings of one condition. */
  method Condition(n: nat, q: Question) returns (r: Result<ConditionResult, StampError>)
    requires Answerable(q) && 1 <= n <= 6
    ensures r.Err? <==> n == 3 && Raises(q)
    ensures r.Ok? ==> r.value.number == n && (r.value.findings == [] <==> Holds(n, q))
  {
    var findings;
    if n == 1 {
      var identity := IdentityFindings(q.state, q.live);
      var tree := TreeFindings(q.tree, q.live);
      findings := identity + tree;
    } else if n == 2 {
      var targets := TargetFindings(q.state, q.endpoints, q.live);
      var rules := RuleFindings(q.state, q.live);
      findings := targets + rules;
    } else if n == 3 {
      var integrity := IntegrityFindings(q.state, q.live, q.baseline);
      if integrity.Err? {
        return Err(integrity.error);
      }
      findings := integrity.value;
    } else if n == 4 {
      var routes := RouteFindings(q.state, q.live);
      var canary := CanaryFindings(q.state, q.live);
      findings := routes + canary;
    } else if n == 5 {
      findings := ProbeFindings(q.state, q.live);
    } else {
      findings := RollbackFindings(q.live, q.previousDigest, q.firstPromotion);
    }
    r := Ok(ConditionResult(n, findings));
  }

  /** `verify`: all six conditions, whatever the earlier ones found, unless condition 3 raises. */
  method Verify(q: Question) returns (r: Result<Verification, StampError>)
    requires Answerable(q)
    ensures r.Err? <==> Raises(q)
    ensures r.Ok? ==> Answers(r.value, q)
    ensures r.Ok? ==> (r.value.Verdict() == DeployedRepaired <==> Deployed(q))
  {
    var conditions: seq<ConditionResult> := [];
    for n := 1 to 7
      invariant |conditions| == n - 1 && (n > 3 ==> !Raises(q))
      invariant forall i :: 0 <= i < n - 1 ==>
                  conditions[i].number == i + 1 && (conditions[i].findings == [] <==> Holds(i + 1, q))
    {
      var c := Condition(n, q);
      if c.Err? {
        return Err(c.error);
      }
      conditions := conditions + [c.value];
    }
    VerdictMeans(Verification(conditions), q);
    return Ok(Verification(conditions));
  }

  /** The verdict is the conjunction of the six statements, and nothing less. */
  lemma VerdictMeans(v: Verification, q: Question)
    requires Answerable(q) && Answers(v, q)
    ensures v.Verdict() == DeployedRepaired <==> Deployed(q)
  {
    if Deployed(q) {
      forall c | c in v.conditions ensures c.findings == [] {
        var i :| 0 <= i < 6 && v.conditions[i] == c;
        assert Holds(i + 1, q);
      }
    }
    if v.Verdict() == DeployedRepaired {
      forall n | 1 <= n <= 6 ensures Holds(n, q) {
        assert v.conditions[n - 1] in v.conditions;
      }
    }
  }

  lemma DeployedDoesNotRaise(q: Question)
    requires Answerable(q) && Deployed(q)
    ensures !Raises(q)
  {
    assert Holds(3, q);
  }

  /** A question that raises has no verdict, and would not have had the full one. */
  lemma RaisingIsNotDeployed(q: Question)
    requires Answerable(q) && Raises(q)
    ensures !Deployed(q)
  {
    assert !Holds(3, q);
  }
}
