/** What a run does and files, said in the facility's calls and replies and in the statements about the
    host, without stages, conditions or gates. */
module PromoteMeaning {
  import opened Wrappers
  import opened Records
  import opened Digests
  import opened LiveTree
  import opened LiveTargets
  import opened LiveIntegrity
  import opened LiveDelivery
  import opened LiveProbes
  import opened LiveMeaning
  import opened LiveVerify
  import opened Receipt
  import opened Promote
  import opened PromoteTheorems

  /** What a rehearsal is held to. A rehearsal has no baseline and rolls nothing back. */
  predicate HostShows(p: Plan, live: LiveState)
    requires JobsResolved(p.state, p.Endpoints())
  {
    && live.environment == p.state.environment && live.hostTargetId == p.state.hostTarget
    && TreeAgrees(p.tree, live)
    && TargetsAgree(p.state, p.Endpoints(), live) && RulesAgree(p.state, live)
    && RoutesAgree(p.state, live) && CanaryProved(p.state, live)
    && ProbesAgree(p.state, live)
  }

  /** What the promoted host is held to. */
  predicate HostProved(p: Plan, live: LiveState)
    requires JobsResolved(p.state, p.Endpoints())
  {
    && HostShows(p, live)
    && IntegrityHolds(p.state, live, p.baseline)
    && RollbackProved(live, p.previousDigest, p.firstPromotion)
  }

  predicate ChecksPass(s: Script) {
    s.check.Returned? && forall name :: name in s.check.value ==> s.check.value[name].passed
  }

  lemma RehearsedMeans(p: Plan, live: LiveState)
    requires JobsResolved(p.state, p.Endpoints())
    ensures Rehearsed(p, live) <==> HostShows(p, live)
  {
    var q := RehearsalQuestion(p, live);
    if Rehearsed(p, live) {
      assert Holds(1, q) && Holds(2, q) && Holds(4, q) && Holds(5, q);
    }
  }

  lemma DeployedMeans(p: Plan, live: LiveState)
    requires JobsResolved(p.state, p.Endpoints())
    ensures Deployed(FinalQuestion(p, live)) <==> HostProved(p, live)
    ensures Raises(FinalQuestion(p, live)) <==> p.baseline.Some? && Mixed(p.baseline.value.observedAt, live.observedAt)
  {
    var q := FinalQuestion(p, live);
    if Deployed(q) {
      assert Holds(1, q) && Holds(2, q) && Holds(3, q) && Holds(4, q) && Holds(5, q) && Holds(6, q);
    }
  }

  /** Nothing on the production host is touched before the toolchain passed the tree and a rehearsed host
      showed it running, healthy, delivering and refusing as declared; and nothing is accepted before the
      promoted host has shown that and kept its counters and its way back. */
  lemma EffectsBehindRehearsal(log: seq<Call>, p: Plan, s: Script, c: Call)
    requires JobsResolved(p.state, p.Endpoints()) && RunCalls(log, p, s) && c in log
    ensures c.StageRelease? || c.Reload? || c.Accept? || c.Rollback? ==>
              ChecksPass(s) && s.rehearse.Returned? && HostShows(p, s.rehearse.value)
    ensures c.Accept? ==> s.observe.Returned? && HostProved(p, s.observe.value)
  {
    GatesBeforeEffects(log, p, s, c);
    if s.rehearse.Returned? {
      RehearsedMeans(p, s.rehearse.value);
    }
    if s.observe.Returned? {
      DeployedMeans(p, s.observe.value);
    }
  }

  /** And nothing more is asked of a rehearsal: whatever conditions 3 and 6 would say of it, the run goes
      on to staging. */
  lemma RehearsalSuffices(log: seq<Call>, p: Plan, s: Script)
    requires JobsResolved(p.state, p.Endpoints()) && RunCalls(log, p, s)
    requires s.fetch.Returned? && ChecksPass(s) && s.rehearse.Returned? && HostShows(p, s.rehearse.value)
    ensures StageRelease(p.tree, p.namedTarget) in log
  {
    RehearsedMeans(p, s.rehearse.value);
    assert Clears(0, p, s) && Clears(1, p, s) && Clears(2, p, s);
    assert AsksAt(3, log[3], p, s);
  }

  /** Everything up to the observation came back and passed. */
  predicate Reloaded(p: Plan, s: Script)
    requires JobsResolved(p.state, p.Endpoints())
  {
    && s.fetch.Returned? && ChecksPass(s) && s.rehearse.Returned? && HostShows(p, s.rehearse.value)
    && s.stage.Returned? && (s.stage.value.previous.Some? || p.firstPromotion) && s.reload.Returned?
  }

  lemma ReloadedMeans(p: Plan, s: Script)
    requires JobsResolved(p.state, p.Endpoints())
    ensures Reloaded(p, s) <==> StopsAt(p, s) >= 5
  {
    if s.rehearse.Returned? {
      RehearsedMeans(p, s.rehearse.value);
    }
    if Reloaded(p, s) {
      assert forall k :: 0 <= k < 5 ==> Clears(k, p, s);
    }
    if StopsAt(p, s) >= 5 {
      assert Clears(0, p, s) && Clears(1, p, s) && Clears(2, p, s) && Clears(3, p, s) && Clears(4, p, s);
    }
  }

  /** When a run is accepted: exactly when every call came back, every check passed, the rehearsed host
      showed what it must, a way back was captured or declared unnecessary, and the promoted host proved
      all of it. */
  lemma AcceptedExactly(p: Plan, s: Script)
    requires JobsResolved(p.state, p.Endpoints())
    ensures !Escapes(p, s) && OutcomeOf(p, s) == Accepted
       <==> Reloaded(p, s) && s.observe.Returned? && HostProved(p, s.observe.value) && s.accept.Returned?
  {
    ReloadedMeans(p, s);
    if s.observe.Returned? {
      DeployedMeans(p, s.observe.value);
    }
    if StopsAt(p, s) == 7 {
      assert Clears(5, p, s) && Clears(6, p, s);
    }
  }

  /** When a run leaves `promote` as an exception: exactly when it was reloaded and observed, and the
      baseline's stamp and the observation's cannot be subtracted. */
  lemma EscapesExactly(p: Plan, s: Script)
    requires JobsResolved(p.state, p.Endpoints())
    ensures Escapes(p, s)
       <==> && Reloaded(p, s) && s.observe.Returned?
            && p.baseline.Some? && Mixed(p.baseline.value.observedAt, s.observe.value.observedAt)
  {
    ReloadedMeans(p, s);
    if s.observe.Returned? {
      DeployedMeans(p, s.observe.value);
      if Deployed(FinalQuestion(p, s.observe.value)) {
        DeployedDoesNotRaise(FinalQuestion(p, s.observe.value));
      }
    }
    if StopsAt(p, s) > 5 {
      assert Clears(5, p, s);
    }
  }

  // ------------------------------------------------------------------------ rollback

  predicate Asked(log: seq<Call>, stage: nat) {
    exists c :: c in log && !c.Rollback? && StageOf(c) == stage
  }

  /** A stage's call is in the log exactly when the run entered it. */
  lemma EnteredMeans(log: seq<Call>, p: Plan, s: Script, stage: nat)
    requires JobsResolved(p.state, p.Endpoints()) && RunCalls(log, p, s) && stage < 7
    ensures Asked(log, stage) <==> stage <= StopsAt(p, s)
  {
    CallsInOrder(log, p, s);
    if stage <= StopsAt(p, s) {
      AskedInPlace(stage, log[stage], p, s);
      assert log[stage] in log;
    }
    if Asked(log, stage) {
      var c :| c in log && !c.Rollback? && StageOf(c) == stage;
      StageWasReached(log, p, s, c);
    }
  }

  /** When a rollback is called: exactly when the release was staged over a captured one and was not
      accepted, unless the run ended on stamps that cannot be subtracted; and it goes to the captured
      release. */
  lemma RollbackExactly(log: seq<Call>, p: Plan, s: Script)
    requires JobsResolved(p.state, p.Endpoints()) && RunCalls(log, p, s)
    ensures (exists c :: c in log && c.Rollback?)
       <==> && (exists c :: c in log && c.StageRelease?) && s.stage.Returned? && s.stage.value.previous.Some?
            && !((exists c :: c in log && c.Accept?) && s.accept.Returned?)
            && !((exists c :: c in log && c.Observe?) && s.observe.Returned?
                 && p.baseline.Some? && Mixed(p.baseline.value.observedAt, s.observe.value.observedAt))
    ensures forall c :: c in log && c.Rollback? ==>
              s.stage.Returned? && s.stage.value.previous.Some?
              && c == Rollback(p.namedTarget, s.stage.value.previous.value)
  {
    RollbackExactlyWhenOwed(log, p, s);
    CallsOfStages(log, p, s);
    EscapesExactly(p, s);
    ReloadedMeans(p, s);
    if StopsAt(p, s) > 5 {
      assert Clears(5, p, s);
      DeployedDoesNotRaise(FinalQuestion(p, s.observe.value));
      DeployedMeans(p, s.observe.value);
    }
  }

  lemma CallsOfStages(log: seq<Call>, p: Plan, s: Script)
    requires JobsResolved(p.state, p.Endpoints()) && RunCalls(log, p, s)
    ensures (exists c :: c in log && c.StageRelease?) <==> StopsAt(p, s) >= 3
    ensures (exists c :: c in log && c.Observe?) <==> StopsAt(p, s) >= 5
    ensures (exists c :: c in log && c.Accept?) <==> StopsAt(p, s) >= 6
  {
    EnteredMeans(log, p, s, 3);
    EnteredMeans(log, p, s, 5);
    EnteredMeans(log, p, s, 6);
    assert forall c :: c in log && c.StageRelease? ==> !c.Rollback? && StageOf(c) == 3;
    assert forall c :: c in log && c.Observe? ==> !c.Rollback? && StageOf(c) == 5;
    assert forall c :: c in log && c.Accept? ==> !c.Rollback? && StageOf(c) == 6;
  }

  // ------------------------------------------------------------------------- reports

  /** The outcome a run files: accepted if the acceptance was called and came back, rolled back if a
      rollback was called and its read-back shows any record, failed otherwise. */
  lemma OutcomeExactly(log: seq<Call>, p: Plan, s: Script)
    requires JobsResolved(p.state, p.Endpoints()) && RunCalls(log, p, s) && !Escapes(p, s)
    ensures OutcomeOf(p, s)
         == if (exists c :: c in log && c.Accept?) && s.accept.Returned? then Accepted
            else if (exists c :: c in log && c.Rollback?) && s.rollback.Returned? && s.rollback.value.rollback.Some? then RolledBack
            else Failed
  {
    CallsOfStages(log, p, s);
    if StopsAt(p, s) == 7 {
      assert Clears(6, p, s);
    }
    assert (exists c :: c in log && c.Rollback?) <==> RollbackTarget(p, s).Some? by {
      RollbackExactlyWhenOwed(log, p, s);
    }
  }

  /** The state a call takes a run to, once it has come back. */
  predicate Reaches(c: Call, stage: Stage) {
    match c
    case Fetch(_) => stage == FETCHED
    case CheckConfiguration(_) => stage == VALIDATED
    case Rehearse(_, _) => stage == REHEARSED
    case StageRelease(_, _) => stage == STAGED
    case Reload(_, _) => stage == RELOADED
    case Observe(_, _) => stage == VERIFIED
    case Accept(_, _) => stage == ACCEPTED
    case Rollback(_, _) => false
  }

  predicate CameBack(c: Call, s: Script) {
    match c
    case Fetch(_) => s.fetch.Returned?
    case CheckConfiguration(_) => s.check.Returned?
    case Rehearse(_, _) => s.rehearse.Returned?
    case StageRelease(_, _) => s.stage.Returned?
    case Reload(_, _) => s.reload.Returned?
    case Observe(_, _) => s.observe.Returned?
    case Accept(_, _) => s.accept.Returned?
    case Rollback(_, _) => s.rollback.Returned?
  }

  /** The states a run reports are those its calls took it to, in order: every call's that came back, and
      the rollback's never. */
  lemma StatesAreCalls(log: seq<Call>, p: Plan, s: Script, o: PromotionOutcome)
    requires JobsResolved(p.state, p.Endpoints()) && RunCalls(log, p, s) && !Escapes(p, s) && Reports(o, p, s)
    ensures |o.states| <= |log| && forall k :: 0 <= k < |o.states| ==> Reaches(log[k], o.states[k])
    ensures forall k :: 0 <= k < |log| && !log[k].Rollback? ==> (k < |o.states| <==> CameBack(log[k], s))
  {
    CallsInOrder(log, p, s);
    forall k | 0 <= k < |log| && !log[k].Rollback?
      ensures k < |o.states| <==> CameBack(log[k], s)
      ensures k < |o.states| ==> Reaches(log[k], o.states[k])
    {
      StateOfCall(log, p, s, k);
    }
    forall k | 0 <= k < |o.states| ensures !log[k].Rollback? {
      AskedInPlace(k, log[k], p, s);
    }
  }

  lemma StateOfCall(log: seq<Call>, p: Plan, s: Script, k: nat)
    requires JobsResolved(p.state, p.Endpoints()) && RunCalls(log, p, s) && k < |log|
    requires !log[k].Rollback? && StageOf(log[k]) == k
    ensures k < Reached(p, s) <==> CameBack(log[k], s)
    ensures Reaches(log[k], STATES[k])
  {
    StageWasReached(log, p, s, log[k]);
    assert Answered(k, s) <==> CameBack(log[k], s);
    assert k < StopsAt(p, s) ==> Clears(k, p, s);
  }

  /** What the preconditions ask for: a named target that is the document's own, a revision of forty
      lower-case hexadecimal digits that something vouches for, a plan and an approval. */
  lemma RefusalMeans(p: Plan)
    ensures Refusal(p).None?
       <==> && p.namedTarget != "" && p.namedTarget == p.state.hostTarget
            && |p.revision| == 40 && (forall c :: c in p.revision ==> '0' <= c <= '9' || 'a' <= c <= 'f')
            && p.oracleRef != "" && p.authorization.planDigest != "" && p.authorization.approvalDecisionRef != ""
    ensures Refusal(p).Some? ==>
              Refusal(p).value.code
              == if p.namedTarget == "" then PromotionTargetUnnamed
                 else if p.namedTarget != p.state.hostTarget then PromotionTargetMismatch
                 else if !(|p.revision| == 40 && forall c :: c in p.revision ==> '0' <= c <= '9' || 'a' <= c <= 'f') then
                   PromotionRevisionNotExact
                 else if p.oracleRef == "" then PromotionRevisionUnproven
                 else PromotionUnauthorized
  {
    assert ExactRevision(p.revision)
      <==> |p.revision| == 40 && forall c :: c in p.revision ==> '0' <= c <= '9' || 'a' <= c <= 'f' by {
      if |p.revision| == 40 {
        assert forall i :: 0 <= i < 40 ==> p.revision[i] in p.revision;
      }
    }
  }

  /** What the host is observed for: the staged release, every surface on every family it has, every
      counter some gate asserts about, and every rendered path. */
  lemma ObservationAsksForAll(log: seq<Call>, p: Plan, s: Script, c: Call)
    requires JobsResolved(p.state, p.Endpoints()) && RunCalls(log, p, s) && c in log && c.Observe?
    ensures c.target == p.namedTarget && s.stage.Returned? && c.request.release == s.stage.value.current
    ensures |c.request.paths| == |p.tree| && forall i :: 0 <= i < |p.tree| ==> c.request.paths[i] == p.tree[i].0
    ensures forall slot :: slot in c.request.slots
              <==> exists x :: x in p.state.surfaces && x.name == slot.0 && On(x, slot.1)
    ensures forall counter :: counter in c.request.counters <==> exists g :: g in p.state.gates && counter in g.counters
  {
    CallsInOrder(log, p, s);
    EnteredMeans(log, p, s, 5);
    var i :| 0 <= i < |log| && log[i] == c;
    assert AsksAt(5, log[5], p, s);
    SlotListMeans(p.state.surfaces);
    SlotsMean(p.state.surfaces);
  }

  /** Whose read-back a receipt describes. */
  predicate Describes(p: Plan, s: Script, live: LiveState)
    requires JobsResolved(p.state, p.Endpoints()) && !Escapes(p, s)
  {
    if OutcomeOf(p, s) == RolledBack then s.rollback == Returned(live)
    else Reloaded(p, s) && s.observe == Returned(live)
  }

  /** What a receipt says of the promotion: whose it was, of what, under which authority, with which
      inputs and checks, as far as the run got. */
  lemma ReceiptIdentifies(p: Plan, s: Script)
    requires JobsResolved(p.state, p.Endpoints()) && !Escapes(p, s)
    ensures var r := ReceiptFiled(p, s);
            && r.environment == p.state.environment && r.hostTarget == p.state.hostTarget
            && r.controlPlaneRevision == p.revision && r.authorization == p.authorization && r.inventory == p.inventory
            && r.renderedDigest == Sha256(Frame(p.tree)) && r.images == p.images && r.runs == p.runs
            && r.startedAt == p.startedAt && r.finishedAt == p.finishedAt
            && (r.prometheusVersion == match p.state.prometheusVersion
                                       case Some(v) => if v == "" then "unknown" else v
                                       case None => "unknown")
            && (r.alertmanagerVersion == match p.state.alertmanagerVersion
                                         case Some(v) => if v == "" then "unknown" else v
                                         case None => "unknown")
            && r.validation == (if s.fetch.Returned? && s.check.Returned? then s.check.value else map[])
            && |r.bundles| == (if s.fetch.Returned? then |s.fetch.value| else 0)
            && forall i :: 0 <= i < |r.bundles| ==>
                 var b := s.fetch.value[i];
                 r.bundles[i] == BundleRecord(b.product, b.sourceRevision, b.rulesSha256, b.ruleCount)
  {
    assert Clears(0, p, s) <==> s.fetch.Returned?;
  }

  /** And what it says of the host is what the read-back it describes says, fact by fact; without one it
      says nothing. */
  lemma ReceiptDescribes(p: Plan, s: Script, live: LiveState)
    requires JobsResolved(p.state, p.Endpoints()) && !Escapes(p, s) && Describes(p, s, live)
    ensures var r := ReceiptFiled(p, s);
            && r.release == Some(live.release) && r.live.Some? && r.canary.Some?
            && r.live.value.targetsUp == |set i | 0 <= i < |live.targets| && live.targets[i].health == Up|
            && r.live.value.rulesLoaded == |live.rules|
            && r.live.value.rulesHealthy == |set i | 0 <= i < |live.rules| && live.rules[i].health == RuleOk|
            && r.live.value.routesVerified == |live.routes|
            && r.canary.value.fired == live.canary.fired && r.canary.value.delivered == live.canary.delivered
            && r.canary.value.recovered == live.canary.recovered && r.canary.value.receiver == live.canary.receiver
            && (r.rollback.Some? <==> live.rollback.Some?)
            && (r.rollback.Some? ==>
                  && r.rollback.value.exercised == live.rollback.value.exercised
                  && r.rollback.value.succeeded == live.rollback.value.succeeded
                  && r.rollback.value.restoredRelease == live.rollback.value.restoredRelease)
  {
    ReloadedMeans(p, s);
    UpCountMeans(live.targets);
    OkCountIs(live.rules);
  }

  /** A receipt without a read-back is one of a run that was not observed, nor rolled back to a host that
      was. */
  lemma ReceiptSilent(p: Plan, s: Script)
    requires JobsResolved(p.state, p.Endpoints()) && !Escapes(p, s)
    ensures var r := ReceiptFiled(p, s);
            && (r.live.None? <==> OutcomeOf(p, s) != RolledBack && !(Reloaded(p, s) && s.observe.Returned?))
            && (r.live.None? <==> r.release.None?) && (r.live.None? <==> r.canary.None?)
  {
    ReloadedMeans(p, s);
  }
}
