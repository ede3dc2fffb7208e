/** `promote.py`: the executor, and the facility it drives. */
module Promote {
  import opened Wrappers
  import opened Records
  import opened Dicts
  import opened LiveTargets
  import opened LiveIntegrity
  import opened LiveProbes
  import opened LiveVerify
  import opened Receipt
  import Resolution
  import RenderLookups

  datatype Stage = FETCHED | VALIDATED | REHEARSED | STAGED | RELOADED | VERIFIED | ACCEPTED

  const STATES: seq<Stage> := [FETCHED, VALIDATED, REHEARSED, STAGED, RELOADED, VERIFIED, ACCEPTED]

  /** `_ROLLBACK_FROM`: the index of `STAGED`. */
  const ROLLBACK_FROM: nat := 3

  datatype FetchedBundle = FetchedBundle(
    product: string, sourceRevision: string, rulesSha256: string, ruleCount: nat)
  datatype StagedRelease = StagedRelease(current: string, previous: Option<string>)
  datatype ObservationRequest = ObservationRequest(
    release: string, slots: seq<Slot>, counters: seq<string>, paths: seq<string>)

  /** A facility method returns, or it raises an `Exception`. What is no `Exception`, an interrupt or an
      exit, is caught nowhere and not modelled. */
  datatype Reply<T> = Returned(value: T) | Raised(error: string)

  datatype Call =
    | Fetch(revision: string)
    | CheckConfiguration(tree: Tree)
    | Rehearse(tree: Tree, request: ObservationRequest)
    | StageRelease(tree: Tree, target: string)
    | Reload(target: string, release: string)
    | Observe(target: string, request: ObservationRequest)
    | Accept(target: string, release: string)
    | Rollback(target: string, release: string)

  /** Everything a facility may answer, one reply for each method. No run calls a method twice, so
      ranging over all scripts is ranging over all facilities. */
  datatype Script = Script(
    fetch: Reply<seq<FetchedBundle>>, check: Reply<map<string, CheckResult>>,
    rehearse: Reply<LiveState>, stage: Reply<StagedRelease>, reload: Reply<bool>,
    observe: Reply<LiveState>, accept: Reply<bool>, rollback: Reply<LiveState>)

  /** `PromotionFacility`, with a ghost log of what it was asked. */
  class Facility {
    const script: Script
    ghost var log: seq<Call>

    constructor (script: Script)
      ensures this.script == script && log == []
    {
      this.script := script;
      log := [];
    }

    method DoFetch(revision: string) returns (r: Reply<seq<FetchedBundle>>)
      modifies this
      ensures r == script.fetch && log == old(log) + [Fetch(revision)]
    {
      log := log + [Fetch(revision)];
      r := script.fetch;
    }

    method DoCheck(tree: Tree) returns (r: Reply<map<string, CheckResult>>)
      modifies this
      ensures r == script.check && log == old(log) + [CheckConfiguration(tree)]
    {
      log := log + [CheckConfiguration(tree)];
      r := script.check;
    }

    method DoRehearse(tree: Tree, request: ObservationRequest) returns (r: Reply<LiveState>)
      modifies this
      ensures r == script.rehearse && log == old(log) + [Rehearse(tree, request)]
    {
      log := log + [Rehearse(tree, request)];
      r := script.rehearse;
    }

    method DoStage(tree: Tree, target: string) returns (r: Reply<StagedRelease>)
      modifies this
      ensures r == script.stage && log == old(log) + [StageRelease(tree, target)]
    {
      log := log + [StageRelease(tree, target)];
      r := script.stage;
    }

    method DoReload(target: string, release: string) returns (r: Reply<bool>)
      modifies this
      ensures r == script.reload && log == old(log) + [Reload(target, release)]
    {
      log := log + [Reload(target, release)];
      r := script.reload;
    }

    method DoObserve(target: string, request: ObservationRequest) returns (r: Reply<LiveState>)
      modifies this
      ensures r == script.observe && log == old(log) + [Observe(target, request)]
    {
      log := log + [Observe(target, request)];
      r := script.observe;
    }

    method DoAccept(target: string, release: string) returns (r: Reply<bool>)
      modifies this
      ensures r == script.accept && log == old(log) + [Accept(target, release)]
    {
      log := log + [Accept(target, release)];
      r := script.accept;
    }

    method DoRollback(target: string, release: string) returns (r: Reply<LiveState>)
      modifies this
      ensures r == script.rollback && log == old(log) + [Rollback(target, release)]
    {
      log := log + [Rollback(target, release)];
      r := script.rollback;
    }
  }

  /** The arguments of `promote`. `tree` is the text of the rendered files, wherever the render succeeds:
      of the render itself only what can fail in it is modelled. */
  datatype Plan = Plan(
    state: DesiredState, resolution: Resolution.Bindings, tree: Tree, inventory: InventoryIdentity,
    namedTarget: string, revision: string, oracleRef: string, authorization: Authorization,
    images: seq<ImageRecord>, baseline: Option<LiveState>, previousDigest: Option<Digest>,
    firstPromotion: bool, runs: Runs, startedAt: string, finishedAt: string)
  {
    function Endpoints(): Endpoints {
      RenderLookups.EndpointCounts(resolution)
    }

    /** The render, which stands outside every handler, succeeds; then every job has its endpoints. */
    predicate Rendered(): (rendered: bool)
      ensures rendered ==> JobsResolved(state, Endpoints())
    {
      RenderLookups.Renderable(state, resolution)
    }
  }

  /** `receipt` and everything after it is absent when a precondition refused. */
  datatype PromotionOutcome = PromotionOutcome(
    outcome: Outcome, states: seq<Stage>, findings: seq<Finding>, receipt: Option<Receipt>,
    verification: Option<Verification>, staged: Option<StagedRelease>, rolledBackTo: Option<string>)

  // -------------------------------------------------------------- preconditions

  predicate ExactRevision(revision: string) {
    |revision| == 40
    && forall i :: 0 <= i < 40 ==> '0' <= revision[i] <= '9' || 'a' <= revision[i] <= 'f'
  }

  /** `_preconditions`: the first refusal that applies. */
  function Refusal(p: Plan): Option<Finding> {
    if p.namedTarget == "" then Some(Finding(PromotionTargetUnnamed, "named_target"))
    else if p.namedTarget != p.state.hostTarget then Some(Finding(PromotionTargetMismatch, p.namedTarget))
    else if !ExactRevision(p.revision) then Some(Finding(PromotionRevisionNotExact, p.revision))
    else if p.oracleRef == "" then Some(Finding(PromotionRevisionUnproven, p.revision))
    else if p.authorization.planDigest == "" || p.authorization.approvalDecisionRef == "" then
      Some(Finding(PromotionUnauthorized, "authorization"))
    else None
  }

  // -------------------------------------------------- what each stage asks and needs

  function Paths(tree: Tree): seq<string> {
    seq(|tree|, i requires 0 <= i < |tree| => tree[i].0)
  }

  /** The question the rehearsal's read-back is put. */
  function RehearsalQuestion(p: Plan, live: LiveState): Question {
    Question(p.state, p.Endpoints(), p.tree, live, None, None, true)
  }

  function FinalQuestion(p: Plan, live: LiveState): Question {
    Question(p.state, p.Endpoints(), p.tree, live, p.baseline, p.previousDigest, p.firstPromotion)
  }

  const REHEARSAL_CONDITIONS: set<nat> := {1, 2, 4, 5}

  predicate Rehearsed(p: Plan, live: LiveState)
    requires JobsResolved(p.state, p.Endpoints())
  {
    forall n :: n in REHEARSAL_CONDITIONS ==> Holds(n, RehearsalQuestion(p, live))
  }

  /** The call of stage `k` comes back. */
  predicate Answered(k: nat, s: Script) {
    match k
    case 0 => s.fetch.Returned?
    case 1 => s.check.Returned?
    case 2 => s.rehearse.Returned?
    case 3 => s.stage.Returned?
    case 4 => s.reload.Returned?
    case 5 => s.observe.Returned?
    case _ => s.accept.Returned?
  }

  /** What must hold of the answer before the next stage is entered. */
  predicate GateHolds(k: nat, p: Plan, s: Script)
    requires JobsResolved(p.state, p.Endpoints()) && Answered(k, s)
  {
    match k
    case 1 => forall name :: name in s.check.value ==> s.check.value[name].passed
    case 2 => Rehearsed(p, s.rehearse.value)
    case 3 => s.stage.value.previous.Some? || p.firstPromotion
    case 5 => Deployed(FinalQuestion(p, s.observe.value))
    case _ => true
  }

  predicate Clears(k: nat, p: Plan, s: Script)
    requires JobsResolved(p.state, p.Endpoints())
  {
    Answered(k, s) && GateHolds(k, p, s)
  }

  /** The first stage, from `k` on, that does not clear; seven if all do. */
  function StopsAt(p: Plan, s: Script, k: nat := 0): (n: nat)
    requires JobsResolved(p.state, p.Endpoints()) && k <= 7
    ensures k <= n <= 7
    ensures forall i :: k <= i < n ==> Clears(i, p, s)
    ensures n < 7 ==> !Clears(n, p, s)
    decreases 7 - k
  {
    if k < 7 && Clears(k, p, s) then StopsAt(p, s, k + 1) else k
  }

  /** How many stages were reached: a stage counts once its call has come back. */
  function Reached(p: Plan, s: Script): (n: nat)
    requires JobsResolved(p.state, p.Endpoints())
    ensures n <= 7
  {
    var n := StopsAt(p, s);
    if n < 7 && Answered(n, s) then n + 1 else n
  }

  function StagedBy(p: Plan, s: Script): Option<StagedRelease>
    requires JobsResolved(p.state, p.Endpoints())
  {
    if Reached(p, s) > ROLLBACK_FROM && s.stage.Returned? then Some(s.stage.value) else None
  }

  /** The run ends in no outcome: the final `verify` stands outside every handler, and it raises on two
      stamps it cannot subtract. */
  predicate Escapes(p: Plan, s: Script)
    requires JobsResolved(p.state, p.Endpoints())
  {
    StopsAt(p, s) == 5 && s.observe.Returned? && Raises(FinalQuestion(p, s.observe.value))
  }

  /** The pointer a run rolls back to, if it rolls back at all. */
  function RollbackTarget(p: Plan, s: Script): Option<string>
    requires JobsResolved(p.state, p.Endpoints())
  {
    if StopsAt(p, s) < 7 && !Escapes(p, s) && StagedBy(p, s).Some? then StagedBy(p, s).value.previous else None
  }

  predicate RollbackObserved(s: Script) {
    s.rollback.Returned? && s.rollback.value.rollback.Some?
  }

  function OutcomeOf(p: Plan, s: Script): Outcome
    requires JobsResolved(p.state, p.Endpoints()) && !Escapes(p, s)
  {
    if StopsAt(p, s) == 7 then Accepted
    else if RollbackTarget(p, s).Some? && RollbackObserved(s) then RolledBack
    else Failed
  }

  /** The read-back a receipt describes: the restored host's, or else the promoted one's if it was
      observed at all. */
  function Described(p: Plan, s: Script): Option<LiveState>
    requires JobsResolved(p.state, p.Endpoints()) && !Escapes(p, s)
  {
    if OutcomeOf(p, s) == RolledBack then Some(s.rollback.value)
    else if Reached(p, s) > 5 && s.observe.Returned? then Some(s.observe.value)
    else None
  }

  function Bundles(bundles: seq<FetchedBundle>): seq<BundleRecord> {
    seq(|bundles|, i requires 0 <= i < |bundles| =>
      BundleRecord(bundles[i].product, bundles[i].sourceRevision, bundles[i].rulesSha256, bundles[i].ruleCount))
  }

  /** `inputs()`: whatever is known once `n` stages have been reached. */
  function InputsAfter(p: Plan, s: Script, n: nat): Inputs {
    Inputs(p.state, p.inventory, p.tree, p.revision, p.authorization, p.images,
           if n > 0 && s.fetch.Returned? then Bundles(s.fetch.value) else [],
           if n > 1 && s.check.Returned? then s.check.value else map[],
           p.runs, p.startedAt, p.finishedAt)
  }

  function ReceiptFiled(p: Plan, s: Script): Receipt
    requires JobsResolved(p.state, p.Endpoints()) && !Escapes(p, s)
  {
    ReceiptOf(OutcomeOf(p, s), InputsAfter(p, s, Reached(p, s)), Described(p, s))
  }

  // ------------------------------------------------------------------ the call log

  ghost predicate IsRequest(p: Plan, r: ObservationRequest, release: string) {
    && r.release == release && r.paths == Paths(p.tree)
    && r.slots == SlotList(p.state.surfaces)
    && (forall c :: c in r.counters <==> c in CounterSet(p.state.gates))
    && Distinct(r.counters)
  }

  /** `c` is what stage `k` asks of the facility. */
  ghost predicate AsksAt(k: nat, c: Call, p: Plan, s: Script) {
    match k
    case 0 => c == Fetch(p.revision)
    case 1 => c == CheckConfiguration(p.tree)
    case 2 => c.Rehearse? && c.tree == p.tree && IsRequest(p, c.request, "rehearsal")
    case 3 => c == StageRelease(p.tree, p.namedTarget)
    case 4 => s.stage.Returned? && c == Reload(p.namedTarget, s.stage.value.current)
    case 5 => s.stage.Returned? && c.Observe? && c.target == p.namedTarget
              && IsRequest(p, c.request, s.stage.value.current)
    case 6 => s.stage.Returned? && c == Accept(p.namedTarget, s.stage.value.current)
    case _ => false
  }

  /** The stages in their fixed order, `n` of them, then at most the one rollback. */
  ghost predicate CallsOf(log: seq<Call>, n: nat, p: Plan, s: Script, rollback: Option<string>) {
    && |log| == n + (if rollback.Some? then 1 else 0)
    && (forall k :: 0 <= k < n ==> AsksAt(k, log[k], p, s))
    && (rollback.Some? ==> log[n] == Rollback(p.namedTarget, rollback.value))
  }

  /** Every call a run makes: one for each stage it entered, and the rollback. */
  ghost predicate RunCalls(log: seq<Call>, p: Plan, s: Script)
    requires JobsResolved(p.state, p.Endpoints())
  {
    var n := StopsAt(p, s);
    CallsOf(log, if n < 7 then n + 1 else 7, p, s, RollbackTarget(p, s))
  }

  // ------------------------------------------------------------------ the executor

  /** `_next_state`: the stage a raise is charged to. */
  function NextState(reached: seq<Stage>): Stage {
    if |reached| < 7 then STATES[|reached|] else STATES[6]
  }

  function StageName(s: Stage): string {
    match s
    case FETCHED => "FETCHED"
    case VALIDATED => "VALIDATED"
    case REHEARSED => "REHEARSED"
    case STAGED => "STAGED"
    case RELOADED => "RELOADED"
    case VERIFIED => "VERIFIED"
    case ACCEPTED => "ACCEPTED"
  }

  lemma {:induction false} StopsExactly(p: Plan, s: Script, k: nat, from: nat := 0)
    requires JobsResolved(p.state, p.Endpoints()) && from <= k <= 7
    requires forall i :: from <= i < k ==> Clears(i, p, s)
    requires k < 7 ==> !Clears(k, p, s)
    ensures StopsAt(p, s, from) == k
    decreases k - from
  {
    if from < k {
      StopsExactly(p, s, k, from + 1);
    }
  }

  /** How a run that stopped after `reached` reports itself. `armed`: the stop was handed the
      facility, so that it could roll back. */
  predicate StoppedAs(o: PromotionOutcome, reached: seq<Stage>, staged: Option<StagedRelease>, x: Inputs,
                      live: Option<LiveState>, verification: Option<Verification>, s: Script, armed: bool)
  {
    var rollsBack := armed && RollsBack(reached, staged);
    && o.states == reached && o.staged == staged && o.verification == verification
    && o.outcome == (if rollsBack && RollbackObserved(s) then RolledBack else Failed)
    && o.rolledBackTo == (if o.outcome == RolledBack then staged.value.previous else None)
    && o.receipt == Some(ReceiptOf(o.outcome, x, if o.outcome == RolledBack then Some(s.rollback.value) else live))
    && o.findings != []
  }

  /** Something was staged over a release that was captured. */
  predicate RollsBack(reached: seq<Stage>, staged: Option<StagedRelease>) {
    |reached| > ROLLBACK_FROM && staged.Some? && staged.value.previous.Some?
  }

  /** `_stop`: end the run, rolling back if and only if something was staged over a captured pointer. */
  method Stop(reached: seq<Stage>, staged: Option<StagedRelease>, findings: seq<Finding>, x: Inputs,
              live: Option<LiveState>, verification: Option<Verification>,
              facility: Facility?, target: string, ghost s: Script)
    returns (o: PromotionOutcome)
    requires findings != [] && (facility != null ==> facility.script == s)
    modifies if facility == null then {} else {facility}
    ensures StoppedAs(o, reached, staged, x, live, verification, s, facility != null)
    ensures findings <= o.findings
    ensures facility != null ==>
              facility.log == old(facility.log) + if RollsBack(reached, staged) then [Rollback(target, staged.value.previous.value)] else []
  {
    var rolledBackTo: Option<string> := None;
    var extra := findings;
    var outcome := Failed;
    var observed := live;
    if |reached| > ROLLBACK_FROM && staged.Some? && facility != null {
      if staged.value.previous.None? {
        extra := extra + [Finding(RollbackImpossible, target)];
      } else {
        var restored := facility.DoRollback(target, staged.value.previous.value);
        if restored.Raised? {
          extra := extra + [Finding(RollbackRaised, target)];
        } else if restored.value.rollback.None? {
          extra := extra + [Finding(RollbackUnobserved, target)];
        } else {
          rolledBackTo := staged.value.previous;
          outcome := RolledBack;
          observed := Some(restored.value);
        }
      }
    }
    var document := BuildReceipt(outcome, x, observed);
    o := PromotionOutcome(outcome, reached, extra, Some(document.value), verification, staged, rolledBackTo);
  }

  /** What `promote` reports, apart from the findings. */
  predicate Reports(o: PromotionOutcome, p: Plan, s: Script)
    requires JobsResolved(p.state, p.Endpoints()) && !Escapes(p, s)
  {
    && o.outcome == OutcomeOf(p, s)
    && o.states == STATES[..Reached(p, s)]
    && o.receipt == Some(ReceiptFiled(p, s))
    && o.staged == StagedBy(p, s)
    && o.rolledBackTo == (if o.outcome == RolledBack then RollbackTarget(p, s) else None)
    && (o.verification.Some? <==> Reached(p, s) > 5)
    && (o.verification.Some? ==>
          s.observe.Returned? && Answers(o.verification.value, FinalQuestion(p, s.observe.value)))
  }

  /** A stop at stage `StopsAt`, told what was known by then, reports as the run demands. */
  lemma StopReports(o: PromotionOutcome, x: Inputs, live: Option<LiveState>,
                    verification: Option<Verification>, p: Plan, s: Script, armed: bool)
    requires JobsResolved(p.state, p.Endpoints()) && StopsAt(p, s) < 7 && !Escapes(p, s)
    requires StoppedAs(o, STATES[..Reached(p, s)], StagedBy(p, s), x, live, verification, s, armed)
    requires armed || Reached(p, s) <= ROLLBACK_FROM
    requires x == InputsAfter(p, s, Reached(p, s))
    requires live == if Reached(p, s) > 5 && s.observe.Returned? then Some(s.observe.value) else None
    requires verification.Some? <==> Reached(p, s) > 5
    requires verification.Some? ==>
               s.observe.Returned? && Answers(verification.value, FinalQuestion(p, s.observe.value))
    ensures Reports(o, p, s) && o.outcome != Accepted
    ensures RollbackTarget(p, s) == if RollsBack(STATES[..Reached(p, s)], StagedBy(p, s))
                                    then StagedBy(p, s).value.previous else None
  {
  }

  /** A call added at stage `k` keeps the log in the fixed order. */
  lemma CallsGrow(log: seq<Call>, k: nat, c: Call, p: Plan, s: Script)
    requires CallsOf(log, k, p, s, None) && AsksAt(k, c, p, s)
    ensures CallsOf(log + [c], k + 1, p, s, None)
  {
  }

  /** The log of a stop: the stages entered, then the rollback if there is one. */
  lemma CallsEnd(log: seq<Call>, p: Plan, s: Script)
    requires JobsResolved(p.state, p.Endpoints()) && StopsAt(p, s) < 7
    requires CallsOf(log, StopsAt(p, s) + 1, p, s, None)
    ensures var pointer := RollbackTarget(p, s);
            RunCalls(log + (if pointer.Some? then [Rollback(p.namedTarget, pointer.value)] else []), p, s)
  {
  }

  method ShapeRequest(p: Plan, release: string) returns (r: ObservationRequest)
    ensures IsRequest(p, r, release)
  {
    var slots := DeclaredProbeSlots(p.state);
    var counters := IntegrityCounters(p.state);
    r := ObservationRequest(release, slots, counters, Paths(p.tree));
  }

  /** The findings a rehearsal is held to. */
  method RehearsalFindings(v: Verification, ghost q: Question) returns (findings: seq<Finding>)
    requires Answerable(q) && Answers(v, q)
    ensures findings == [] <==> forall n :: n in REHEARSAL_CONDITIONS ==> Holds(n, q)
  {
    findings := [];
    for n := 1 to 7
      invariant findings == [] <==> forall k :: 1 <= k < n && k in REHEARSAL_CONDITIONS ==> Holds(k, q)
    {
      var condition := v.conditions[n - 1];
      assert condition.number == n && (condition.findings == [] <==> Holds((n - 1) + 1, q));
      if condition.number in REHEARSAL_CONDITIONS {
        findings := findings + condition.findings;
      }
    }
  }

  function AllFindings(conditions: seq<ConditionResult>): seq<Finding> {
    if conditions == [] then []
    else AllFindings(conditions[..|conditions| - 1]) + conditions[|conditions| - 1].findings
  }

  lemma {:induction false} AllFindingsEmpty(conditions: seq<ConditionResult>)
    ensures AllFindings(conditions) == [] <==> forall c :: c in conditions ==> c.findings == []
  {
    if conditions != [] {
      var n := |conditions| - 1;
      AllFindingsEmpty(conditions[..n]);
      assert conditions == conditions[..n] + [conditions[n]];
    }
  }

  /** `", ".join(names)`. */
  function Commas(names: seq<string>): string {
    if names == [] then ""
    else if |names| == 1 then names[0]
    else names[0] + ", " + Commas(names[1..])
  }

  function Gathered(p: Plan, bundles: seq<FetchedBundle>, validation: map<string, CheckResult>): Inputs {
    Inputs(p.state, p.inventory, p.tree, p.revision, p.authorization, p.images, Bundles(bundles), validation,
           p.runs, p.startedAt, p.finishedAt)
  }

  /** A raise is charged to the first stage not reached. */
  function RaisedAt(reached: seq<Stage>): seq<Finding> {
    [Finding(PromotionStageRaised, StageName(NextState(reached)))]
  }

  /** What a stopped run leaves behind. */
  ghost predicate StoppedRun(o: PromotionOutcome, calls: seq<Call>, p: Plan, s: Script)
    requires JobsResolved(p.state, p.Endpoints())
  {
    !Escapes(p, s) && Reports(o, p, s) && RunCalls(calls, p, s) && o.outcome != Accepted && o.findings != []
  }

  /** The value a reply carries, if the call came back. */
  function Got<T>(r: Reply<T>): Option<T> {
    if r.Returned? then Some(r.value) else None
  }

  /** The stages before `n` cleared, and the log holds their calls. */
  ghost predicate At(n: nat, calls: seq<Call>, p: Plan, s: Script)
    requires JobsResolved(p.state, p.Endpoints())
  {
    CallsOf(calls, n, p, s, None) && forall k :: 0 <= k < n ==> Clears(k, p, s)
  }

  /** Stop at stage `k` because its call raised. Nothing it would have returned is known. */
  method StopRaised(facility: Facility, p: Plan, k: nat, staged: Option<StagedRelease>, x: Inputs,
                    live: Option<LiveState>, verification: Option<Verification>,
                    ghost before: seq<Call>, ghost c: Call,
                    ghost base: seq<Call>)
    returns (o: PromotionOutcome, ghost calls: seq<Call>)
    requires JobsResolved(p.state, p.Endpoints()) && k < 7
    requires At(k, before, p, facility.script) && AsksAt(k, c, p, facility.script)
    requires facility.log == base + (before + [c])
    requires !Answered(k, facility.script)
    requires staged == (if k > 3 then Got(facility.script.stage) else None)
    requires x == InputsAfter(p, facility.script, k)
    requires live == if k > 5 then Got(facility.script.observe) else None
    requires verification.Some? <==> k > 5
    requires k > 5 ==> live.Some? && Answers(verification.value, FinalQuestion(p, live.value))
    modifies facility
    ensures StoppedRun(o, calls, p, facility.script)
    ensures facility.log == base + calls
  {
    var reached := STATES[..k];
    ghost var s := facility.script;
    StopsExactly(p, s, k);
    assert Reached(p, s) == k && StagedBy(p, s) == staged;
    CallsGrow(before, k, c, p, s);
    CallsEnd(before + [c], p, s);
    o := Stop(reached, staged, RaisedAt(reached), x, live, verification, facility, p.namedTarget, s);
    StopReports(o, x, live, verification, p, s, true);
    calls := before + [c]
             + if RollbackTarget(p, s).Some? then [Rollback(p.namedTarget, RollbackTarget(p, s).value)] else [];
  }

  /** Stop at stage `k` because what its call returned does not pass. */
  method StopRefused(facility: Facility, p: Plan, k: nat, findings: seq<Finding>,
                     staged: Option<StagedRelease>, x: Inputs, live: Option<LiveState>,
                     verification: Option<Verification>, armed: bool, ghost calls: seq<Call>,
                     ghost base: seq<Call>)
    returns (o: PromotionOutcome, ghost all: seq<Call>)
    requires JobsResolved(p.state, p.Endpoints()) && k < 7 && findings != []
    requires CallsOf(calls, k + 1, p, facility.script, None) && facility.log == base + calls
    requires forall i :: 0 <= i < k ==> Clears(i, p, facility.script)
    requires Answered(k, facility.script) && !GateHolds(k, p, facility.script)
    requires armed || k < 3
    requires staged == (if k >= 3 then Got(facility.script.stage) else None)
    requires x == InputsAfter(p, facility.script, k + 1)
    requires live == if k >= 5 then Got(facility.script.observe) else None
    requires verification.Some? <==> k >= 5
    requires k >= 5 ==> live.Some? && Answers(verification.value, FinalQuestion(p, live.value))
    requires k == 5 ==> !Raises(FinalQuestion(p, live.value))
    modifies facility
    ensures StoppedRun(o, all, p, facility.script)
    ensures facility.log == base + all
  {
    ghost var s := facility.script;
    StopsExactly(p, s, k);
    assert Reached(p, s) == k + 1 && StagedBy(p, s) == staged;
    o := Stop(STATES[..k + 1], staged, findings, x, live, verification,
              if armed then facility else null, p.namedTarget, s);
    StopReports(o, x, live, verification, p, s, armed);
    CallsEnd(calls, p, s);
    all := calls + if RollbackTarget(p, s).Some? then [Rollback(p.namedTarget, RollbackTarget(p, s).value)] else [];
  }

  method Fetching(facility: Facility, p: Plan, ghost base: seq<Call>)
    returns (stopped: Option<PromotionOutcome>, bundles: seq<FetchedBundle>, ghost calls: seq<Call>)
    requires JobsResolved(p.state, p.Endpoints())
    requires facility.log == base
    modifies facility
    ensures facility.log == base + calls
    ensures stopped.Some? ==> StoppedRun(stopped.value, calls, p, facility.script)
    ensures stopped.None? ==> facility.script.fetch == Returned(bundles) && At(1, calls, p, facility.script)
  {
    ghost var c := Fetch(p.revision);
    var fetched := facility.DoFetch(p.revision);
    assert [] + [c] == [c];
    if fetched.Raised? {
      var o;
      o, calls := StopRaised(facility, p, 0, None, Gathered(p, [], map[]), None, None, [], c, base);
      return Some(o), [], calls;
    }
    stopped, bundles, calls := None, fetched.value, [c];
  }

  /** The evaluator toolchain refuses before anything is staged. */
  method Validating(facility: Facility, p: Plan, bundles: seq<FetchedBundle>, ghost before: seq<Call>, ghost base: seq<Call>)
    returns (stopped: Option<PromotionOutcome>, validation: map<string, CheckResult>, ghost calls: seq<Call>)
    requires JobsResolved(p.state, p.Endpoints())
    requires facility.script.fetch == Returned(bundles) && At(1, before, p, facility.script)
    requires facility.log == base + before
    modifies facility
    ensures facility.log == base + calls
    ensures stopped.Some? ==> StoppedRun(stopped.value, calls, p, facility.script)
    ensures stopped.None? ==> facility.script.check == Returned(validation) && At(2, calls, p, facility.script)
  {
    ghost var c := CheckConfiguration(p.tree);
    var o;
    var checked := facility.DoCheck(p.tree);
    if checked.Raised? {
      o, calls := StopRaised(facility, p, 1, None, Gathered(p, bundles, map[]), None, None, before, c, base);
      return Some(o), map[], calls;
    }
    CallsGrow(before, 1, c, p, facility.script);
    stopped, validation, calls := None, checked.value, before + [c];
    var failed := FailedChecks(validation);
    if failed != [] {
      assert failed[0] in failed;
      o, calls := StopRefused(facility, p, 1, [Finding(PromotionValidationFailed, Commas(failed))], None,
                              Gathered(p, bundles, validation), None, None, false, calls, base);
      return Some(o), validation, calls;
    }
    assert Clears(1, p, facility.script);
  }

  /** The whole release on a disposable host, held to conditions 1, 2, 4 and 5. */
  method Rehearsing(facility: Facility, p: Plan, x: Inputs, ghost before: seq<Call>, ghost base: seq<Call>)
    returns (stopped: Option<PromotionOutcome>, ghost calls: seq<Call>)
    requires JobsResolved(p.state, p.Endpoints()) && At(2, before, p, facility.script)
    requires x == InputsAfter(p, facility.script, 2)
    requires facility.log == base + before
    modifies facility
    ensures facility.log == base + calls
    ensures stopped.Some? ==> StoppedRun(stopped.value, calls, p, facility.script)
    ensures stopped.None? ==> At(3, calls, p, facility.script)
  {
    var request := ShapeRequest(p, "rehearsal");
    ghost var c := Rehearse(p.tree, request);
    var o;
    var rehearsal := facility.DoRehearse(p.tree, request);
    if rehearsal.Raised? {
      o, calls := StopRaised(facility, p, 2, None, x, None, None, before, c, base);
      return Some(o), calls;
    }
    CallsGrow(before, 2, c, p, facility.script);
    stopped, calls := None, before + [c];
    var rehearsed := Verify(RehearsalQuestion(p, rehearsal.value));
    var findings := RehearsalFindings(rehearsed.value, RehearsalQuestion(p, rehearsal.value));
    if findings != [] {
      o, calls := StopRefused(facility, p, 2, findings, None, x, None, None, false, calls, base);
      return Some(o), calls;
    }
    assert Clears(2, p, facility.script);
  }

  /** The pointer is captured here, and a missing one stops every promotion but the first. */
  method Staging(facility: Facility, p: Plan, x: Inputs, ghost before: seq<Call>, ghost base: seq<Call>)
    returns (stopped: Option<PromotionOutcome>, staged: Option<StagedRelease>, ghost calls: seq<Call>)
    requires JobsResolved(p.state, p.Endpoints()) && At(3, before, p, facility.script)
    requires x == InputsAfter(p, facility.script, 3)
    requires facility.log == base + before
    modifies facility
    ensures facility.log == base + calls
    ensures stopped.Some? ==> StoppedRun(stopped.value, calls, p, facility.script)
    ensures stopped.None? ==>
              staged.Some? && facility.script.stage == Returned(staged.value) && At(4, calls, p, facility.script)
  {
    ghost var c := StageRelease(p.tree, p.namedTarget);
    var o;
    var staging := facility.DoStage(p.tree, p.namedTarget);
    if staging.Raised? {
      o, calls := StopRaised(facility, p, 3, None, x, None, None, before, c, base);
      return Some(o), None, calls;
    }
    CallsGrow(before, 3, c, p, facility.script);
    stopped, staged, calls := None, Some(staging.value), before + [c];
    if staging.value.previous.None? && !p.firstPromotion {
      o, calls := StopRefused(facility, p, 3, [Finding(PromotionNoRollbackTarget, p.namedTarget)], staged,
                              x, None, None, true, calls, base);
      return Some(o), staged, calls;
    }
    assert Clears(3, p, facility.script);
  }

  method Reloading(facility: Facility, p: Plan, staged: StagedRelease, x: Inputs, ghost before: seq<Call>, ghost base: seq<Call>)
    returns (stopped: Option<PromotionOutcome>, ghost calls: seq<Call>)
    requires JobsResolved(p.state, p.Endpoints()) && At(4, before, p, facility.script)
    requires facility.script.stage == Returned(staged) && x == InputsAfter(p, facility.script, 4)
    requires facility.log == base + before
    modifies facility
    ensures facility.log == base + calls
    ensures stopped.Some? ==> StoppedRun(stopped.value, calls, p, facility.script)
    ensures stopped.None? ==> At(5, calls, p, facility.script)
  {
    ghost var c := Reload(p.namedTarget, staged.current);
    var reloaded := facility.DoReload(p.namedTarget, staged.current);
    if reloaded.Raised? {
      var o;
      o, calls := StopRaised(facility, p, 4, Some(staged), x, None, None, before, c, base);
      return Some(o), calls;
    }
    CallsGrow(before, 4, c, p, facility.script);
    stopped, calls := None, before + [c];
    assert Clears(4, p, facility.script);
  }

  /** The reading half of `VERIFIED`. */
  method Observing(facility: Facility, p: Plan, staged: StagedRelease, x: Inputs, ghost before: seq<Call>, ghost base: seq<Call>)
    returns (stopped: Option<PromotionOutcome>, live: Option<LiveState>, ghost calls: seq<Call>)
    requires JobsResolved(p.state, p.Endpoints()) && At(5, before, p, facility.script)
    requires facility.script.stage == Returned(staged) && x == InputsAfter(p, facility.script, 5)
    requires facility.log == base + before
    modifies facility
    ensures facility.log == base + calls
    ensures stopped.Some? ==> StoppedRun(stopped.value, calls, p, facility.script)
    ensures stopped.None? ==>
              && live.Some? && facility.script.observe == Returned(live.value)
              && |calls| == 6 && CallsOf(calls, 6, p, facility.script, None)
  {
    var request := ShapeRequest(p, staged.current);
    ghost var c := Observe(p.namedTarget, request);
    var observed := facility.DoObserve(p.namedTarget, request);
    if observed.Raised? {
      var o;
      o, calls := StopRaised(facility, p, 5, Some(staged), x, None, None, before, c, base);
      return Some(o), None, calls;
    }
    CallsGrow(before, 5, c, p, facility.script);
    stopped, live, calls := None, Some(observed.value), before + [c];
  }

  /** The comparing half: anything but the full verdict stops the run, and a `verify` that raises leaves
      `promote` with the release reloaded, no rollback called and nothing filed. */
  method Judging(facility: Facility, p: Plan, staged: StagedRelease, x: Inputs, live: LiveState,
                 ghost before: seq<Call>, ghost base: seq<Call>)
    returns (stopped: Result<Option<PromotionOutcome>, StampError>, verification: Option<Verification>, ghost calls: seq<Call>)
    requires JobsResolved(p.state, p.Endpoints())
    requires CallsOf(before, 6, p, facility.script, None)
    requires forall k :: 0 <= k < 5 ==> Clears(k, p, facility.script)
    requires facility.script.stage == Returned(staged) && facility.script.observe == Returned(live)
    requires x == InputsAfter(p, facility.script, 6)
    requires facility.log == base + before
    modifies facility
    ensures facility.log == base + calls
    ensures stopped.Err? <==> Raises(FinalQuestion(p, live))
    ensures stopped.Err? ==> calls == before && Escapes(p, facility.script) && RunCalls(calls, p, facility.script)
    ensures stopped.Ok? && stopped.value.Some? ==> StoppedRun(stopped.value.value, calls, p, facility.script)
    ensures stopped.Ok? && stopped.value.None? ==>
              verification.Some? && Answers(verification.value, FinalQuestion(p, live)) && At(6, calls, p, facility.script)
  {
    var verified := Verify(FinalQuestion(p, live));
    calls := before;
    if verified.Err? {
      RaisingIsNotDeployed(FinalQuestion(p, live));
      assert !Clears(5, p, facility.script);
      StopsExactly(p, facility.script, 5);
      return Err(verified.error), None, calls;
    }
    stopped, verification := Ok(None), Some(verified.value);
    if verified.value.Verdict() != DeployedRepaired {
      AllFindingsEmpty(verified.value.conditions);
      var o;
      o, calls := StopRefused(facility, p, 5, AllFindings(verified.value.conditions), Some(staged), x,
                              Some(live), verification, true, before, base);
      return Ok(Some(o)), verification, calls;
    }
    assert Clears(5, p, facility.script);
  }

  /** `FETCHED`, `VALIDATED`, `REHEARSED`: nothing on the host has changed yet. */
  method BeforeStaging(facility: Facility, p: Plan, ghost base: seq<Call>)
    returns (stopped: Option<PromotionOutcome>, x: Inputs, ghost calls: seq<Call>)
    requires JobsResolved(p.state, p.Endpoints())
    requires facility.log == base
    modifies facility
    ensures facility.log == base + calls
    ensures stopped.Some? ==> StoppedRun(stopped.value, calls, p, facility.script)
    ensures stopped.None? ==> At(3, calls, p, facility.script) && x == InputsAfter(p, facility.script, 3)
  {
    var bundles, validation;
    stopped, bundles, calls := Fetching(facility, p, base);
    x := Gathered(p, bundles, map[]);
    if stopped.Some? {
      return;
    }
    stopped, validation, calls := Validating(facility, p, bundles, calls, base);
    x := Gathered(p, bundles, validation);
    if stopped.Some? {
      return;
    }
    stopped, calls := Rehearsing(facility, p, x, calls, base);
  }

  /** `STAGED` to `ACCEPTED`. */
  method FromStaging(facility: Facility, p: Plan, x: Inputs, ghost before: seq<Call>, ghost base: seq<Call>)
    returns (r: Result<PromotionOutcome, StampError>, ghost calls: seq<Call>)
    requires JobsResolved(p.state, p.Endpoints()) && At(3, before, p, facility.script)
    requires x == InputsAfter(p, facility.script, 3)
    requires facility.log == base + before
    modifies facility
    ensures facility.log == base + calls && RunCalls(calls, p, facility.script)
    ensures r.Err? <==> Escapes(p, facility.script)
    ensures r.Ok? ==> Reports(r.value, p, facility.script)
    ensures r.Ok? ==> (r.value.outcome == Accepted <==> r.value.findings == [])
  {
    var stopped, staged, live;
    stopped, staged, calls := Staging(facility, p, x, before, base);
    if stopped.Some? {
      return Ok(stopped.value), calls;
    }
    stopped, calls := Reloading(facility, p, staged.value, x, calls, base);
    if stopped.Some? {
      return Ok(stopped.value), calls;
    }
    stopped, live, calls := Observing(facility, p, staged.value, x, calls, base);
    if stopped.Some? {
      return Ok(stopped.value), calls;
    }
    var judged, verification;
    judged, verification, calls := Judging(facility, p, staged.value, x, live.value, calls, base);
    if judged.Err? {
      return Err(judged.error), calls;
    }
    if judged.value.Some? {
      return Ok(judged.value.value), calls;
    }
    var o;
    o, calls := Accepting(facility, p, staged.value, x, live.value, verification.value, calls, base);
    return Ok(o), calls;
  }

  /** What leaves `promote` as an exception: the render, or the final `verify`. */
  datatype PromoteError = RenderRaised(cause: RenderLookups.RenderError) | VerifyRaised(stamps: StampError)

  /** The run gets as far as its first stage. */
  predicate Starts(p: Plan) {
    Refusal(p).None? && p.Rendered()
  }

  /** `promote`. Whatever the facility answers or raises, the outcome is the run's, the calls are the
      stages entered in their fixed order and at most one rollback behind them, and a receipt is
      absent exactly when a precondition refused; except that the run escapes with an exception exactly
      when the render fails, before anything is asked of the facility, or when the final `verify` does. */
  method Promote(facility: Facility, p: Plan) returns (r: Result<PromotionOutcome, PromoteError>, ghost calls: seq<Call>)
    modifies facility
    ensures facility.log == old(facility.log) + calls
    ensures r.Err? <==> Refusal(p).None? && (!p.Rendered() || Escapes(p, facility.script))
    ensures r.Err? ==> if p.Rendered() then r.error == VerifyRaised(CannotSubtract) else r.error.RenderRaised?
    ensures Starts(p) ==> RunCalls(calls, p, facility.script)
    ensures !Starts(p) ==> calls == []
    ensures r.Ok? ==> (r.value.receipt.None? <==> Refusal(p).Some?)
    ensures Refusal(p).Some? ==> r == Ok(PromotionOutcome(Failed, [], [Refusal(p).value], None, None, None, None))
    ensures Starts(p) && r.Ok? ==> Reports(r.value, p, facility.script)
    ensures r.Ok? ==> (r.value.outcome == Accepted <==> r.value.findings == [])
  {
    var refusal := Refusal(p);
    if refusal.Some? {
      return Ok(PromotionOutcome(Failed, [], [refusal.value], None, None, None, None)), [];
    }
    var rendering := RenderLookups.RenderControlPlane(p.state, p.resolution);
    if rendering.Err? {
      return Err(RenderRaised(rendering.error)), [];
    }
    var stopped, x;
    ghost var base := facility.log;
    stopped, x, calls := BeforeStaging(facility, p, base);
    if stopped.Some? {
      return Ok(stopped.value), calls;
    }
    var o;
    o, calls := FromStaging(facility, p, x, calls, base);
    if o.Err? {
      return Err(VerifyRaised(o.error)), calls;
    }
    return Ok(o.value), calls;
  }

  /** The last host effect, which can fail and roll back like any other. */
  method Accepting(facility: Facility, p: Plan, staged: StagedRelease, x: Inputs, live: LiveState,
                   verification: Verification, ghost before: seq<Call>, ghost base: seq<Call>)
    returns (o: PromotionOutcome, ghost calls: seq<Call>)
    requires JobsResolved(p.state, p.Endpoints()) && At(6, before, p, facility.script)
    requires facility.script.stage == Returned(staged) && facility.script.observe == Returned(live)
    requires x == InputsAfter(p, facility.script, 6)
    requires Answers(verification, FinalQuestion(p, live))
    requires facility.log == base + before
    modifies facility
    ensures facility.log == base + calls
    ensures !Escapes(p, facility.script)
    ensures Reports(o, p, facility.script) && RunCalls(calls, p, facility.script)
    ensures o.outcome == Accepted <==> o.findings == []
  {
    ghost var c := Accept(p.namedTarget, staged.current);
    var accepted := facility.DoAccept(p.namedTarget, staged.current);
    if accepted.Raised? {
      o, calls := StopRaised(facility, p, 6, Some(staged), x, Some(live), Some(verification), before, c, base);
      return o, calls;
    }
    CallsGrow(before, 6, c, p, facility.script);
    calls := before + [c];
    assert Clears(6, p, facility.script);
    StopsExactly(p, facility.script, 7);
    var document := BuildReceipt(Accepted, x, Some(live));
    o := PromotionOutcome(Accepted, STATES, [], Some(document.value), Some(verification), Some(staged), None);
  }
}
