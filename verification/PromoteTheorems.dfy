/** What every run of the executor keeps, and what a sequence of runs does to the host. */
module PromoteTheorems {
  import opened Wrappers
  import opened Records
  import opened LiveTargets
  import opened LiveVerify
  import opened Receipt
  import opened Drift
  import opened Promote
  import Resolution
  import SemanticGate
  import RenderLookups

  // ------------------------------------------------------------- one run, its calls

  /** Two calls of one facility method. */
  predicate SameMethod(a: Call, b: Call) {
    match a
    case Fetch(_) => b.Fetch?
    case CheckConfiguration(_) => b.CheckConfiguration?
    case Rehearse(_, _) => b.Rehearse?
    case StageRelease(_, _) => b.StageRelease?
    case Reload(_, _) => b.Reload?
    case Observe(_, _) => b.Observe?
    case Accept(_, _) => b.Accept?
    case Rollback(_, _) => b.Rollback?
  }

  /** The stage a call belongs to; a rollback comes after all of them. */
  function StageOf(c: Call): nat {
    match c
    case Fetch(_) => 0
    case CheckConfiguration(_) => 1
    case Rehearse(_, _) => 2
    case StageRelease(_, _) => 3
    case Reload(_, _) => 4
    case Observe(_, _) => 5
    case Accept(_, _) => 6
    case Rollback(_, _) => 7
  }

  /** No stage is skipped, repeated or taken out of order: the log is the fixed order cut short, and
      a rollback can only be its last call. */
  lemma CallsInOrder(log: seq<Call>, p: Plan, s: Script)
    requires JobsResolved(p.state, p.Endpoints()) && RunCalls(log, p, s)
    ensures forall i :: 0 <= i < |log| && !log[i].Rollback? ==> StageOf(log[i]) == i
    ensures forall i :: 0 <= i < |log| && log[i].Rollback? ==> i == |log| - 1
  {
    var n := if StopsAt(p, s) < 7 then StopsAt(p, s) + 1 else 7;
    forall k | 0 <= k < n ensures StageOf(log[k]) == k && !log[k].Rollback? {
      AskedInPlace(k, log[k], p, s);
    }
  }

  lemma AskedInPlace(k: nat, c: Call, p: Plan, s: Script)
    requires AsksAt(k, c, p, s)
    ensures StageOf(c) == k && !c.Rollback?
  {
  }

  /** No facility method is called twice in one run. */
  lemma NoMethodTwice(log: seq<Call>, p: Plan, s: Script, i: nat, j: nat)
    requires JobsResolved(p.state, p.Endpoints()) && RunCalls(log, p, s)
    requires i < j < |log|
    ensures !SameMethod(log[i], log[j])
  {
    CallsInOrder(log, p, s);
  }

  /** A rollback in the log is its last call, and goes to the run's rollback target. */
  lemma RollbackIsLast(log: seq<Call>, p: Plan, s: Script, c: Call)
    requires JobsResolved(p.state, p.Endpoints()) && RunCalls(log, p, s) && c in log && c.Rollback?
    ensures RollbackTarget(p, s).Some? && c == Rollback(p.namedTarget, RollbackTarget(p, s).value)
  {
    CallsInOrder(log, p, s);
  }

  /** A rollback is called exactly when staging captured a previous release and the run was neither
      accepted nor left `promote` as an exception, and always to that release. */
  lemma RollbackExactlyWhenOwed(log: seq<Call>, p: Plan, s: Script)
    requires JobsResolved(p.state, p.Endpoints()) && RunCalls(log, p, s)
    ensures (exists c :: c in log && c.Rollback?)
       <==> !Escapes(p, s) && OutcomeOf(p, s) != Accepted && StagedBy(p, s).Some? && StagedBy(p, s).value.previous.Some?
    ensures forall c :: c in log && c.Rollback? ==>
              StagedBy(p, s).Some? && StagedBy(p, s).value.previous.Some?
              && c == Rollback(p.namedTarget, StagedBy(p, s).value.previous.value)
  {
    forall c | c in log && c.Rollback?
      ensures RollbackTarget(p, s).Some? && c == Rollback(p.namedTarget, RollbackTarget(p, s).value)
    {
      RollbackIsLast(log, p, s, c);
    }
    if RollbackTarget(p, s).Some? {
      var n := if StopsAt(p, s) < 7 then StopsAt(p, s) + 1 else 7;
      assert log[n] in log;
    }
  }

  /** A call is made only by a stage the run reached, and a rollback only after staging. */
  lemma StageWasReached(log: seq<Call>, p: Plan, s: Script, c: Call)
    requires JobsResolved(p.state, p.Endpoints()) && RunCalls(log, p, s) && c in log
    ensures if c.Rollback? then 3 < StopsAt(p, s) else StageOf(c) <= StopsAt(p, s)
  {
    CallsInOrder(log, p, s);
    if c.Rollback? {
      RollbackExactlyWhenOwed(log, p, s);
    }
  }

  /** The host is changed only behind its gates: a release is reloaded only after the toolchain and
      the rehearsal passed and a pointer was captured, and accepted only under all six conditions. */
  lemma GatesBeforeEffects(log: seq<Call>, p: Plan, s: Script, c: Call)
    requires JobsResolved(p.state, p.Endpoints()) && RunCalls(log, p, s) && c in log
    ensures c.StageRelease? || c.Reload? || c.Accept? || c.Rollback? ==>
              && s.check.Returned? && (forall name :: name in s.check.value ==> s.check.value[name].passed)
              && s.rehearse.Returned? && Rehearsed(p, s.rehearse.value)
    ensures c.Reload? ==> s.stage.Returned? && (s.stage.value.previous.Some? || p.firstPromotion)
    ensures c.Accept? ==> s.observe.Returned? && Deployed(FinalQuestion(p, s.observe.value))
  {
    StageWasReached(log, p, s, c);
    assert c.StageRelease? || c.Reload? || c.Accept? || c.Rollback? ==> Clears(1, p, s) && Clears(2, p, s);
    assert c.Reload? ==> Clears(3, p, s);
    assert c.Accept? ==> Clears(5, p, s);
  }

  /** A run is recorded as rolled back whatever the record of the rollback says: any record keeps the
      outcome, one that reports failure included. */
  lemma RollbackRecordIsNotRead(p: Plan, s: Script, record: LiveRollback)
    requires JobsResolved(p.state, p.Endpoints()) && !Escapes(p, s) && OutcomeOf(p, s) == RolledBack
    ensures var other := s.(rollback := Returned(s.rollback.value.(rollback := Some(record))));
            !Escapes(p, other) && OutcomeOf(p, other) == RolledBack && RollbackTarget(p, other) == RollbackTarget(p, s)
  {
    var other := s.(rollback := Returned(s.rollback.value.(rollback := Some(record))));
    SameStops(p, s, other, 0);
  }

  /** Nothing before the stop depends on how a rollback would go. */
  lemma {:induction false} SameStops(p: Plan, s: Script, other: Script, k: nat)
    requires JobsResolved(p.state, p.Endpoints()) && k <= 7
    requires other == s.(rollback := other.rollback)
    ensures StopsAt(p, other, k) == StopsAt(p, s, k)
    decreases 7 - k
  {
    if k < 7 {
      assert Clears(k, p, s) <==> Clears(k, p, other);
      SameStops(p, s, other, k + 1);
    }
  }

  // ------------------------------------------------------ one run, what it leaves behind

  /** Accept, then compare: the tree, the read-back and the receipt of an accepted promotion agree. */
  lemma AcceptedThenClean(p: Plan, s: Script)
    requires JobsResolved(p.state, p.Endpoints()) && !Escapes(p, s) && OutcomeOf(p, s) == Accepted
    ensures s.observe.Returned?
    ensures Agreed(Some(p.tree), Some(s.observe.value), Some(ReceiptFiled(p, s)))
  {
    assert Clears(5, p, s);
    VerifiedIsAgreed(FinalQuestion(p, s.observe.value), InputsAfter(p, s, 7), Accepted);
  }

  /** Which accepted promotions file a receipt that its own validator believes: those in which every
      job states its number of targets, or none does and nothing is federated, every loaded rule is
      healthy and there is one, and an external run is named. */
  lemma AcceptedThenBelieved(p: Plan, s: Script)
    requires JobsResolved(p.state, p.Endpoints()) && DistinctNames(p.state, p.Endpoints())
    requires !Escapes(p, s) && OutcomeOf(p, s) == Accepted
    ensures s.observe.Returned?
    ensures AcceptanceShown(ReceiptFiled(p, s), Some(DeployedRepaired))
       <==> && (AllStated(Jobs(p.state.targets))
                || (NoneStated(Jobs(p.state.targets)) && p.state.federations == []))
            && s.observe.value.rules != []
            && (forall r :: r in s.observe.value.rules ==> r.health == RuleOk)
            && p.runs.promotion.Some?
  {
    assert Clears(1, p, s) && Clears(5, p, s);
    AcceptedReceiptBelieved(InputsAfter(p, s, 7), FinalQuestion(p, s.observe.value));
  }

  /** Nothing compares the release a read-back names with the one that was staged: the receipt of an
      accepted run names whatever the read-back does, so the staged release if and only if that does. */
  lemma ReceiptNamesReadBack(p: Plan, s: Script)
    requires JobsResolved(p.state, p.Endpoints()) && !Escapes(p, s) && OutcomeOf(p, s) == Accepted
    ensures s.stage.Returned? && s.observe.Returned? && ReceiptFiled(p, s).release == Some(s.observe.value.release)
    ensures ReceiptFiled(p, s).release.value.current == s.stage.value.current
       <==> s.observe.value.release.current == s.stage.value.current
  {
    assert Clears(3, p, s) && Clears(5, p, s);
  }

  /** Behind both gates the render inside `promote` fails exactly on syslog files of more or fewer than
      one ownership and on a lag budget that is no duration, and then nothing was asked of the facility. */
  lemma RendersBehindGates(p: Plan, i: Resolution.Inventory)
    requires SemanticGate.PubliclySound(p.state) && Resolution.Sound(p.state, i) && RenderLookups.OneOwner(p.state)
    requires Resolution.DatasourcesDeclared(p.state) ==> p.resolution == Resolution.Resolved(p.state, i)
    ensures p.Rendered() <==> RenderLookups.OneOwnership(p.state.syslogFiles) && RenderLookups.BudgetsRead(p.state.lagBudgets)
  {
    RenderLookups.ResolutionIsTotal(p.state, i);
  }

  // --------------------------------------------------------------- runs and the host

  /** One promotion as the host lives through it. `reloadTook`: a reload that raised had already
      activated the release. `left`: what the host runs after a rollback that raised, that nobody
      observed, or whose record does not vouch for it. */
  datatype Attempt = Attempt(plan: Plan, script: Script, reloadTook: bool, left: Option<string>)

  /** The facility keeps its word on this host: staging captures the release the host is running. */
  predicate Faithful(running: Option<string>, a: Attempt) {
    a.script.stage.Returned? ==> a.script.stage.value.previous == running
  }

  /** The release was activated on the host. */
  predicate Activated(a: Attempt)
    requires Starts(a.plan)
  {
    StopsAt(a.plan, a.script) >= 4 && (a.script.reload.Returned? || a.reloadTook)
  }

  /** The record vouches for the rollback: it succeeded, and it names the release it was asked for. */
  predicate Restores(record: LiveRollback, pointer: Option<string>) {
    record.succeeded && record.restoredRelease == pointer
  }

  predicate Restored(s: Script, pointer: Option<string>) {
    RollbackObserved(s) && Restores(s.rollback.value.rollback.value, pointer)
  }

  /** The run was accepted. */
  predicate IsAccepted(a: Attempt) {
    Starts(a.plan) && !Escapes(a.plan, a.script) && OutcomeOf(a.plan, a.script) == Accepted
  }

  /** What the host runs afterwards. An attempt that is refused or does not render asks it nothing. */
  function HostAfter(running: Option<string>, a: Attempt): Option<string> {
    if !Starts(a.plan) then running
    else
      var pointer := RollbackTarget(a.plan, a.script);
      if pointer.Some? then (if Restored(a.script, pointer) then pointer else a.left)
      else if Activated(a) then Some(a.script.stage.value.current)
      else running
  }

  /** The last accepted release, if this attempt was accepted its own. */
  function AcceptedAfter(last: Option<string>, a: Attempt): Option<string> {
    if IsAccepted(a) then Some(a.script.stage.value.current) else last
  }

  /** The cases in which the executor cannot vouch for the host: a first promotion that failed after
      it was activated; a rollback that raised, was not observed, reports failure or another release
      than the captured one; and a run whose final `verify` raised, unless it had reloaded the very
      release it replaced. */
  predicate Exposed(a: Attempt) {
    && Starts(a.plan) && !IsAccepted(a)
    && if Escapes(a.plan, a.script) then a.script.stage.value.previous != Some(a.script.stage.value.current)
       else if RollbackTarget(a.plan, a.script).Some? then !Restored(a.script, RollbackTarget(a.plan, a.script))
       else Activated(a)
  }

  /** One attempt on a host that runs the last accepted release leaves it so, whatever an unwitnessed
      rollback may leave behind, exactly when the attempt is not exposed. */
  lemma AttemptKeepsHost(running: Option<string>, a: Attempt)
    requires Faithful(running, a)
    ensures (forall left :: HostAfter(running, a.(left := left)) == AcceptedAfter(running, a)) <==> !Exposed(a)
  {
    var other := if running == None then Some("") else None;
    assert a.(left := other).plan == a.plan && a.(left := other).script == a.script;
    if Exposed(a) {
      assert HostAfter(running, a.(left := other)) != AcceptedAfter(running, a);
    } else {
      forall left ensures HostAfter(running, a.(left := left)) == AcceptedAfter(running, a) {
        if Starts(a.plan) && StopsAt(a.plan, a.script) > 4 {
          assert Clears(4, a.plan, a.script);
        }
      }
    }
  }

  function HostThrough(running: Option<string>, runs: seq<Attempt>): Option<string>
    decreases runs
  {
    if runs == [] then running else HostThrough(HostAfter(running, runs[0]), runs[1..])
  }

  function AcceptedThrough(last: Option<string>, runs: seq<Attempt>): Option<string>
    decreases runs
  {
    if runs == [] then last else AcceptedThrough(AcceptedAfter(last, runs[0]), runs[1..])
  }

  /** The facility keeps its word at every run, on the host the runs before left. */
  predicate FaithfulThrough(running: Option<string>, runs: seq<Attempt>)
    decreases runs
  {
    runs == [] || (Faithful(running, runs[0]) && FaithfulThrough(HostAfter(running, runs[0]), runs[1..]))
  }

  /** Over any sequence of promotions the host runs the last accepted release after each of them, as
      long as none was exposed. */
  lemma {:induction false} HostRunsLastAccepted(running: Option<string>, runs: seq<Attempt>)
    requires forall a :: a in runs ==> !Exposed(a)
    requires FaithfulThrough(running, runs)
    ensures HostThrough(running, runs) == AcceptedThrough(running, runs)
    decreases runs
  {
    if runs != [] {
      var a := runs[0];
      AttemptKeepsHost(running, a);
      assert a.(left := a.left) == a;
      assert HostAfter(running, a) == AcceptedAfter(running, a);
      HostRunsLastAccepted(HostAfter(running, a), runs[1..]);
    }
  }

  /** A tidy report over a broken host: the run is recorded as rolled back, while the record says that
      the rollback failed, or that it restored another release, and the host runs something else. */
  lemma TidyReportBrokenHost(running: Option<string>, a: Attempt, record: LiveRollback, left: Option<string>)
    requires Starts(a.plan) && Faithful(running, a)
    requires !Escapes(a.plan, a.script) && OutcomeOf(a.plan, a.script) == RolledBack
    requires !Restores(record, running) && left != running
    ensures var b := a.(script := a.script.(
                          rollback := Returned(a.script.rollback.value.(rollback := Some(record)))),
                        left := left);
            && !Escapes(b.plan, b.script) && OutcomeOf(b.plan, b.script) == RolledBack
            && HostAfter(running, b) == left && HostAfter(running, b) != AcceptedAfter(running, b)
  {
    RollbackRecordIsNotRead(a.plan, a.script, record);
  }
}
