/** What a finished walk means, for every host and every budget. */
module CensusTheorems {
  import opened Strings
  import opened CensusRecords
  import opened CensusWalk

  // -------------------------------------------------------- a walk is a chain of steps

  function Replay(h: Host, b: Budget, f: Family, tasks: seq<Task>, s: State): State {
    if tasks == [] then s else Replay(h, b, f, tasks[1..], Stepped(h, b, f, tasks[0], s))
  }

  lemma {:induction false} ReplayConcat(h: Host, b: Budget, f: Family, front: seq<Task>, back: seq<Task>, s: State)
    ensures Replay(h, b, f, front + back, s) == Replay(h, b, f, back, Replay(h, b, f, front, s))
  {
    if front == [] {
      assert front + back == back;
    } else {
      assert (front + back)[1..] == front[1..] + back;
      ReplayConcat(h, b, f, front[1..], back, Stepped(h, b, f, front[0], s));
    }
  }

  lemma {:induction false} OneIsReplay(h: Host, b: Budget, f: Family, t: Task, s: State) returns (script: seq<Task>)
    ensures RunOne(h, b, f, t, s) == Replay(h, b, f, script, s)
    decreases Rank(t) + 1, 0, 0
  {
    var children := Children(t, AnswerTo(h, b, t, s));
    ChildrenBelow(t, AnswerTo(h, b, t, s));
    var rest := AllIsReplay(h, b, f, children, Stepped(h, b, f, t, s));
    script := [t] + rest;
    assert script[1..] == rest;
  }

  lemma {:induction false} AllIsReplay(h: Host, b: Budget, f: Family, tasks: seq<Task>, s: State)
    returns (script: seq<Task>)
    ensures RunAll(h, b, f, tasks, s) == Replay(h, b, f, script, s)
    decreases Depth(tasks), 1, |tasks|
  {
    if tasks == [] || s.halted {
      script := [];
    } else {
      assert Depth(tasks[1..]) <= Depth(tasks);
      var one := OneIsReplay(h, b, f, tasks[0], s);
      var rest := AllIsReplay(h, b, f, tasks[1..], RunOne(h, b, f, tasks[0], s));
      ReplayConcat(h, b, f, one, rest, s);
      script := one + rest;
    }
  }

  lemma WalkIsReplay(h: Host, b: Budget, f: Family) returns (script: seq<Task>)
    ensures Walk(h, b, f) == Replay(h, b, f, script, FRESH)
  {
    var first := AllIsReplay(h, b, f, First(f), FRESH);
    var second := AllIsReplay(h, b, f, SecondTasks(f, Listing(h, b, f)), Listing(h, b, f));
    ReplayConcat(h, b, f, first, second, FRESH);
    script := first + second;
  }

  // ------------------------------------------------------- the ledger tells the story

  /** What one event puts into the ledger's errors. */
  function ErrorsOf(e: Event): seq<ErrorClass> {
    match e.answer
    case Broken(code) => [Observed(code)]
    case Given(text) => NotedBy(e.task, text)
    case Noted => if e.task.Note? then [e.task.error] else []
    case _ => []
  }

  function ConsumersFrom(f: Family, e: Event): seq<Consumer> {
    if e.answer.Given? then Found(f, e.task, e.answer.text) else []
  }

  /** The event left something unseen for want of budget. */
  predicate Cut(e: Event) {
    match e.answer
    case Listed(_, cut) => cut
    case NoFilesLeft => true
    case NoBytesLeft => true
    case _ => false
  }

  /** The event put a read or a gated program to the host. */
  predicate Spent(e: Event) {
    (e.task.ReadFile? || (e.task.RunProgram? && e.task.gated)) && e.answer != NoFilesLeft
  }

  /** The length of a file's text that went on to be parsed. */
  function PassedOn(e: Event): nat {
    if e.task.ReadFile? && e.answer.Given? then e.answer.text.length else 0
  }

  function AllErrors(trace: seq<Event>): seq<ErrorClass> {
    if trace == [] then [] else AllErrors(trace[..|trace| - 1]) + ErrorsOf(trace[|trace| - 1])
  }

  function AllConsumers(f: Family, trace: seq<Event>): seq<Consumer> {
    if trace == [] then [] else AllConsumers(f, trace[..|trace| - 1]) + ConsumersFrom(f, trace[|trace| - 1])
  }

  function SpentCount(trace: seq<Event>): nat {
    if trace == [] then 0 else SpentCount(trace[..|trace| - 1]) + if Spent(trace[|trace| - 1]) then 1 else 0
  }

  function PassedOnTotal(trace: seq<Event>): nat {
    if trace == [] then 0 else PassedOnTotal(trace[..|trace| - 1]) + PassedOn(trace[|trace| - 1])
  }

  /** The ledger is exactly the sum of the events. */
  ghost predicate Accounted(f: Family, s: State) {
    && s.errors == AllErrors(s.trace)
    && s.consumers == AllConsumers(f, s.trace)
    && s.entries == |s.consumers|
    && (s.exhausted <==> exists e :: e in s.trace && Cut(e))
    && (s.halted ==> s.exhausted)
  }

  /** No more was spent than the budget allows, before exhaustion and after it. */
  predicate WithinBudget(b: Budget, s: State) {
    && SpentCount(s.trace) <= s.files && SpentCount(s.trace) <= b.maxFiles
    && PassedOnTotal(s.trace) <= s.readBytes && PassedOnTotal(s.trace) <= b.maxBytes
  }

  lemma StepTrace(h: Host, b: Budget, f: Family, t: Task, s: State)
    ensures Stepped(h, b, f, t, s).trace == s.trace + [Event(t, AnswerTo(h, b, t, s))]
    ensures Stepped(h, b, f, t, s).trace[..|s.trace|] == s.trace
  {
  }

  /** What putting a task to the host does to the ledger, before its text is taken in. */
  ghost predicate Charged(b: Budget, t: Task, s: State, after: State, a: Answer) {
    && after.errors == s.errors + (if a.Given? then [] else ErrorsOf(Event(t, a)))
    && after.consumers == s.consumers && after.entries == s.entries && after.trace == s.trace
    && (after.exhausted <==> s.exhausted || Cut(Event(t, a)))
    && (after.halted ==> s.halted || Cut(Event(t, a)))
    && s.files <= after.files && s.readBytes <= after.readBytes
    && (Spent(Event(t, a)) ==> after.files == s.files + 1 <= b.maxFiles)
    && (PassedOn(Event(t, a)) > 0 ==> after.readBytes == s.readBytes + PassedOn(Event(t, a)) <= b.maxBytes)
  }

  lemma ListCharged(h: Host, b: Budget, t: Task, s: State)
    requires t.ListDir?
    ensures Charged(b, t, s, Contact(h, b, t, s).0, Contact(h, b, t, s).1)
  {
  }

  lemma ReadCharged(h: Host, b: Budget, t: Task, s: State)
    requires t.ReadFile?
    ensures Charged(b, t, s, Contact(h, b, t, s).0, Contact(h, b, t, s).1)
  {
  }

  lemma RunCharged(h: Host, b: Budget, t: Task, s: State)
    requires t.RunProgram?
    ensures Charged(b, t, s, Contact(h, b, t, s).0, Contact(h, b, t, s).1)
  {
  }

  lemma ContactCharged(h: Host, b: Budget, t: Task, s: State)
    ensures Charged(b, t, s, Contact(h, b, t, s).0, Contact(h, b, t, s).1)
  {
    match t
    case ListDir(_, _) => ListCharged(h, b, t, s);
    case ReadFile(_, _, _) => ReadCharged(h, b, t, s);
    case RunProgram(_, _, _) => RunCharged(h, b, t, s);
    case Note(_) =>
  }

  /** What one step adds to the ledger is what its event says. */
  lemma StepAdds(h: Host, b: Budget, f: Family, t: Task, s: State)
    ensures var e, after := Event(t, AnswerTo(h, b, t, s)), Stepped(h, b, f, t, s);
            && after.errors == s.errors + ErrorsOf(e)
            && after.consumers == s.consumers + ConsumersFrom(f, e)
            && after.entries == s.entries + |ConsumersFrom(f, e)|
            && (after.exhausted <==> s.exhausted || Cut(e))
            && (after.halted ==> s.halted || Cut(e))
  {
    ContactCharged(h, b, t, s);
  }

  lemma StepAccounted(h: Host, b: Budget, f: Family, t: Task, s: State)
    requires Accounted(f, s)
    ensures Accounted(f, Stepped(h, b, f, t, s))
  {
    StepTrace(h, b, f, t, s);
    StepAdds(h, b, f, t, s);
    var e, after := Event(t, AnswerTo(h, b, t, s)), Stepped(h, b, f, t, s);
    SumsGrow(f, s.trace, e);
    assert forall x :: x in after.trace <==> x in s.trace || x == e;
  }

  lemma SumsGrow(f: Family, trace: seq<Event>, e: Event)
    ensures AllErrors(trace + [e]) == AllErrors(trace) + ErrorsOf(e)
    ensures AllConsumers(f, trace + [e]) == AllConsumers(f, trace) + ConsumersFrom(f, e)
    ensures SpentCount(trace + [e]) == SpentCount(trace) + if Spent(e) then 1 else 0
    ensures PassedOnTotal(trace + [e]) == PassedOnTotal(trace) + PassedOn(e)
  {
    assert (trace + [e])[..|trace|] == trace;
  }

  lemma StepWithinBudget(h: Host, b: Budget, f: Family, t: Task, s: State)
    requires WithinBudget(b, s)
    ensures WithinBudget(b, Stepped(h, b, f, t, s))
  {
    StepTrace(h, b, f, t, s);
    ContactCharged(h, b, t, s);
    SumsGrow(f, s.trace, Event(t, AnswerTo(h, b, t, s)));
  }

  lemma {:induction false} ReplayAccounted(h: Host, b: Budget, f: Family, tasks: seq<Task>, s: State)
    requires Accounted(f, s) && WithinBudget(b, s)
    ensures Accounted(f, Replay(h, b, f, tasks, s)) && WithinBudget(b, Replay(h, b, f, tasks, s))
  {
    if tasks != [] {
      StepAccounted(h, b, f, tasks[0], s);
      StepWithinBudget(h, b, f, tasks[0], s);
      ReplayAccounted(h, b, f, tasks[1..], Stepped(h, b, f, tasks[0], s));
    }
  }

  /** Every walk's ledger is the sum of its events, and no walk overspends: at most `maxFiles` reads and
      gated programs are put to the host, and the file text passed on to parsing never exceeds
      `maxBytes`. */
  lemma WalkAccounted(h: Host, b: Budget, f: Family)
    ensures Accounted(f, Walk(h, b, f))
    ensures SpentCount(Walk(h, b, f).trace) <= b.maxFiles
    ensures PassedOnTotal(Walk(h, b, f).trace) <= b.maxBytes
  {
    var script := WalkIsReplay(h, b, f);
    ReplayAccounted(h, b, f, script, FRESH);
  }

  // ------------------------------------------------------------------- what ABSENT means

  /** An event that leaves no doubt: a full listing, an allowed absence, a text that shows nothing
      connection-shaped and nothing it cannot see through. */
  predicate Clean(e: Event) {
    match e.answer
    case Listed(_, cut) => !cut
    case NotThere => true
    case Given(text) =>
      Parsed(e.task, text) ==>
        && Silent(text)
        && e.task.role != Runner && e.task.role != Script
        && (e.task.role == Table && e.task.ReadFile? ==> text.dynamicLines == 0)
    case _ => false
  }

  lemma CleanMeans(f: Family, e: Event)
    requires Possible(e)
    ensures Clean(e) <==> ErrorsOf(e) == [] && ConsumersFrom(f, e) == [] && !Cut(e)
  {
    if e.answer.Given? {
      SilentTexts(f, OwnerOf(e.task, e.answer.text), e.answer.text);
      if e.task.ReadFile? && e.task.role == Table {
        assert |Times(e.answer.text.dynamicLines, Dynamic)| == e.answer.text.dynamicLines;
      }
    }
  }

  lemma {:induction false} NothingSummed(f: Family, trace: seq<Event>)
    requires forall e :: e in trace ==> Possible(e)
    ensures (AllErrors(trace) == [] && AllConsumers(f, trace) == [] && !(exists e :: e in trace && Cut(e)))
       <==> forall e :: e in trace ==> Clean(e)
  {
    if trace != [] {
      var before, last := trace[..|trace| - 1], trace[|trace| - 1];
      NothingSummed(f, before);
      CleanMeans(f, last);
      assert forall e :: e in trace <==> e in before || e == last;
    }
  }

  /** The answers a task can have: in particular only a directory or a file that may be missing is
      allowed not to be there. */
  predicate Possible(e: Event) {
    match e.task
    case Note(_) => e.answer == Noted
    case ListDir(_, _) => e.answer.Listed? || e.answer == NotThere || e.answer.Broken?
    case ReadFile(_, optional, _) =>
      e.answer.Given? || (optional && e.answer == NotThere) || e.answer.Broken? || e.answer == NoFilesLeft || e.answer == NoBytesLeft
    case RunProgram(_, _, _) => e.answer.Given? || e.answer.Broken? || e.answer == NoFilesLeft
  }

  lemma {:induction false} AnswersArePossible(h: Host, b: Budget, f: Family, tasks: seq<Task>, s: State)
    requires forall e :: e in s.trace ==> Possible(e)
    ensures forall e :: e in Replay(h, b, f, tasks, s).trace ==> Possible(e)
  {
    if tasks != [] {
      StepTrace(h, b, f, tasks[0], s);
      assert Possible(Event(tasks[0], AnswerTo(h, b, tasks[0], s)));
      AnswersArePossible(h, b, f, tasks[1..], Stepped(h, b, f, tasks[0], s));
    }
  }

  lemma WalkIsPossible(h: Host, b: Budget, f: Family)
    ensures forall e :: e in Walk(h, b, f).trace ==> Possible(e)
  {
    var script := WalkIsReplay(h, b, f);
    AnswersArePossible(h, b, f, script, FRESH);
  }

  /** Census soundness, both ways: a family is ABSENT exactly when every step of its walk was clean. A
      denial, a timeout, an answer nobody understands, a discovered path gone missing, a budget cut, a
      program named by a variable or one connection-shaped line in a text that is parsed is enough to
      prevent it. */
  lemma AbsentExactly(h: Host, b: Budget, f: Family)
    ensures OutcomeOf(f, Walk(h, b, f)).scan.Verdict() == ABSENT <==> forall e :: e in Walk(h, b, f).trace ==> Clean(e)
  {
    WalkAccounted(h, b, f);
    WalkIsPossible(h, b, f);
    NothingSummed(f, Walk(h, b, f).trace);
  }

  lemma {:induction false} ErrorsShow(trace: seq<Event>, e: Event)
    requires e in trace && ErrorsOf(e) != []
    ensures AllErrors(trace) != []
  {
    if trace[|trace| - 1] != e {
      ErrorsShow(trace[..|trace| - 1], e);
    }
  }

  /** One failure anywhere, or one cut, makes the family UNKNOWN whatever it found. */
  lemma AnyFailureIsUnknown(h: Host, b: Budget, f: Family, e: Event)
    requires e in Walk(h, b, f).trace && (ErrorsOf(e) != [] || Cut(e))
    ensures OutcomeOf(f, Walk(h, b, f)).scan.Verdict() == UNKNOWN
  {
    WalkAccounted(h, b, f);
    if ErrorsOf(e) != [] {
      ErrorsShow(Walk(h, b, f).trace, e);
    }
  }

  // ---------------------------------------------------------------- looked everywhere

  predicate Done(t: Task, trace: seq<Event>) {
    exists e :: e in trace && e.task == t
  }

  /** From some point on, every task an event spawned was done. */
  ghost predicate Followed(trace: seq<Event>, from: nat) {
    forall i, c :: from <= i < |trace| && c in Children(trace[i].task, trace[i].answer) ==> Done(c, trace)
  }

  lemma {:induction false} ReplayExtends(h: Host, b: Budget, f: Family, tasks: seq<Task>, s: State)
    ensures s.trace <= Replay(h, b, f, tasks, s).trace
  {
    if tasks != [] {
      StepTrace(h, b, f, tasks[0], s);
      ReplayExtends(h, b, f, tasks[1..], Stepped(h, b, f, tasks[0], s));
    }
  }

  lemma DoneStays(t: Task, before: seq<Event>, after: seq<Event>)
    requires Done(t, before) && before <= after
    ensures Done(t, after)
  {
    var e :| e in before && e.task == t;
    assert e in after;
  }

  lemma {:induction false} OneFollows(h: Host, b: Budget, f: Family, t: Task, s: State)
    requires !RunOne(h, b, f, t, s).halted
    ensures s.trace <= RunOne(h, b, f, t, s).trace
    ensures Done(t, RunOne(h, b, f, t, s).trace)
    ensures Followed(RunOne(h, b, f, t, s).trace, |s.trace|)
    decreases Rank(t) + 1, 0, 0
  {
    var answer := AnswerTo(h, b, t, s);
    var next, done := Stepped(h, b, f, t, s), RunOne(h, b, f, t, s);
    StepTrace(h, b, f, t, s);
    ChildrenBelow(t, answer);
    AllFollow(h, b, f, Children(t, answer), next);
    assert done.trace[|s.trace|] == next.trace[|s.trace|] == Event(t, answer);
    assert done.trace[|s.trace|] in done.trace;
  }

  lemma {:induction false} AllFollow(h: Host, b: Budget, f: Family, tasks: seq<Task>, s: State)
    requires !RunAll(h, b, f, tasks, s).halted
    ensures s.trace <= RunAll(h, b, f, tasks, s).trace
    ensures forall t :: t in tasks ==> Done(t, RunAll(h, b, f, tasks, s).trace)
    ensures Followed(RunAll(h, b, f, tasks, s).trace, |s.trace|)
    decreases Depth(tasks), 1, |tasks|
  {
    if tasks != [] {
      assert Depth(tasks[1..]) <= Depth(tasks);
      var next, done := RunOne(h, b, f, tasks[0], s), RunAll(h, b, f, tasks, s);
      assert done == RunAll(h, b, f, tasks[1..], next);
      OneFollows(h, b, f, tasks[0], s);
      AllFollow(h, b, f, tasks[1..], next);
      DoneStays(tasks[0], next.trace, done.trace);
      forall i, c | |s.trace| <= i < |done.trace| && c in Children(done.trace[i].task, done.trace[i].answer)
        ensures Done(c, done.trace)
      {
        if i < |next.trace| {
          assert next.trace[i] == done.trace[i];
          DoneStays(c, next.trace, done.trace);
        }
      }
    }
  }

  /** Looked everywhere: unless the budget cut it, a walk put every first task, every task of the
      crontab families' second pass, and every task any answer spawned. */
  lemma LookedEverywhere(h: Host, b: Budget, f: Family)
    requires !Walk(h, b, f).exhausted
    ensures forall t :: t in First(f) ==> Done(t, Walk(h, b, f).trace)
    ensures forall t :: t in SecondTasks(f, Listing(h, b, f)) ==> Done(t, Walk(h, b, f).trace)
    ensures Followed(Walk(h, b, f).trace, 0)
  {
    WalkAccounted(h, b, f);
    var listed, done := Listing(h, b, f), Walk(h, b, f);
    assert !listed.halted;
    AllFollow(h, b, f, First(f), FRESH);
    AllFollow(h, b, f, SecondTasks(f, listed), listed);
    forall t | t in First(f) ensures Done(t, done.trace) {
      DoneStays(t, listed.trace, done.trace);
    }
    forall i, c | 0 <= i < |done.trace| && c in Children(done.trace[i].task, done.trace[i].answer)
      ensures Done(c, done.trace)
    {
      if i < |listed.trace| {
        assert listed.trace[i] == done.trace[i];
        DoneStays(c, listed.trace, done.trace);
      }
    }
  }

  // ------------------------------------------------------------------ budget refinement

  /** At least as much of everything. */
  predicate Larger(big: Budget, small: Budget) {
    small.maxFiles <= big.maxFiles && small.maxBytes <= big.maxBytes && small.maxEntries <= big.maxEntries
  }

  lemma {:induction false} ExhaustionStays(h: Host, b: Budget, f: Family, tasks: seq<Task>, s: State)
    ensures s.exhausted ==> RunAll(h, b, f, tasks, s).exhausted
  {
    var script := AllIsReplay(h, b, f, tasks, s);
    ReplayStaysExhausted(h, b, f, script, s);
  }

  lemma {:induction false} ReplayStaysExhausted(h: Host, b: Budget, f: Family, tasks: seq<Task>, s: State)
    ensures s.exhausted ==> Replay(h, b, f, tasks, s).exhausted
  {
    if tasks != [] {
      ReplayStaysExhausted(h, b, f, tasks[1..], Stepped(h, b, f, tasks[0], s));
    }
  }

  lemma StepRefines(h: Host, small: Budget, big: Budget, f: Family, t: Task, s: State)
    requires Larger(big, small) && !Stepped(h, small, f, t, s).exhausted
    ensures Stepped(h, big, f, t, s) == Stepped(h, small, f, t, s)
    ensures AnswerTo(h, big, t, s) == AnswerTo(h, small, t, s)
  {
    ContactRefines(h, small, big, t, s);
  }

  lemma ContactRefines(h: Host, small: Budget, big: Budget, t: Task, s: State)
    requires Larger(big, small) && !Contact(h, small, t, s).0.exhausted
    ensures Contact(h, big, t, s) == Contact(h, small, t, s)
  {
  }

  lemma {:induction false} OneRefines(h: Host, small: Budget, big: Budget, f: Family, t: Task, s: State)
    requires Larger(big, small) && !RunOne(h, small, f, t, s).exhausted
    ensures RunOne(h, big, f, t, s) == RunOne(h, small, f, t, s)
    decreases Rank(t) + 1, 0, 0
  {
    var answer := AnswerTo(h, small, t, s);
    var next := Stepped(h, small, f, t, s);
    ChildrenBelow(t, answer);
    ExhaustionStays(h, small, f, Children(t, answer), next);
    StepRefines(h, small, big, f, t, s);
    AllRefine(h, small, big, f, Children(t, answer), next);
  }

  lemma {:induction false} AllRefine(h: Host, small: Budget, big: Budget, f: Family, tasks: seq<Task>, s: State)
    requires Larger(big, small) && !RunAll(h, small, f, tasks, s).exhausted
    ensures RunAll(h, big, f, tasks, s) == RunAll(h, small, f, tasks, s)
    decreases Depth(tasks), 1, |tasks|
  {
    if tasks != [] && !s.halted {
      assert Depth(tasks[1..]) <= Depth(tasks);
      var next := RunOne(h, small, f, tasks[0], s);
      ExhaustionStays(h, small, f, tasks[1..], next);
      OneRefines(h, small, big, f, tasks[0], s);
      AllRefine(h, small, big, f, tasks[1..], next);
    }
  }

  /** Budget refinement: a walk its budget did not cut is the same walk, step for step and record for
      record, under every larger budget. */
  lemma LargerBudgetSameWalk(h: Host, small: Budget, big: Budget, f: Family)
    requires Larger(big, small) && !Walk(h, small, f).exhausted
    ensures Walk(h, big, f) == Walk(h, small, f)
  {
    var listed := Listing(h, small, f);
    ExhaustionStays(h, small, f, SecondTasks(f, listed), listed);
    AllRefine(h, small, big, f, First(f), FRESH);
    AllRefine(h, small, big, f, SecondTasks(f, listed), listed);
  }

  // --------------------------------------------------------------- two consequences

  /** An ABSENT service family: every unit directory was listed whole or is not there, every unit in it
      was read, and neither a unit nor an environment file it names showed anything connection-shaped. */
  lemma AbsentServices(h: Host, b: Budget, dir: string)
    requires OutcomeOf(SystemdService, Walk(h, b, SystemdService)).scan.Verdict() == ABSENT && dir in UNIT_DIRS
    ensures exists e :: e in Walk(h, b, SystemdService).trace && e.task == ListDir(dir, UnitDir(".service"))
              && DirectorySilent(Walk(h, b, SystemdService).trace, e)
  {
    var done := Walk(h, b, SystemdService);
    AbsentExactly(h, b, SystemdService);
    WalkIsPossible(h, b, SystemdService);
    LookedEverywhere(h, b, SystemdService);
    var i :| 0 <= i < |UNIT_DIRS| && UNIT_DIRS[i] == dir;
    assert Lists(UNIT_DIRS, UnitDir(".service"))[i] in First(SystemdService);
    var e :| e in done.trace && e.task == ListDir(dir, UnitDir(".service"));
    assert Clean(e);
    if e.answer.Listed? {
      forall path | path in e.answer.entries && EndsWith(path, ".service") ensures UnitSilent(done.trace, path) {
        EndingHas(e.answer.entries, ".service", path);
        UnitWasRead(done.trace, e, path);
      }
    }
  }

  /** A listing, if there is one, is whole and all its units are silent. */
  ghost predicate DirectorySilent(trace: seq<Event>, e: Event) {
    match e.answer
    case NotThere => true
    case Listed(entries, cut) =>
      !cut && forall path :: path in entries && EndsWith(path, ".service") ==> UnitSilent(trace, path)
    case _ => false
  }

  /** The file was read, its text is silent, and so is every file whose environment it loads. */
  ghost predicate UnitSilent(trace: seq<Event>, path: string) {
    exists e :: e in trace && e.task == ReadFile(path, false, Unit) && e.answer.Given? && Silent(e.answer.text)
      && !e.answer.text.variableProgram
      && forall file :: file in e.answer.text.environmentFiles ==> FileSilent(trace, file)
  }

  ghost predicate FileSilent(trace: seq<Event>, path: string) {
    exists e :: e in trace && e.task.ReadFile? && e.task.path == path && e.answer.Given? && Silent(e.answer.text)
  }

  lemma {:induction false} EndingHas(paths: seq<string>, suffix: string, path: string)
    ensures path in Ending(paths, suffix) <==> path in paths && EndsWith(path, suffix)
  {
    if paths != [] {
      EndingHas(paths[1..], suffix, path);
    }
  }

  lemma ReadsHave(paths: seq<string>, role: Role, path: string)
    requires path in paths
    ensures ReadFile(path, false, role) in Reads(paths, role)
  {
    var i :| 0 <= i < |paths| && paths[i] == path;
    assert Reads(paths, role)[i] == ReadFile(path, false, role);
  }

  lemma Spawned(trace: seq<Event>, parent: Event, child: Task) returns (e: Event)
    requires Followed(trace, 0) && parent in trace && child in Children(parent.task, parent.answer)
    ensures e in trace && e.task == child
  {
    var i :| 0 <= i < |trace| && trace[i] == parent;
    assert Done(child, trace);
    e :| e in trace && e.task == child;
  }

  lemma UnitWasRead(trace: seq<Event>, listing: Event, path: string)
    requires Followed(trace, 0) && forall e :: e in trace ==> Clean(e) && Possible(e)
    requires listing in trace && listing.task.ListDir? && listing.task.role == UnitDir(".service")
    requires listing.answer.Listed? && path in Ending(listing.answer.entries, ".service")
    ensures UnitSilent(trace, path)
  {
    ReadsHave(Ending(listing.answer.entries, ".service"), Unit, path);
    var e := Spawned(trace, listing, ReadFile(path, false, Unit));
    assert Clean(e) && Possible(e);
    var text := e.answer.text;
    if text.variableProgram {
      var n := Spawned(trace, e, Note(Dynamic));
    }
    forall file | file in text.environmentFiles ensures FileSilent(trace, file) {
      EnvironmentWasRead(trace, e, file);
    }
  }

  lemma EnvironmentWasRead(trace: seq<Event>, unit: Event, file: string)
    requires Followed(trace, 0) && forall e :: e in trace ==> Clean(e) && Possible(e)
    requires unit in trace && unit.task.ReadFile? && unit.task.role == Unit && unit.answer.Given?
    requires file in unit.answer.text.environmentFiles
    ensures FileSilent(trace, file)
  {
    var text := unit.answer.text;
    var role := EnvironmentFile(Basename(unit.task.path), text.user);
    ReadsHave(text.environmentFiles, role, file);
    var e := Spawned(trace, unit, ReadFile(file, false, role));
    assert Clean(e) && Possible(e);
  }
}
