/** How far the census's two promises reach: the byte budget, and the silence behind ABSENT. */
module CensusLimits {
  import opened Wrappers
  import opened CensusRecords
  import opened CensusWalk
  import opened CensusTheorems

  // ----------------------------------------------------------- what a family can ask

  /** Only `at` and `docker` run programs, and every program but their first is gated; only the script
      family reads scripts. */
  predicate Belongs(f: Family, t: Task) {
    match t
    case RunProgram(_, gated, role) => (f == At || f == Docker) && (gated <==> role.AtJob? || role.DockerInspect?)
    case ReadFile(_, _, role) => role == Script ==> f == ScriptFamily
    case ListDir(_, role) => role == ScriptDir ==> f == ScriptFamily
    case Note(_) => true
  }

  predicate AllBelong(f: Family, tasks: seq<Task>) {
    forall t :: t in tasks ==> Belongs(f, t)
  }

  predicate TraceBelongs(f: Family, trace: seq<Event>) {
    forall e :: e in trace ==> Belongs(f, e.task)
  }

  lemma {:induction false} DropinListsBelong(f: Family, entries: seq<string>)
    ensures AllBelong(f, DropinLists(entries))
  {
    if entries != [] {
      DropinListsBelong(f, entries[1..]);
    }
  }

  lemma {:induction false} ComposeReadsBelong(f: Family, paths: seq<string>, project: string)
    ensures AllBelong(f, ComposeReads(paths, project))
  {
    if paths != [] {
      ComposeReadsBelong(f, paths[1..], project);
    }
  }

  lemma {:induction false} TableReadsBelong(f: Family, paths: seq<string>, named: seq<string>)
    ensures AllBelong(f, TableReads(paths, named))
  {
    if paths != [] {
      TableReadsBelong(f, paths[1..], named);
    }
  }

  lemma ChildrenBelong(f: Family, t: Task, a: Answer)
    requires Belongs(f, t)
    ensures AllBelong(f, Children(t, a))
  {
    if t.ListDir? && a.Listed? && t.role == DropinRoot {
      DropinListsBelong(f, a.entries);
    } else if t.ListDir? && a.Listed? && t.role.ComposeProject? {
      ComposeReadsBelong(f, a.entries, t.role.project);
    }
  }

  lemma {:induction false} OneBelongs(h: Host, b: Budget, f: Family, t: Task, s: State)
    requires Belongs(f, t) && TraceBelongs(f, s.trace)
    ensures TraceBelongs(f, RunOne(h, b, f, t, s).trace)
    decreases Rank(t) + 1, 0, 0
  {
    var answer := AnswerTo(h, b, t, s);
    StepTrace(h, b, f, t, s);
    ChildrenBelow(t, answer);
    ChildrenBelong(f, t, answer);
    AllWalkedBelong(h, b, f, Children(t, answer), Stepped(h, b, f, t, s));
  }

  lemma {:induction false} AllWalkedBelong(h: Host, b: Budget, f: Family, tasks: seq<Task>, s: State)
    requires AllBelong(f, tasks) && TraceBelongs(f, s.trace)
    ensures TraceBelongs(f, RunAll(h, b, f, tasks, s).trace)
    decreases Depth(tasks), 1, |tasks|
  {
    if tasks != [] && !s.halted {
      assert Depth(tasks[1..]) <= Depth(tasks);
      OneBelongs(h, b, f, tasks[0], s);
      AllWalkedBelong(h, b, f, tasks[1..], RunOne(h, b, f, tasks[0], s));
    }
  }

  lemma WalkBelongs(h: Host, b: Budget, f: Family)
    ensures TraceBelongs(f, Walk(h, b, f).trace)
  {
    var listed := Listing(h, b, f);
    AllWalkedBelong(h, b, f, First(f), FRESH);
    TableReadsBelong(f, NamedFiles(f) + EntriesIn(listed.trace), NamedFiles(f));
    AllWalkedBelong(h, b, f, SecondTasks(f, listed), listed);
  }

  // ----------------------------------------------------------------- the byte budget

  /** The length of a text that went on to be parsed, a file's or a program's. */
  function ParsedLength(e: Event): nat {
    if e.answer.Given? && Parsed(e.task, e.answer.text) then e.answer.text.length else 0
  }

  function ParsedTotal(trace: seq<Event>): nat {
    if trace == [] then 0 else ParsedTotal(trace[..|trace| - 1]) + ParsedLength(trace[|trace| - 1])
  }

  lemma {:induction false} ParsedTotalBounded(f: Family, trace: seq<Event>)
    requires TraceBelongs(f, trace)
    ensures f != At && f != Docker ==> ParsedTotal(trace) <= PassedOnTotal(trace)
    ensures SpentCount(trace) == 0 ==> ParsedTotal(trace) == 0
  {
    if trace != [] {
      assert Belongs(f, trace[|trace| - 1].task);
      ParsedTotalBounded(f, trace[..|trace| - 1]);
    }
  }

  /** The walk of a family whose one program names one thing to run another on. */
  lemma WalkOfTwo(h: Host, b: Budget, f: Family, ask: Task, show: Task, names: Text, shown: Text)
    requires b.maxFiles > 0 && !Tabular(f) && First(f) == [ask]
    requires ask.RunProgram? && !ask.gated && h.run(0, ask.argv) == Answered(names)
    requires show.RunProgram? && show.gated && h.run(1, show.argv) == Answered(shown)
    requires Children(ask, Given(names)) == [show] && Children(show, Given(shown)) == []
    requires !Parsed(ask, names) && Parsed(show, shown)
    ensures !Walk(h, b, f).exhausted && ParsedTotal(Walk(h, b, f).trace) == shown.length
  {
    var asked := Stepped(h, b, f, ask, FRESH);
    Asked(h, b, f, ask, names);
    Shown(h, b, f, show, asked, shown);
    OneTask(h, b, f, show, asked);
    OneTask(h, b, f, ask, FRESH);
    assert RunOne(h, b, f, show, asked) == RunAll(h, b, f, [], Stepped(h, b, f, show, asked));
    assert RunOne(h, b, f, ask, FRESH) == RunAll(h, b, f, [show], asked);
    assert SecondTasks(f, Listing(h, b, f)) == [];
    TotalOfTwo(Event(ask, Given(names)), Event(show, Given(shown)));
  }

  lemma TotalOfTwo(first: Event, second: Event)
    ensures ParsedTotal([first] + [second]) == ParsedLength(first) + ParsedLength(second)
  {
    assert ParsedTotal([first]) == ParsedLength(first) by {
      assert [first][..0] == [];
    }
    assert ([first] + [second])[..1] == [first];
  }

  lemma Asked(h: Host, b: Budget, f: Family, ask: Task, names: Text)
    requires ask.RunProgram? && !ask.gated && h.run(0, ask.argv) == Answered(names)
    ensures AnswerTo(h, b, ask, FRESH) == Given(names)
    ensures var s := Stepped(h, b, f, ask, FRESH);
            s.files == 0 && !s.exhausted && !s.halted && s.trace == [Event(ask, Given(names))]
  {
  }

  lemma Shown(h: Host, b: Budget, f: Family, show: Task, s: State, shown: Text)
    requires show.RunProgram? && show.gated && h.run(|s.trace|, show.argv) == Answered(shown)
    requires s.files < b.maxFiles
    ensures AnswerTo(h, b, show, s) == Given(shown)
    ensures Stepped(h, b, f, show, s).exhausted == s.exhausted
    ensures Stepped(h, b, f, show, s).trace == s.trace + [Event(show, Given(shown))]
  {
  }

  lemma OneTask(h: Host, b: Budget, f: Family, t: Task, s: State)
    requires !s.halted
    ensures RunAll(h, b, f, [t], s) == RunOne(h, b, f, t, s)
  {
    assert RunAll(h, b, f, [t], s) == RunAll(h, b, f, [], RunOne(h, b, f, t, s));
  }

  function Plain(length: nat): Text {
    Text(length, [], map[], None, [], false, 0, false, [], [])
  }

  /** A host with nothing on it but two programs: the first answers `names`, the next `shown`. */
  function TwoPrograms(names: Text, shown: Text): Host {
    Host(
      (now, dir) => Failure(MissingCode), (now, path) => Failure(MissingCode),
      (now, argv) => Answered(if now == 0 then names else shown))
  }

  /** The byte budget does not reach program output: one queued job, or one container, is enough to
      parse more than any number of bytes without the walk counting as exhausted. */
  lemma ProgramOutputIsNotCounted(b: Budget, f: Family)
    requires b.maxFiles > 0 && (f == At || f == Docker)
    ensures exists h :: !Walk(h, b, f).exhausted && ParsedTotal(Walk(h, b, f).trace) > b.maxBytes
  {
    var shown := Plain(b.maxBytes + 1);
    if f == At {
      QueueIsNotCounted(TwoPrograms(JOBS, shown), b, shown);
    } else {
      ContainersAreNotCounted(TwoPrograms(CONTAINERS, shown), b, shown);
    }
  }

  const JOBS: Text := Plain(0).(jobs := ["1"])
  const CONTAINERS: Text := Plain(0).(containers := [("1", "db")])

  lemma QueueIsNotCounted(h: Host, b: Budget, job: Text)
    requires b.maxFiles > 0 && h == TwoPrograms(JOBS, job)
    ensures !Walk(h, b, At).exhausted && ParsedTotal(Walk(h, b, At).trace) == job.length
  {
    var ask, show := RunProgram(["atq"], false, AtQueue), RunProgram(["at", "-c", "1"], true, AtJob("1"));
    assert JobRuns(["1"]) == [show];
    WalkOfTwo(h, b, At, ask, show, JOBS, job);
  }

  lemma ContainersAreNotCounted(h: Host, b: Budget, container: Text)
    requires b.maxFiles > 0 && h == TwoPrograms(CONTAINERS, container)
    ensures !Walk(h, b, Docker).exhausted && ParsedTotal(Walk(h, b, Docker).trace) == container.length
  {
    var ask := RunProgram(DOCKER_PS, false, DockerList);
    var show := RunProgram(["docker", "inspect", "1"], true, DockerInspect("db"));
    assert Inspections([("1", "db")]) == [show];
    WalkOfTwo(h, b, Docker, ask, show, CONTAINERS, container);
  }

  /** When the byte budget holds: on every host the text that is parsed stays within `maxBytes` exactly
      for the nine families that read files only, and for all where no file may be spent. */
  lemma BytesHeldExactly(b: Budget, f: Family)
    ensures (forall h :: ParsedTotal(Walk(h, b, f).trace) <= b.maxBytes)
       <==> (f != At && f != Docker) || b.maxFiles == 0
  {
    if (f != At && f != Docker) || b.maxFiles == 0 {
      forall h ensures ParsedTotal(Walk(h, b, f).trace) <= b.maxBytes {
        WalkBelongs(h, b, f);
        WalkAccounted(h, b, f);
        ParsedTotalBounded(f, Walk(h, b, f).trace);
      }
    } else {
      ProgramOutputIsNotCounted(b, f);
    }
  }

  // -------------------------------------------------------------- the silence of ABSENT

  /** `_script` passes over a script that names no client and shows no connection string, whatever
      variables it sets. */
  predicate PassedOver(t: Task, text: Text) {
    t.ReadFile? && t.role == Script && !text.mentionsClient && text.dsns == []
  }

  /** Programs that print what one job or container is. */
  predicate Shows(t: Task) {
    t.RunProgram? && t.gated
  }

  lemma CleanTextIsSilent(f: Family, e: Event)
    requires Clean(e) && Belongs(f, e.task) && e.answer.Given? && (e.task.ReadFile? || Shows(e.task))
    ensures Silent(e.answer.text) || (f == ScriptFamily && PassedOver(e.task, e.answer.text))
  {
  }

  /** Behind ABSENT every file that was read is silent, and every job and container that was shown,
      except for scripts that are passed over; so in the ten other families without exception. */
  lemma AbsentMeansSilent(h: Host, b: Budget, f: Family)
    requires OutcomeOf(f, Walk(h, b, f)).scan.Verdict() == ABSENT
    ensures forall e :: e in Walk(h, b, f).trace && e.answer.Given? && (e.task.ReadFile? || Shows(e.task)) ==>
              Silent(e.answer.text) || (f == ScriptFamily && PassedOver(e.task, e.answer.text))
  {
    AbsentExactly(h, b, f);
    WalkBelongs(h, b, f);
    var trace := Walk(h, b, f).trace;
    forall e | e in trace && e.answer.Given? && (e.task.ReadFile? || Shows(e.task))
      ensures Silent(e.answer.text) || (f == ScriptFamily && PassedOver(e.task, e.answer.text))
    {
      CleanTextIsSilent(f, e);
    }
  }

  // ------------------------------------------------------------ a script passed over

  lemma MissingRead(h: Host, b: Budget, f: Family, path: string, role: Role, s: State)
    requires h.read(|s.trace|, path) == Failure(MissingCode) && s.files < b.maxFiles && !s.halted
    ensures var t := ReadFile(path, true, role);
            RunOne(h, b, f, t, s) == s.(files := s.files + 1, trace := s.trace + [Event(t, NotThere)])
  {
  }

  lemma MissingList(h: Host, b: Budget, f: Family, dir: string, role: Role, s: State)
    requires h.list(|s.trace|, dir) == Failure(MissingCode) && !s.halted
    ensures var t := ListDir(dir, role);
            RunOne(h, b, f, t, s) == s.(trace := s.trace + [Event(t, NotThere)])
  {
  }

  /** One script in a directory, passed over. */
  lemma ScriptRead(h: Host, b: Budget, dir: string, path: string, text: Text, s: State)
    requires !s.halted && !s.exhausted
    requires s.files < b.maxFiles && s.readBytes + text.length <= b.maxBytes && b.maxEntries > 0
    requires h.list(|s.trace|, dir) == Answered([path]) && h.read(|s.trace| + 1, path) == Answered(text)
    requires !text.mentionsClient && text.dsns == []
    ensures var t, read := ListDir(dir, ScriptDir), ReadFile(path, false, Script);
            RunOne(h, b, ScriptFamily, t, s)
            == s.(files := s.files + 1, readBytes := s.readBytes + text.length,
                  trace := s.trace + [Event(t, Listed([path], false))] + [Event(read, Given(text))])
  {
    var t, read := ListDir(dir, ScriptDir), ReadFile(path, false, Script);
    var listed := s.(trace := s.trace + [Event(t, Listed([path], false))]);
    assert Stepped(h, b, ScriptFamily, t, s) == listed;
    assert Reads([path], Script) == [read];
    OneTask(h, b, ScriptFamily, read, listed);
    ScriptStep(h, b, read, text, listed);
    var after := Stepped(h, b, ScriptFamily, read, listed);
    assert RunOne(h, b, ScriptFamily, read, listed) == RunAll(h, b, ScriptFamily, [], after);
  }

  lemma ScriptStep(h: Host, b: Budget, read: Task, text: Text, s: State)
    requires read.ReadFile? && read.role == Script && !text.mentionsClient && text.dsns == []
    requires s.files < b.maxFiles && s.readBytes + text.length <= b.maxBytes
    requires h.read(|s.trace|, read.path) == Answered(text)
    ensures AnswerTo(h, b, read, s) == Given(text)
    ensures Stepped(h, b, ScriptFamily, read, s)
         == s.(files := s.files + 1, readBytes := s.readBytes + text.length, trace := s.trace + [Event(read, Given(text))])
  {
  }

  lemma NextTask(h: Host, b: Budget, f: Family, t: Task, rest: seq<Task>, s: State)
    requires !s.halted
    ensures RunAll(h, b, f, [t] + rest, s) == RunAll(h, b, f, rest, RunOne(h, b, f, t, s))
  {
    assert ([t] + rest)[1..] == rest;
  }

  const SCRIPT := "/usr/local/bin/x"

  /** A host with one script on it and nothing else. */
  function OneScript(text: Text): Host {
    Host(
      (now, dir) => if dir == "/usr/local/bin" then Answered([SCRIPT]) else Failure(MissingCode),
      (now, path) => if path == SCRIPT then Answered(text) else Failure(MissingCode),
      (now, argv) => Failure(MissingCode))
  }

  lemma SharedMissing(b: Budget, text: Text) returns (s: State)
    requires b.maxFiles >= 3
    ensures RunAll(OneScript(text), b, ScriptFamily, First(ScriptFamily), FRESH)
         == RunAll(OneScript(text), b, ScriptFamily, Lists(SCRIPT_DIRS, ScriptDir), s)
    ensures s == FRESH.(files := 2, trace := s.trace)
  {
    var h, shared := OneScript(text), SharedEnvironment;
    var first, second := ReadFile("/etc/environment", true, shared), ReadFile("/etc/profile", true, shared);
    var lists := Lists(SCRIPT_DIRS, ScriptDir);
    assert First(ScriptFamily) == [first] + ([second] + lists);
    var s1 := RunOne(h, b, ScriptFamily, first, FRESH);
    MissingRead(h, b, ScriptFamily, "/etc/environment", shared, FRESH);
    MissingRead(h, b, ScriptFamily, "/etc/profile", shared, s1);
    s := RunOne(h, b, ScriptFamily, second, s1);
    NextTask(h, b, ScriptFamily, first, [second] + lists, FRESH);
    NextTask(h, b, ScriptFamily, second, lists, s1);
  }

  lemma OneScriptListed(b: Budget, text: Text, s: State) returns (done: State)
    requires b.maxFiles >= 3 && b.maxBytes >= text.length && b.maxEntries > 0
    requires s == FRESH.(files := 2, trace := s.trace) && !text.mentionsClient && text.dsns == []
    ensures done == RunAll(OneScript(text), b, ScriptFamily, Lists(SCRIPT_DIRS, ScriptDir), s)
    ensures done.errors == [] && done.consumers == [] && !done.exhausted
    ensures Event(ReadFile(SCRIPT, false, Script), Given(text)) in done.trace
  {
    var h, f := OneScript(text), ScriptFamily;
    var bin, sbin := ListDir("/usr/local/bin", ScriptDir), ListDir("/usr/local/sbin", ScriptDir);
    var opt := ListDir("/opt/bin", ScriptDir);
    assert Lists(SCRIPT_DIRS, ScriptDir) == [bin] + ([sbin] + ([opt] + []));
    var s1 := RunOne(h, b, f, bin, s);
    ScriptRead(h, b, "/usr/local/bin", SCRIPT, text, s);
    var s2 := RunOne(h, b, f, sbin, s1);
    MissingList(h, b, f, "/usr/local/sbin", ScriptDir, s1);
    done := RunOne(h, b, f, opt, s2);
    MissingList(h, b, f, "/opt/bin", ScriptDir, s2);
    NextTask(h, b, f, bin, [sbin] + ([opt] + []), s);
    NextTask(h, b, f, sbin, [opt] + [], s1);
    NextTask(h, b, f, opt, [], s2);
  }

  /** The exception happens: a script that sets `PGHOST` and names no client is read, shows a connection
      variable, and leaves the script family ABSENT. */
  lemma ScriptPassedOver(b: Budget)
    requires b.maxFiles >= 3 && b.maxBytes >= 9 && b.maxEntries > 0
    ensures exists h: Host, e: Event ::
              && OutcomeOf(ScriptFamily, Walk(h, b, ScriptFamily)).scan.Verdict() == ABSENT
              && e in Walk(h, b, ScriptFamily).trace
              && e.task.ReadFile? && e.answer.Given? && !Silent(e.answer.text)
  {
    var text := Plain(9).(variables := map["PGHOST" := "db"]);
    var h := OneScript(text);
    var s := SharedMissing(b, text);
    var done := OneScriptListed(b, text, s);
    assert SecondTasks(ScriptFamily, Listing(h, b, ScriptFamily)) == [];
    assert Walk(h, b, ScriptFamily) == done;
    var e := Event(ReadFile(SCRIPT, false, Script), Given(text));
    assert "PGHOST" in text.variables;
    assert e in Walk(h, b, ScriptFamily).trace && !Silent(e.answer.text);
  }
}
