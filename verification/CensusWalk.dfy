/** The eleven walks as one machine: a family is a list of first tasks, and each answered task spawns
    more. Every step leaves an event, so a finished walk carries the whole story of what was asked. */
module CensusWalk {
  import opened Wrappers
  import opened Strings
  import opened CensusRecords

  // --------------------------------------------------------------------------- paths

  function Basename(path: string): string {
    if path == "" then "" else if path[|path| - 1] == '/' then "" else Basename(path[..|path| - 1]) + [path[|path| - 1]]
  }

  predicate Discarded(name: string) {
    EndsWith(name, ".dpkg-old") || EndsWith(name, ".dpkg-dist") || EndsWith(name, ".rpmsave") || EndsWith(name, "~")
  }

  predicate ComposeName(name: string) {
    name == "docker-compose.yml" || name == "docker-compose.yaml" || name == "compose.yml" || name == ".env"
  }

  // --------------------------------------------------------------------------- tasks

  /** Why a path is visited: it decides what its answer spawns and who owns what it shows. */
  datatype Role =
    | UnitDir(suffix: string) | Unit | EnvironmentFile(unit: string, principal: Option<string>)
    | DropinRoot | DropinDir(unit: string) | Dropin(unit: string)
    | TableDir | Table
    | ComposeRoot | ComposeProject(project: string) | ComposeFile(project: string)
    | Runner
    | SharedEnvironment | ScriptDir | Script
    | AgentDir | Agent
    | AtQueue | AtJob(job: string)
    | DockerList | DockerInspect(name: string)

  /** `gated` programs spend a file first and end the walk when none is left. */
  datatype Task =
    | ListDir(dir: string, role: Role)
    | ReadFile(path: string, optional: bool, role: Role)
    | RunProgram(argv: seq<string>, gated: bool, role: Role)
    | Note(error: ErrorClass)

  datatype Answer =
    | Listed(entries: seq<string>, cut: bool)
    | Given(text: Text)
    | NotThere
    | Broken(code: SourceCode)
    | NoFilesLeft
    | NoBytesLeft
    | Noted

  datatype Event = Event(task: Task, answer: Answer)

  /** A walk in progress: the ledger, the consumers found, the events, and whether it broke off. */
  datatype State = State(
    files: nat, readBytes: nat, entries: nat, errors: seq<ErrorClass>, exhausted: bool,
    consumers: seq<Consumer>, trace: seq<Event>, halted: bool)

  const FRESH := State(0, 0, 0, [], false, [], [], false)

  // --------------------------------------------------------------------- one question

  /** `_list`: a missing directory is an answer, any other failure an error, a long listing is cut. */
  function ContactList(h: Host, b: Budget, dir: string, s: State): (State, Answer) {
    match h.list(|s.trace|, dir)
    case Failure(code) =>
      if code == MissingCode then (s, NotThere) else (s.(errors := s.errors + [Observed(code)]), Broken(code))
    case Answered(entries) =>
      if |entries| > b.maxEntries then (s.(exhausted := true), Listed(entries[..b.maxEntries], true))
      else (s, Listed(entries, false))
  }

  /** `_read`: a file is spent before it is asked for, its bytes after it is read. */
  function ContactRead(h: Host, b: Budget, path: string, optional: bool, before: State): (State, Answer) {
    var s := before.(files := before.files + 1);
    if s.files > b.maxFiles then (s.(exhausted := true), NoFilesLeft)
    else
      match h.read(|s.trace|, path)
      case Failure(code) =>
        if code == MissingCode && optional then (s, NotThere)
        else (s.(errors := s.errors + [Observed(code)]), Broken(code))
      case Answered(text) =>
        var s := s.(readBytes := s.readBytes + text.length);
        if s.readBytes > b.maxBytes then (s.(exhausted := true), NoBytesLeft) else (s, Given(text))
  }

  /** `_run`, behind a file's worth of budget where the family spends one. */
  function ContactRun(h: Host, b: Budget, argv: seq<string>, gated: bool, before: State): (State, Answer) {
    var s := if gated then before.(files := before.files + 1) else before;
    if gated && s.files > b.maxFiles then (s.(exhausted := true, halted := true), NoFilesLeft)
    else
      match h.run(|s.trace|, argv)
      case Failure(code) => (s.(errors := s.errors + [Observed(code)]), Broken(code))
      case Answered(text) => (s, Given(text))
  }

  /** Put one task to the host, spend and classify. */
  function Contact(h: Host, b: Budget, t: Task, s: State): (State, Answer) {
    match t
    case Note(error) => (s.(errors := s.errors + [error]), Noted)
    case ListDir(dir, _) => ContactList(h, b, dir, s)
    case ReadFile(path, optional, _) => ContactRead(h, b, path, optional, s)
    case RunProgram(argv, gated, _) => ContactRun(h, b, argv, gated, s)
  }

  function Contacted(h: Host, b: Budget, t: Task, s: State): State {
    var (after, answer) := Contact(h, b, t, s);
    after.(trace := s.trace + [Event(t, answer)])
  }

  // ---------------------------------------------------------------------- one answer

  /** Whom a text is attributed to. */
  function OwnerOf(t: Task, text: Text): Owner {
    match t
    case ReadFile(path, _, role) => (
      match role
      case Unit => Owner(Some(Basename(path)), text.user, Some(path))
      case EnvironmentFile(unit, principal) => Owner(Some(unit), principal, Some(path))
      case Dropin(unit) => Owner(Some(unit), text.user, Some(path))
      case Table =>
        var spooled := Within(path, "/cron") && Within(path, "/spool/");
        Owner(Some(Basename(path)), if spooled then Some(Basename(path)) else None, Some(path))
      case ComposeFile(project) => Owner(Some(Basename(project)), None, Some(path))
      case SharedEnvironment => Owner(None, None, Some(path))
      case _ => Owner(Some(Basename(path)), None, Some(path)))
    case RunProgram(_, _, role) => (
      match role
      case AtJob(job) => Owner(Some("at:" + job), None, None)
      case DockerInspect(name) => Owner(Some(name), None, None)
      case _ => Owner(None, None, None))
    case _ => Owner(None, None, None)
  }

  /** Whether a text is searched for consumers. */
  predicate Parsed(t: Task, text: Text) {
    match t
    case ReadFile(_, _, Script) => text.mentionsClient || text.dsns != []
    case ReadFile(_, _, _) => true
    case RunProgram(_, _, AtJob(_)) => true
    case RunProgram(_, _, DockerInspect(_)) => true
    case _ => false
  }

  function Found(f: Family, t: Task, text: Text): seq<Consumer> {
    if Parsed(t, text) then ConsumersOf(f, OwnerOf(t, text), text) else []
  }

  function Times(n: nat, e: ErrorClass): seq<ErrorClass> {
    seq(n, _ => e)
  }

  /** What the text of a task notes, in order. */
  function NotedBy(t: Task, text: Text): seq<ErrorClass> {
    if !Parsed(t, text) then []
    else
      match t
      case ReadFile(_, _, Runner) => [Dynamic] + TextErrors(text)
      case ReadFile(_, _, Script) => TextErrors(text) + if Silent(text) then [Dynamic] else []
      case ReadFile(_, _, Table) => TextErrors(text) + Times(text.dynamicLines, Dynamic)
      case _ => TextErrors(text)
  }

  /** Take in a text: what it notes and the consumers it shows. */
  function Absorbed(f: Family, t: Task, text: Text, s: State): State {
    var found := Found(f, t, text);
    s.(errors := s.errors + NotedBy(t, text), consumers := s.consumers + found, entries := s.entries + |found|)
  }

  function Reads(paths: seq<string>, role: Role): seq<Task> {
    seq(|paths|, i requires 0 <= i < |paths| => ReadFile(paths[i], false, role))
  }

  function Ending(paths: seq<string>, suffix: string): seq<string> {
    if paths == [] then []
    else (if EndsWith(paths[0], suffix) then [paths[0]] else []) + Ending(paths[1..], suffix)
  }

  function DropinLists(entries: seq<string>): seq<Task> {
    if entries == [] then []
    else
      (if EndsWith(entries[0], ".service.d") || EndsWith(entries[0], ".timer.d")
       then [ListDir(entries[0], DropinDir(RemoveSuffix(Basename(entries[0]), ".d")))] else [])
      + DropinLists(entries[1..])
  }

  function ProjectLists(entries: seq<string>): seq<Task> {
    seq(|entries|, i requires 0 <= i < |entries| => ListDir(entries[i], ComposeProject(entries[i])))
  }

  function ComposeReads(paths: seq<string>, project: string): seq<Task> {
    if paths == [] then []
    else
      (if ComposeName(Basename(paths[0])) then [ReadFile(paths[0], false, ComposeFile(project))] else [])
      + ComposeReads(paths[1..], project)
  }

  function JobRuns(jobs: seq<string>): seq<Task> {
    seq(|jobs|, i requires 0 <= i < |jobs| => RunProgram(["at", "-c", jobs[i]], true, AtJob(jobs[i])))
  }

  function Inspections(containers: seq<(string, string)>): seq<Task> {
    seq(|containers|, i requires 0 <= i < |containers| =>
      RunProgram(["docker", "inspect", containers[i].0], true, DockerInspect(containers[i].1)))
  }

  /** What an answer sends the walk to next. */
  function Children(t: Task, a: Answer): seq<Task> {
    match (t, a)
    case (ListDir(dir, role), Listed(entries, _)) => (
      match role
      case UnitDir(suffix) => Reads(Ending(entries, suffix), Unit)
      case DropinRoot => DropinLists(entries)
      case DropinDir(unit) => Reads(Ending(entries, ".conf"), Dropin(unit))
      case ComposeRoot => ProjectLists(entries)
      case ComposeProject(project) => ComposeReads(entries, project)
      case ScriptDir => Reads(entries, Script)
      case AgentDir => Reads(entries, Agent)
      case _ => [])
    case (ReadFile(path, _, Unit), Given(text)) =>
      Reads(text.environmentFiles, EnvironmentFile(Basename(path), text.user))
      + if text.variableProgram then [Note(Dynamic)] else []
    case (RunProgram(_, _, AtQueue), Given(text)) => JobRuns(text.jobs)
    case (RunProgram(_, _, DockerList), Given(text)) => Inspections(text.containers)
    case _ => []
  }

  /** How deep a task can still spawn. */
  function Rank(t: Task): nat {
    match t
    case ListDir(_, DropinRoot) => 3
    case ListDir(_, ComposeRoot) => 3
    case ListDir(_, UnitDir(_)) => 3
    case ListDir(_, _) => 2
    case ReadFile(_, _, Unit) => 1
    case ReadFile(_, _, _) => 0
    case RunProgram(_, _, AtQueue) => 1
    case RunProgram(_, _, DockerList) => 1
    case RunProgram(_, _, _) => 0
    case Note(_) => 0
  }

  function Depth(tasks: seq<Task>): (depth: nat)
    ensures forall t :: t in tasks ==> Rank(t) < depth
    ensures depth == 0 || exists t :: t in tasks && depth == Rank(t) + 1
  {
    if tasks == [] then 0
    else
      var rest := Depth(tasks[1..]);
      assert forall t :: t in tasks <==> t == tasks[0] || t in tasks[1..];
      if Rank(tasks[0]) < rest then rest else Rank(tasks[0]) + 1
  }

  lemma {:induction false} DropinListsBelow(entries: seq<string>)
    ensures forall t :: t in DropinLists(entries) ==> Rank(t) < 3
  {
    if entries != [] {
      DropinListsBelow(entries[1..]);
    }
  }

  lemma {:induction false} ComposeReadsBelow(paths: seq<string>, project: string)
    ensures forall t :: t in ComposeReads(paths, project) ==> Rank(t) < 2
  {
    if paths != [] {
      ComposeReadsBelow(paths[1..], project);
    }
  }

  lemma ListedBelow(t: Task, a: Answer, c: Task)
    requires t.ListDir? && a.Listed? && c in Children(t, a)
    ensures Rank(c) < Rank(t)
  {
    match t.role
    case DropinRoot => DropinListsBelow(a.entries);
    case ComposeProject(project) => ComposeReadsBelow(a.entries, project);
    case _ =>
  }

  /** Spawned tasks spawn less deeply, so every walk ends. */
  lemma ChildrenBelow(t: Task, a: Answer)
    ensures Depth(Children(t, a)) <= Rank(t)
  {
    forall c | c in Children(t, a) ensures Rank(c) < Rank(t) {
      if t.ListDir? {
        ListedBelow(t, a, c);
      }
    }
  }

  // ------------------------------------------------------------------------ the walk

  function AnswerTo(h: Host, b: Budget, t: Task, s: State): Answer {
    Contact(h, b, t, s).1
  }

  /** One task put and its answer taken in. */
  function Stepped(h: Host, b: Budget, f: Family, t: Task, s: State): State {
    var answer := AnswerTo(h, b, t, s);
    if answer.Given? then Absorbed(f, t, answer.text, Contacted(h, b, t, s)) else Contacted(h, b, t, s)
  }

  /** One task and everything it spawns, depth first. */
  function RunOne(h: Host, b: Budget, f: Family, t: Task, s: State): State
    decreases Rank(t) + 1, 0, 0
  {
    ChildrenBelow(t, AnswerTo(h, b, t, s));
    RunAll(h, b, f, Children(t, AnswerTo(h, b, t, s)), Stepped(h, b, f, t, s))
  }

  /** Tasks in order, until one breaks the walk off. */
  function RunAll(h: Host, b: Budget, f: Family, tasks: seq<Task>, s: State): State
    decreases Depth(tasks), 1, |tasks|
  {
    if tasks == [] || s.halted then s
    else
      assert Depth(tasks[1..]) <= Depth(tasks);
      RunAll(h, b, f, tasks[1..], RunOne(h, b, f, tasks[0], s))
  }

  // --------------------------------------------------------------------- the families

  const UNIT_DIRS := ["/etc/systemd/system", "/usr/lib/systemd/system", "/lib/systemd/system"]
  const CRON_FILES := ["/etc/crontab"]
  const CRON_DIRS := ["/etc/cron.d", "/var/spool/cron/crontabs", "/var/spool/cron"]
  const ANACRON_FILES := ["/etc/anacrontab"]
  const ANACRON_DIRS := ["/etc/cron.daily", "/etc/cron.weekly", "/etc/cron.monthly"]
  const COMPOSE_DIRS := ["/etc/docker/compose", "/opt/compose", "/srv/compose"]
  const SCRIPT_DIRS := ["/usr/local/bin", "/usr/local/sbin", "/opt/bin"]
  const SHARED_ENVIRONMENT := ["/etc/environment", "/etc/profile"]
  const AGENT_DIRS := ["/etc/pgbackrest", "/etc/barman.d", "/etc/prometheus/exporters"]
  const CI_RUNNER_PATHS := ["/etc/gitlab-runner/config.toml", "/etc/actions-runner/.env"]
  const DOCKER_PS := ["docker", "ps", "-a", "--no-trunc", "--format", "{{.ID}} {{.Names}}"]

  function Lists(dirs: seq<string>, role: Role): seq<Task> {
    seq(|dirs|, i requires 0 <= i < |dirs| => ListDir(dirs[i], role))
  }

  function OptionalReads(paths: seq<string>, role: Role): seq<Task> {
    seq(|paths|, i requires 0 <= i < |paths| => ReadFile(paths[i], true, role))
  }

  /** The two crontab-shaped families list every directory before they read anything. */
  predicate Tabular(f: Family) {
    f == Cron || f == Anacron
  }

  function NamedFiles(f: Family): seq<string> {
    if f == Cron then CRON_FILES else if f == Anacron then ANACRON_FILES else []
  }

  function First(f: Family): seq<Task> {
    match f
    case SystemdService => Lists(UNIT_DIRS, UnitDir(".service"))
    case SystemdTimer => Lists(UNIT_DIRS, UnitDir(".timer"))
    case SystemdDropin => Lists(UNIT_DIRS, DropinRoot)
    case Cron => Lists(CRON_DIRS, TableDir)
    case Anacron => Lists(ANACRON_DIRS, TableDir)
    case At => [RunProgram(["atq"], false, AtQueue)]
    case Docker => [RunProgram(DOCKER_PS, false, DockerList)]
    case Compose => Lists(COMPOSE_DIRS, ComposeRoot)
    case CiRunner => OptionalReads(CI_RUNNER_PATHS, Runner)
    case ScriptFamily => OptionalReads(SHARED_ENVIRONMENT, SharedEnvironment) + Lists(SCRIPT_DIRS, ScriptDir)
    case AgentFamily => Lists(AGENT_DIRS, AgentDir)
  }

  /** All that the listings of a trace returned. */
  function EntriesIn(trace: seq<Event>): seq<string> {
    if trace == [] then []
    else
      var last := trace[|trace| - 1].answer;
      EntriesIn(trace[..|trace| - 1]) + if last.Listed? then last.entries else []
  }

  /** The reads of a crontab-shaped family; a named file may be missing, a discovered one may not. */
  function TableReads(paths: seq<string>, named: seq<string>): seq<Task> {
    if paths == [] then []
    else
      (if Discarded(Basename(paths[0])) then [] else [ReadFile(paths[0], paths[0] in named, Table)])
      + TableReads(paths[1..], named)
  }

  function SecondTasks(f: Family, listed: State): seq<Task> {
    if Tabular(f) then TableReads(NamedFiles(f) + EntriesIn(listed.trace), NamedFiles(f)) else []
  }

  function Listing(h: Host, b: Budget, f: Family): State {
    RunAll(h, b, f, First(f), FRESH)
  }

  /** A family's whole walk. */
  function Walk(h: Host, b: Budget, f: Family): State {
    RunAll(h, b, f, SecondTasks(f, Listing(h, b, f)), Listing(h, b, f))
  }

  /** `_outcome`. */
  function OutcomeOf(f: Family, s: State): FamilyOutcome {
    FamilyOutcome(FamilyScan(f, true, !s.exhausted, s.errors, |s.consumers|), s.consumers)
  }
}
