/** Where each family looks, path by path: what was listed and opened by a walk its budget did not cut,
    and what an ABSENT one was answered. */
module CensusFamilies {
  import opened Strings
  import opened CensusRecords
  import opened CensusWalk
  import opened CensusTheorems

  // ------------------------------------------------------------- one listing, one read

  /** The directory is not there, or was listed to the end. */
  predicate Whole(a: Answer) {
    a == NotThere || (a.Listed? && !a.cut)
  }

  function Shown(a: Answer): seq<string> {
    if a.Listed? then a.entries else []
  }

  predicate ListingOf(e: Event, dir: string, absent: bool) {
    e.task.ListDir? && e.task.dir == dir && (absent ==> Whole(e.answer))
  }

  predicate ReadingOf(e: Event, path: string) {
    e.task.ReadFile? && e.task.path == path
  }

  predicate Quiet(a: Answer) {
    a.Given? && Silent(a.text)
  }

  /** The file was opened, and behind ABSENT what it holds is silent. */
  ghost predicate Opened(trace: seq<Event>, path: string, absent: bool) {
    exists e :: e in trace && ReadingOf(e, path) && (absent ==> Quiet(e.answer))
  }

  /** The file was looked for, and behind ABSENT it is not there or silent. */
  ghost predicate LookedFor(trace: seq<Event>, path: string, absent: bool) {
    exists e :: e in trace && ReadingOf(e, path) && (absent ==> e.answer == NotThere || Quiet(e.answer))
  }

  predicate Settled(e: Event, absent: bool) {
    Possible(e) && (absent ==> Clean(e))
  }

  predicate AllSettled(trace: seq<Event>, absent: bool) {
    forall e :: e in trace ==> Settled(e, absent)
  }

  predicate IsAbsent(h: Host, b: Budget, f: Family) {
    OutcomeOf(f, Walk(h, b, f)).scan.Verdict() == ABSENT
  }

  lemma WalkSettled(h: Host, b: Budget, f: Family)
    ensures AllSettled(Walk(h, b, f).trace, IsAbsent(h, b, f))
  {
    AbsentExactly(h, b, f);
    WalkIsPossible(h, b, f);
  }

  /** A read that had to succeed leaves the file opened. */
  lemma ReadIsOpened(trace: seq<Event>, e: Event, absent: bool)
    requires e in trace && Settled(e, absent) && e.task.ReadFile? && !e.task.optional
    requires e.task.role != Script && e.task.role != Runner
    ensures Opened(trace, e.task.path, absent)
  {
    assert ReadingOf(e, e.task.path);
  }

  lemma ListIsSettled(e: Event, absent: bool)
    requires Settled(e, absent) && e.task.ListDir?
    ensures ListingOf(e, e.task.dir, absent)
  {
  }

  /** The event of a task that was done. */
  lemma DoneBy(trace: seq<Event>, t: Task) returns (e: Event)
    requires Done(t, trace)
    ensures e in trace && e.task == t
  {
    e :| e in trace && e.task == t;
  }

  /** Every path a listing spawns a read of was opened. */
  lemma SpawnedReads(trace: seq<Event>, listing: Event, paths: seq<string>, role: Role, path: string, absent: bool)
    requires Followed(trace, 0) && AllSettled(trace, absent) && listing in trace
    requires Children(listing.task, listing.answer) == Reads(paths, role) && path in paths
    requires role != Script && role != Runner
    ensures Opened(trace, path, absent)
  {
    ReadsHave(paths, role, path);
    var e := Spawned(trace, listing, ReadFile(path, false, role));
    ReadIsOpened(trace, e, absent);
  }

  // --------------------------------------------------------------------------- agents

  /** The directory was listed, and every entry opened. */
  ghost predicate EntriesOpened(trace: seq<Event>, dir: string, absent: bool) {
    exists e :: e in trace && ListingOf(e, dir, absent) && forall path :: path in Shown(e.answer) ==> Opened(trace, path, absent)
  }

  ghost predicate AgentsLooked(trace: seq<Event>, absent: bool) {
    && EntriesOpened(trace, "/etc/pgbackrest", absent)
    && EntriesOpened(trace, "/etc/barman.d", absent)
    && EntriesOpened(trace, "/etc/prometheus/exporters", absent)
  }

  lemma AgentDirectoryLooked(trace: seq<Event>, dir: string, absent: bool)
    requires Followed(trace, 0) && AllSettled(trace, absent) && Done(ListDir(dir, AgentDir), trace)
    ensures EntriesOpened(trace, dir, absent)
  {
    var e := DoneBy(trace, ListDir(dir, AgentDir));
    ListIsSettled(e, absent);
    forall path | path in Shown(e.answer) ensures Opened(trace, path, absent) {
      SpawnedReads(trace, e, e.answer.entries, Agent, path, absent);
    }
  }

  lemma AgentsIn(h: Host, b: Budget, dir: string)
    requires !Walk(h, b, AgentFamily).exhausted && ListDir(dir, AgentDir) in First(AgentFamily)
    ensures EntriesOpened(Walk(h, b, AgentFamily).trace, dir, IsAbsent(h, b, AgentFamily))
  {
    WalkSettled(h, b, AgentFamily);
    LookedEverywhere(h, b, AgentFamily);
    AgentDirectoryLooked(Walk(h, b, AgentFamily).trace, dir, IsAbsent(h, b, AgentFamily));
  }

  lemma AgentsLook(h: Host, b: Budget)
    requires !Walk(h, b, AgentFamily).exhausted
    ensures AgentsLooked(Walk(h, b, AgentFamily).trace, IsAbsent(h, b, AgentFamily))
  {
    var first := First(AgentFamily);
    assert first[0] == ListDir("/etc/pgbackrest", AgentDir) && first[1] == ListDir("/etc/barman.d", AgentDir);
    assert first[2] == ListDir("/etc/prometheus/exporters", AgentDir);
    AgentsIn(h, b, "/etc/pgbackrest");
    AgentsIn(h, b, "/etc/barman.d");
    AgentsIn(h, b, "/etc/prometheus/exporters");
  }

  // -------------------------------------------------------------------------- scripts

  /** The script was opened, and behind ABSENT it is silent or passed over: it names no client and shows no
      connection string. */
  ghost predicate ScriptOpened(trace: seq<Event>, path: string, absent: bool) {
    exists e :: e in trace && ReadingOf(e, path)
      && (absent ==> e.answer.Given? && (Silent(e.answer.text) || (!e.answer.text.mentionsClient && e.answer.text.dsns == [])))
  }

  ghost predicate ScriptsOpened(trace: seq<Event>, dir: string, absent: bool) {
    exists e :: e in trace && ListingOf(e, dir, absent) && forall path :: path in Shown(e.answer) ==> ScriptOpened(trace, path, absent)
  }

  ghost predicate ScriptsLooked(trace: seq<Event>, absent: bool) {
    && LookedFor(trace, "/etc/environment", absent) && LookedFor(trace, "/etc/profile", absent)
    && ScriptsOpened(trace, "/usr/local/bin", absent)
    && ScriptsOpened(trace, "/usr/local/sbin", absent)
    && ScriptsOpened(trace, "/opt/bin", absent)
  }

  lemma ScriptDirectoryLooked(trace: seq<Event>, dir: string, absent: bool)
    requires Followed(trace, 0) && AllSettled(trace, absent) && Done(ListDir(dir, ScriptDir), trace)
    ensures ScriptsOpened(trace, dir, absent)
  {
    var e := DoneBy(trace, ListDir(dir, ScriptDir));
    ListIsSettled(e, absent);
    forall path | path in Shown(e.answer) ensures ScriptOpened(trace, path, absent) {
      ReadsHave(e.answer.entries, Script, path);
      var read := Spawned(trace, e, ReadFile(path, false, Script));
      assert Settled(read, absent) && ReadingOf(read, path);
    }
  }

  lemma NamedIsLookedFor(trace: seq<Event>, path: string, role: Role, absent: bool)
    requires AllSettled(trace, absent) && Done(ReadFile(path, true, role), trace)
    requires role != Script && role != Runner
    ensures LookedFor(trace, path, absent)
  {
    var e := DoneBy(trace, ReadFile(path, true, role));
    assert Settled(e, absent) && ReadingOf(e, path);
  }

  lemma ScriptsIn(h: Host, b: Budget, dir: string)
    requires !Walk(h, b, ScriptFamily).exhausted && ListDir(dir, ScriptDir) in First(ScriptFamily)
    ensures ScriptsOpened(Walk(h, b, ScriptFamily).trace, dir, IsAbsent(h, b, ScriptFamily))
  {
    WalkSettled(h, b, ScriptFamily);
    LookedEverywhere(h, b, ScriptFamily);
    ScriptDirectoryLooked(Walk(h, b, ScriptFamily).trace, dir, IsAbsent(h, b, ScriptFamily));
  }

  lemma EnvironmentAt(h: Host, b: Budget, path: string)
    requires !Walk(h, b, ScriptFamily).exhausted && ReadFile(path, true, SharedEnvironment) in First(ScriptFamily)
    ensures LookedFor(Walk(h, b, ScriptFamily).trace, path, IsAbsent(h, b, ScriptFamily))
  {
    WalkSettled(h, b, ScriptFamily);
    LookedEverywhere(h, b, ScriptFamily);
    NamedIsLookedFor(Walk(h, b, ScriptFamily).trace, path, SharedEnvironment, IsAbsent(h, b, ScriptFamily));
  }

  lemma ScriptsLook(h: Host, b: Budget)
    requires !Walk(h, b, ScriptFamily).exhausted
    ensures ScriptsLooked(Walk(h, b, ScriptFamily).trace, IsAbsent(h, b, ScriptFamily))
  {
    var first := First(ScriptFamily);
    assert first[0] == ReadFile("/etc/environment", true, SharedEnvironment);
    assert first[1] == ReadFile("/etc/profile", true, SharedEnvironment);
    assert first[2] == ListDir("/usr/local/bin", ScriptDir) && first[3] == ListDir("/usr/local/sbin", ScriptDir);
    assert first[4] == ListDir("/opt/bin", ScriptDir);
    EnvironmentAt(h, b, "/etc/environment");
    EnvironmentAt(h, b, "/etc/profile");
    ScriptsIn(h, b, "/usr/local/bin");
    ScriptsIn(h, b, "/usr/local/sbin");
    ScriptsIn(h, b, "/opt/bin");
  }

  // ------------------------------------------------------------------ units and timers

  /** The unit was opened with every environment file it loads; behind ABSENT all of it is silent, and the
      program it runs is named outright. */
  ghost predicate UnitOpened(trace: seq<Event>, path: string, absent: bool) {
    exists e :: e in trace && ReadingOf(e, path) && (absent ==> Quiet(e.answer) && !e.answer.text.variableProgram)
      && (e.answer.Given? ==> forall file :: file in e.answer.text.environmentFiles ==> Opened(trace, file, absent))
  }

  ghost predicate UnitsOpened(trace: seq<Event>, dir: string, suffix: string, absent: bool) {
    exists e :: e in trace && ListingOf(e, dir, absent)
      && forall path :: path in Shown(e.answer) && EndsWith(path, suffix) ==> UnitOpened(trace, path, absent)
  }

  ghost predicate UnitsLooked(trace: seq<Event>, suffix: string, absent: bool) {
    && UnitsOpened(trace, "/etc/systemd/system", suffix, absent)
    && UnitsOpened(trace, "/usr/lib/systemd/system", suffix, absent)
    && UnitsOpened(trace, "/lib/systemd/system", suffix, absent)
  }

  lemma UnitLooked(trace: seq<Event>, e: Event, absent: bool)
    requires Followed(trace, 0) && AllSettled(trace, absent)
    requires e in trace && e.task.ReadFile? && !e.task.optional && e.task.role == Unit
    ensures UnitOpened(trace, e.task.path, absent)
  {
    assert Settled(e, absent) && ReadingOf(e, e.task.path);
    if e.answer.Given? {
      var text := e.answer.text;
      var role := EnvironmentFile(Basename(e.task.path), text.user);
      forall file | file in text.environmentFiles ensures Opened(trace, file, absent) {
        ReadsHave(text.environmentFiles, role, file);
        var read := Spawned(trace, e, ReadFile(file, false, role));
        ReadIsOpened(trace, read, absent);
      }
      if text.variableProgram {
        var note := Spawned(trace, e, Note(Dynamic));
        assert Settled(note, absent);
      }
    }
  }

  lemma UnitDirectoryLooked(trace: seq<Event>, dir: string, suffix: string, absent: bool)
    requires Followed(trace, 0) && AllSettled(trace, absent) && Done(ListDir(dir, UnitDir(suffix)), trace)
    ensures UnitsOpened(trace, dir, suffix, absent)
  {
    var e := DoneBy(trace, ListDir(dir, UnitDir(suffix)));
    ListIsSettled(e, absent);
    forall path | path in Shown(e.answer) && EndsWith(path, suffix) ensures UnitOpened(trace, path, absent) {
      EndingHas(e.answer.entries, suffix, path);
      ReadsHave(Ending(e.answer.entries, suffix), Unit, path);
      var read := Spawned(trace, e, ReadFile(path, false, Unit));
      UnitLooked(trace, read, absent);
    }
  }

  lemma UnitsIn(h: Host, b: Budget, f: Family, dir: string, suffix: string)
    requires !Walk(h, b, f).exhausted && ListDir(dir, UnitDir(suffix)) in First(f)
    ensures UnitsOpened(Walk(h, b, f).trace, dir, suffix, IsAbsent(h, b, f))
  {
    WalkSettled(h, b, f);
    LookedEverywhere(h, b, f);
    UnitDirectoryLooked(Walk(h, b, f).trace, dir, suffix, IsAbsent(h, b, f));
  }

  lemma UnitsLook(h: Host, b: Budget, f: Family)
    requires (f == SystemdService || f == SystemdTimer) && !Walk(h, b, f).exhausted
    ensures UnitsLooked(Walk(h, b, f).trace, if f == SystemdService then ".service" else ".timer", IsAbsent(h, b, f))
  {
    var suffix := if f == SystemdService then ".service" else ".timer";
    var first := First(f);
    assert first[0] == ListDir("/etc/systemd/system", UnitDir(suffix));
    assert first[1] == ListDir("/usr/lib/systemd/system", UnitDir(suffix));
    assert first[2] == ListDir("/lib/systemd/system", UnitDir(suffix));
    UnitsIn(h, b, f, "/etc/systemd/system", suffix);
    UnitsIn(h, b, f, "/usr/lib/systemd/system", suffix);
    UnitsIn(h, b, f, "/lib/systemd/system", suffix);
  }

  // -------------------------------------------------------------------------- drop-ins

  ghost predicate DropinOpened(trace: seq<Event>, dir: string, absent: bool) {
    exists e :: e in trace && ListingOf(e, dir, absent)
      && forall path :: path in Shown(e.answer) && EndsWith(path, ".conf") ==> Opened(trace, path, absent)
  }

  ghost predicate DropinsOpened(trace: seq<Event>, root: string, absent: bool) {
    exists e :: e in trace && ListingOf(e, root, absent)
      && forall dir :: dir in Shown(e.answer) && (EndsWith(dir, ".service.d") || EndsWith(dir, ".timer.d")) ==>
           DropinOpened(trace, dir, absent)
  }

  ghost predicate DropinsLooked(trace: seq<Event>, absent: bool) {
    && DropinsOpened(trace, "/etc/systemd/system", absent)
    && DropinsOpened(trace, "/usr/lib/systemd/system", absent)
    && DropinsOpened(trace, "/lib/systemd/system", absent)
  }

  lemma {:induction false} DropinListed(entries: seq<string>, dir: string)
    requires dir in entries && (EndsWith(dir, ".service.d") || EndsWith(dir, ".timer.d"))
    ensures ListDir(dir, DropinDir(RemoveSuffix(Basename(dir), ".d"))) in DropinLists(entries)
  {
    if entries[0] != dir {
      DropinListed(entries[1..], dir);
    }
  }

  lemma DropinLooked(trace: seq<Event>, e: Event, absent: bool)
    requires Followed(trace, 0) && AllSettled(trace, absent) && e in trace && e.task.ListDir? && e.task.role.DropinDir?
    ensures DropinOpened(trace, e.task.dir, absent)
  {
    assert Settled(e, absent);
    ListIsSettled(e, absent);
    forall path | path in Shown(e.answer) && EndsWith(path, ".conf") ensures Opened(trace, path, absent) {
      EndingHas(e.answer.entries, ".conf", path);
      SpawnedReads(trace, e, Ending(e.answer.entries, ".conf"), Dropin(e.task.role.unit), path, absent);
    }
  }

  lemma DropinRootLooked(trace: seq<Event>, root: string, absent: bool)
    requires Followed(trace, 0) && AllSettled(trace, absent) && Done(ListDir(root, DropinRoot), trace)
    ensures DropinsOpened(trace, root, absent)
  {
    var e := DoneBy(trace, ListDir(root, DropinRoot));
    ListIsSettled(e, absent);
    forall dir | dir in Shown(e.answer) && (EndsWith(dir, ".service.d") || EndsWith(dir, ".timer.d"))
      ensures DropinOpened(trace, dir, absent)
    {
      DropinListed(e.answer.entries, dir);
      var listing := Spawned(trace, e, ListDir(dir, DropinDir(RemoveSuffix(Basename(dir), ".d"))));
      DropinLooked(trace, listing, absent);
    }
  }

  lemma DropinsIn(h: Host, b: Budget, root: string)
    requires !Walk(h, b, SystemdDropin).exhausted && ListDir(root, DropinRoot) in First(SystemdDropin)
    ensures DropinsOpened(Walk(h, b, SystemdDropin).trace, root, IsAbsent(h, b, SystemdDropin))
  {
    WalkSettled(h, b, SystemdDropin);
    LookedEverywhere(h, b, SystemdDropin);
    DropinRootLooked(Walk(h, b, SystemdDropin).trace, root, IsAbsent(h, b, SystemdDropin));
  }

  lemma DropinsLook(h: Host, b: Budget)
    requires !Walk(h, b, SystemdDropin).exhausted
    ensures DropinsLooked(Walk(h, b, SystemdDropin).trace, IsAbsent(h, b, SystemdDropin))
  {
    var first := First(SystemdDropin);
    assert first[0] == ListDir("/etc/systemd/system", DropinRoot);
    assert first[1] == ListDir("/usr/lib/systemd/system", DropinRoot);
    assert first[2] == ListDir("/lib/systemd/system", DropinRoot);
    DropinsIn(h, b, "/etc/systemd/system");
    DropinsIn(h, b, "/usr/lib/systemd/system");
    DropinsIn(h, b, "/lib/systemd/system");
  }

  // --------------------------------------------------------------------------- compose

  /** One of the four file names a project is read for, behind whatever directory. */
  predicate ProjectFile(path: string) {
    Called(path, "docker-compose.yml") || Called(path, "docker-compose.yaml") || Called(path, "compose.yml") || Called(path, ".env")
  }

  predicate Called(path: string, name: string) {
    path == name || EndsWith(path, "/" + name)
  }

  ghost predicate ProjectOpened(trace: seq<Event>, dir: string, absent: bool) {
    exists e :: e in trace && ListingOf(e, dir, absent)
      && forall path :: path in Shown(e.answer) && ProjectFile(path) ==> Opened(trace, path, absent)
  }

  ghost predicate ProjectsOpened(trace: seq<Event>, root: string, absent: bool) {
    exists e :: e in trace && ListingOf(e, root, absent)
      && forall dir :: dir in Shown(e.answer) ==> ProjectOpened(trace, dir, absent)
  }

  ghost predicate ComposeLooked(trace: seq<Event>, absent: bool) {
    && ProjectsOpened(trace, "/etc/docker/compose", absent)
    && ProjectsOpened(trace, "/opt/compose", absent)
    && ProjectsOpened(trace, "/srv/compose", absent)
  }

  /** The last part of a path is what stands behind its last slash. */
  lemma {:induction false} BasenameIs(path: string, name: string)
    requires EndsWith(path, "/" + name) && '/' !in name
    ensures Basename(path) == name
  {
    var n := |path| - |name|;
    assert path[n - 1..] == "/" + name && path[n..] == name;
    if name != "" {
      var shorter, last := name[..|name| - 1], name[|name| - 1];
      assert path[|path| - 1] == last && last in name;
      assert path[..|path| - 1][n - 1..] == "/" + shorter;
      BasenameIs(path[..|path| - 1], shorter);
      assert name == shorter + [last];
    } else {
      assert path[|path| - 1] == '/';
    }
  }

  lemma ProjectFileNamed(path: string)
    requires ProjectFile(path)
    ensures ComposeName(Basename(path))
  {
    if Called(path, "docker-compose.yml") {
      CalledIs(path, "docker-compose.yml");
    } else if Called(path, "docker-compose.yaml") {
      CalledIs(path, "docker-compose.yaml");
    } else if Called(path, "compose.yml") {
      CalledIs(path, "compose.yml");
    } else {
      CalledIs(path, ".env");
    }
  }

  lemma CalledIs(path: string, name: string)
    requires Called(path, name) && '/' !in name
    ensures Basename(path) == name
  {
    if path == name {
      BasenameOfWord(name);
    } else {
      BasenameIs(path, name);
    }
  }

  lemma {:induction false} BasenameOfWord(name: string)
    requires '/' !in name
    ensures Basename(name) == name
  {
    if name != "" {
      var shorter, last := name[..|name| - 1], name[|name| - 1];
      assert last in name;
      BasenameOfWord(shorter);
      assert name == shorter + [last];
    }
  }

  lemma {:induction false} ComposeHas(paths: seq<string>, project: string, path: string)
    requires path in paths && ComposeName(Basename(path))
    ensures ReadFile(path, false, ComposeFile(project)) in ComposeReads(paths, project)
  {
    if paths[0] != path {
      ComposeHas(paths[1..], project, path);
    }
  }

  lemma ProjectLooked(trace: seq<Event>, e: Event, absent: bool)
    requires Followed(trace, 0) && AllSettled(trace, absent) && e in trace && e.task.ListDir? && e.task.role.ComposeProject?
    ensures ProjectOpened(trace, e.task.dir, absent)
  {
    assert Settled(e, absent);
    ListIsSettled(e, absent);
    forall path | path in Shown(e.answer) && ProjectFile(path) ensures Opened(trace, path, absent) {
      ProjectFileNamed(path);
      ProjectReadDone(trace, e, path, absent);
    }
  }

  lemma ProjectReadDone(trace: seq<Event>, e: Event, path: string, absent: bool)
    requires Followed(trace, 0) && AllSettled(trace, absent) && e in trace && e.task.ListDir? && e.task.role.ComposeProject?
    requires path in Shown(e.answer) && ComposeName(Basename(path))
    ensures Opened(trace, path, absent)
  {
    ComposeHas(e.answer.entries, e.task.role.project, path);
    var read := Spawned(trace, e, ReadFile(path, false, ComposeFile(e.task.role.project)));
    ReadIsOpened(trace, read, absent);
  }

  lemma ComposeRootLooked(trace: seq<Event>, root: string, absent: bool)
    requires Followed(trace, 0) && AllSettled(trace, absent) && Done(ListDir(root, ComposeRoot), trace)
    ensures ProjectsOpened(trace, root, absent)
  {
    var e := DoneBy(trace, ListDir(root, ComposeRoot));
    ListIsSettled(e, absent);
    forall dir | dir in Shown(e.answer) ensures ProjectOpened(trace, dir, absent) {
      var k :| 0 <= k < |e.answer.entries| && e.answer.entries[k] == dir;
      assert ProjectLists(e.answer.entries)[k] == ListDir(dir, ComposeProject(dir));
      var listing := Spawned(trace, e, ListDir(dir, ComposeProject(dir)));
      ProjectLooked(trace, listing, absent);
    }
  }

  lemma ProjectsIn(h: Host, b: Budget, root: string)
    requires !Walk(h, b, Compose).exhausted && ListDir(root, ComposeRoot) in First(Compose)
    ensures ProjectsOpened(Walk(h, b, Compose).trace, root, IsAbsent(h, b, Compose))
  {
    WalkSettled(h, b, Compose);
    LookedEverywhere(h, b, Compose);
    ComposeRootLooked(Walk(h, b, Compose).trace, root, IsAbsent(h, b, Compose));
  }

  lemma ComposeLooks(h: Host, b: Budget)
    requires !Walk(h, b, Compose).exhausted
    ensures ComposeLooked(Walk(h, b, Compose).trace, IsAbsent(h, b, Compose))
  {
    var first := First(Compose);
    assert first[0] == ListDir("/etc/docker/compose", ComposeRoot) && first[1] == ListDir("/opt/compose", ComposeRoot);
    assert first[2] == ListDir("/srv/compose", ComposeRoot);
    ProjectsIn(h, b, "/etc/docker/compose");
    ProjectsIn(h, b, "/opt/compose");
    ProjectsIn(h, b, "/srv/compose");
  }

  // --------------------------------------------------------------------------- runners

  /** The runner's file was looked for, and behind ABSENT it is not there. */
  ghost predicate RunnerLookedFor(trace: seq<Event>, path: string, absent: bool) {
    exists e :: e in trace && ReadingOf(e, path) && (absent ==> e.answer == NotThere)
  }

  ghost predicate RunnersLooked(trace: seq<Event>, absent: bool) {
    && RunnerLookedFor(trace, "/etc/gitlab-runner/config.toml", absent)
    && RunnerLookedFor(trace, "/etc/actions-runner/.env", absent)
  }

  lemma RunnerLooked(trace: seq<Event>, path: string, absent: bool)
    requires AllSettled(trace, absent) && Done(ReadFile(path, true, Runner), trace)
    ensures RunnerLookedFor(trace, path, absent)
  {
    var e := DoneBy(trace, ReadFile(path, true, Runner));
    assert Settled(e, absent) && ReadingOf(e, path);
  }

  lemma RunnersLook(h: Host, b: Budget)
    requires !Walk(h, b, CiRunner).exhausted
    ensures RunnersLooked(Walk(h, b, CiRunner).trace, IsAbsent(h, b, CiRunner))
  {
    var trace, absent := Walk(h, b, CiRunner).trace, IsAbsent(h, b, CiRunner);
    WalkSettled(h, b, CiRunner);
    LookedEverywhere(h, b, CiRunner);
    var first := First(CiRunner);
    assert first[0] == ReadFile("/etc/gitlab-runner/config.toml", true, Runner);
    assert first[1] == ReadFile("/etc/actions-runner/.env", true, Runner);
    RunnerLooked(trace, "/etc/gitlab-runner/config.toml", absent);
    RunnerLooked(trace, "/etc/actions-runner/.env", absent);
  }

  // ------------------------------------------------------------------------- programs

  predicate RunOf(e: Event, argv: seq<string>) {
    e.task.RunProgram? && e.task.argv == argv
  }

  /** The program was run, and behind ABSENT it answered and its output is silent. */
  ghost predicate Inspected(trace: seq<Event>, argv: seq<string>, absent: bool) {
    exists e :: e in trace && RunOf(e, argv) && (absent ==> Quiet(e.answer))
  }

  ghost predicate JobsLooked(trace: seq<Event>, absent: bool) {
    exists e :: e in trace && RunOf(e, ["atq"]) && (absent ==> e.answer.Given?)
      && (e.answer.Given? ==> forall job :: job in e.answer.text.jobs ==> Inspected(trace, ["at", "-c", job], absent))
  }

  ghost predicate ContainersLooked(trace: seq<Event>, absent: bool) {
    exists e :: e in trace && RunOf(e, ["docker", "ps", "-a", "--no-trunc", "--format", "{{.ID}} {{.Names}}"])
      && (absent ==> e.answer.Given?)
      && (e.answer.Given? ==> forall c :: c in e.answer.text.containers ==> Inspected(trace, ["docker", "inspect", c.0], absent))
  }

  lemma JobsLook(h: Host, b: Budget)
    requires !Walk(h, b, At).exhausted
    ensures JobsLooked(Walk(h, b, At).trace, IsAbsent(h, b, At))
  {
    var trace, absent := Walk(h, b, At).trace, IsAbsent(h, b, At);
    WalkSettled(h, b, At);
    LookedEverywhere(h, b, At);
    var ask := RunProgram(["atq"], false, AtQueue);
    assert First(At)[0] == ask;
    var e := DoneBy(trace, ask);
    assert Settled(e, absent) && RunOf(e, ["atq"]);
    if e.answer.Given? {
      JobsShown(trace, e, absent);
    }
  }

  lemma JobsShown(trace: seq<Event>, e: Event, absent: bool)
    requires Followed(trace, 0) && AllSettled(trace, absent) && e in trace
    requires e.task.RunProgram? && e.task.role == AtQueue && e.answer.Given?
    ensures forall job :: job in e.answer.text.jobs ==> Inspected(trace, ["at", "-c", job], absent)
  {
    var jobs := e.answer.text.jobs;
    forall job | job in jobs ensures Inspected(trace, ["at", "-c", job], absent) {
      var k :| 0 <= k < |jobs| && jobs[k] == job;
      var show := RunProgram(["at", "-c", job], true, AtJob(job));
      assert JobRuns(jobs)[k] == show;
      var shown := Spawned(trace, e, show);
      assert Settled(shown, absent) && RunOf(shown, ["at", "-c", job]);
    }
  }

  lemma ContainersLook(h: Host, b: Budget)
    requires !Walk(h, b, Docker).exhausted
    ensures ContainersLooked(Walk(h, b, Docker).trace, IsAbsent(h, b, Docker))
  {
    var trace, absent := Walk(h, b, Docker).trace, IsAbsent(h, b, Docker);
    WalkSettled(h, b, Docker);
    LookedEverywhere(h, b, Docker);
    var ask := RunProgram(DOCKER_PS, false, DockerList);
    assert First(Docker)[0] == ask;
    var e := DoneBy(trace, ask);
    assert Settled(e, absent) && RunOf(e, ["docker", "ps", "-a", "--no-trunc", "--format", "{{.ID}} {{.Names}}"]);
    if e.answer.Given? {
      ContainersShown(trace, e, absent);
    }
  }

  lemma ContainersShown(trace: seq<Event>, e: Event, absent: bool)
    requires Followed(trace, 0) && AllSettled(trace, absent) && e in trace
    requires e.task.RunProgram? && e.task.role == DockerList && e.answer.Given?
    ensures forall c :: c in e.answer.text.containers ==> Inspected(trace, ["docker", "inspect", c.0], absent)
  {
    var containers := e.answer.text.containers;
    forall c | c in containers ensures Inspected(trace, ["docker", "inspect", c.0], absent) {
      var k :| 0 <= k < |containers| && containers[k] == c;
      var inspect := RunProgram(["docker", "inspect", c.0], true, DockerInspect(c.1));
      assert Inspections(containers)[k] == inspect;
      var shown := Spawned(trace, e, inspect);
      assert Settled(shown, absent) && RunOf(shown, ["docker", "inspect", c.0]);
    }
  }

  // --------------------------------------------------------------------------- tables

  /** What a package manager or an editor leaves behind, which neither `cron` nor the census reads. */
  predicate Backup(path: string) {
    EndsWith(path, ".dpkg-old") || EndsWith(path, ".dpkg-dist") || EndsWith(path, ".rpmsave") || EndsWith(path, "~")
  }

  predicate QuietTable(a: Answer) {
    Quiet(a) && a.text.dynamicLines == 0
  }

  /** A discovered table was opened, the named one looked for; behind ABSENT the text is silent and no line
      of it runs what cannot be seen. */
  ghost predicate TableOpened(trace: seq<Event>, path: string, named: string, absent: bool) {
    exists e :: e in trace && ReadingOf(e, path)
      && (absent ==> QuietTable(e.answer) || (path == named && e.answer == NotThere))
  }

  ghost predicate TablesOpened(trace: seq<Event>, dir: string, named: string, absent: bool) {
    exists e :: e in trace && ListingOf(e, dir, absent)
      && forall path :: path in Shown(e.answer) && !Backup(path) ==> TableOpened(trace, path, named, absent)
  }

  ghost predicate CronLooked(trace: seq<Event>, absent: bool) {
    && TableOpened(trace, "/etc/crontab", "/etc/crontab", absent)
    && TablesOpened(trace, "/etc/cron.d", "/etc/crontab", absent)
    && TablesOpened(trace, "/var/spool/cron/crontabs", "/etc/crontab", absent)
    && TablesOpened(trace, "/var/spool/cron", "/etc/crontab", absent)
  }

  ghost predicate AnacronLooked(trace: seq<Event>, absent: bool) {
    && TableOpened(trace, "/etc/anacrontab", "/etc/anacrontab", absent)
    && TablesOpened(trace, "/etc/cron.daily", "/etc/anacrontab", absent)
    && TablesOpened(trace, "/etc/cron.weekly", "/etc/anacrontab", absent)
    && TablesOpened(trace, "/etc/cron.monthly", "/etc/anacrontab", absent)
  }

  lemma {:induction false} BasenameBehind(path: string)
    ensures |Basename(path)| <= |path| && path[|path| - |Basename(path)|..] == Basename(path)
  {
    if path != "" && path[|path| - 1] != '/' {
      var shorter := path[..|path| - 1];
      BasenameBehind(shorter);
      var n := |shorter| - |Basename(shorter)|;
      assert path[n..] == shorter[n..] + [path[|path| - 1]];
    }
  }

  lemma BackupName(path: string, suffix: string)
    requires EndsWith(Basename(path), suffix)
    ensures EndsWith(path, suffix)
  {
    BasenameBehind(path);
    var n := |path| - |Basename(path)|;
    assert path[|path| - |suffix|..] == path[n..][|Basename(path)| - |suffix|..];
  }

  lemma KeptTable(path: string)
    requires !Backup(path)
    ensures !Discarded(Basename(path))
  {
    if Discarded(Basename(path)) {
      var suffix :| suffix in {".dpkg-old", ".dpkg-dist", ".rpmsave", "~"} && EndsWith(Basename(path), suffix);
      BackupName(path, suffix);
    }
  }

  lemma {:induction false} TableReadsHave(paths: seq<string>, named: seq<string>, path: string)
    requires path in paths && !Backup(path)
    ensures ReadFile(path, path in named, Table) in TableReads(paths, named)
  {
    if paths[0] == path {
      KeptTable(path);
    } else {
      TableReadsHave(paths[1..], named, path);
    }
  }

  lemma {:induction false} EntriesHave(trace: seq<Event>, e: Event, path: string)
    requires e in trace && path in Shown(e.answer)
    ensures path in EntriesIn(trace)
  {
    if trace[|trace| - 1] != e {
      EntriesHave(trace[..|trace| - 1], e, path);
    }
  }

  lemma TableIsOpened(trace: seq<Event>, t: Task, named: string, absent: bool)
    requires AllSettled(trace, absent) && Done(t, trace)
    requires t.ReadFile? && t.role == Table && (t.optional ==> t.path == named)
    ensures TableOpened(trace, t.path, named, absent)
  {
    var e := DoneBy(trace, t);
    assert Settled(e, absent) && ReadingOf(e, t.path);
  }

  /** The first pass of a crontab-shaped family did every listing, and the second read what they showed. */
  lemma TablesDone(h: Host, b: Budget, f: Family)
    requires Tabular(f) && !Walk(h, b, f).exhausted
    ensures Listing(h, b, f).trace <= Walk(h, b, f).trace
    ensures forall t :: t in First(f) ==> Done(t, Listing(h, b, f).trace)
    ensures forall t :: t in SecondTasks(f, Listing(h, b, f)) ==> Done(t, Walk(h, b, f).trace)
  {
    LookedEverywhere(h, b, f);
    var listed := Listing(h, b, f);
    ExhaustionStays(h, b, f, SecondTasks(f, listed), listed);
    ListingDone(h, b, f);
    SecondPassExtends(h, b, f, SecondTasks(f, listed), listed);
  }

  lemma ListingDone(h: Host, b: Budget, f: Family)
    requires !Listing(h, b, f).exhausted
    ensures forall t :: t in First(f) ==> Done(t, Listing(h, b, f).trace)
  {
    var script := AllIsReplay(h, b, f, First(f), FRESH);
    ReplayAccounted(h, b, f, script, FRESH);
    AllFollow(h, b, f, First(f), FRESH);
  }

  lemma SecondPassExtends(h: Host, b: Budget, f: Family, tasks: seq<Task>, s: State)
    ensures s.trace <= RunAll(h, b, f, tasks, s).trace
  {
    var script := AllIsReplay(h, b, f, tasks, s);
    ReplayExtends(h, b, f, script, s);
  }

  lemma TableDirectoryLooked(h: Host, b: Budget, f: Family, dir: string, named: string)
    requires Tabular(f) && !Walk(h, b, f).exhausted && NamedFiles(f) == [named]
    requires ListDir(dir, TableDir) in First(f)
    ensures TablesOpened(Walk(h, b, f).trace, dir, named, IsAbsent(h, b, f))
  {
    var trace, absent := Walk(h, b, f).trace, IsAbsent(h, b, f);
    WalkSettled(h, b, f);
    TablesDone(h, b, f);
    var listed := Listing(h, b, f);
    var e := DoneBy(listed.trace, ListDir(dir, TableDir));
    assert e in trace && Settled(e, absent);
    ListIsSettled(e, absent);
    forall path | path in Shown(e.answer) && !Backup(path) ensures TableOpened(trace, path, named, absent) {
      EntriesHave(listed.trace, e, path);
      TableReadsHave(NamedFiles(f) + EntriesIn(listed.trace), NamedFiles(f), path);
      TableIsOpened(trace, ReadFile(path, path in NamedFiles(f), Table), named, absent);
    }
  }

  lemma NamedTableLooked(h: Host, b: Budget, f: Family, named: string)
    requires Tabular(f) && !Walk(h, b, f).exhausted && NamedFiles(f) == [named] && !Backup(named)
    ensures TableOpened(Walk(h, b, f).trace, named, named, IsAbsent(h, b, f))
  {
    WalkSettled(h, b, f);
    TablesDone(h, b, f);
    var listed := Listing(h, b, f);
    assert (NamedFiles(f) + EntriesIn(listed.trace))[0] == named;
    TableReadsHave(NamedFiles(f) + EntriesIn(listed.trace), NamedFiles(f), named);
    TableIsOpened(Walk(h, b, f).trace, ReadFile(named, true, Table), named, IsAbsent(h, b, f));
  }

  lemma CronLooks(h: Host, b: Budget)
    requires !Walk(h, b, Cron).exhausted
    ensures CronLooked(Walk(h, b, Cron).trace, IsAbsent(h, b, Cron))
  {
    var first := First(Cron);
    assert first[0] == ListDir("/etc/cron.d", TableDir) && first[1] == ListDir("/var/spool/cron/crontabs", TableDir);
    assert first[2] == ListDir("/var/spool/cron", TableDir);
    NamedTableLooked(h, b, Cron, "/etc/crontab");
    TableDirectoryLooked(h, b, Cron, "/etc/cron.d", "/etc/crontab");
    TableDirectoryLooked(h, b, Cron, "/var/spool/cron/crontabs", "/etc/crontab");
    TableDirectoryLooked(h, b, Cron, "/var/spool/cron", "/etc/crontab");
  }

  lemma AnacronLooks(h: Host, b: Budget)
    requires !Walk(h, b, Anacron).exhausted
    ensures AnacronLooked(Walk(h, b, Anacron).trace, IsAbsent(h, b, Anacron))
  {
    var first := First(Anacron);
    assert first[0] == ListDir("/etc/cron.daily", TableDir) && first[1] == ListDir("/etc/cron.weekly", TableDir);
    assert first[2] == ListDir("/etc/cron.monthly", TableDir);
    NamedTableLooked(h, b, Anacron, "/etc/anacrontab");
    TableDirectoryLooked(h, b, Anacron, "/etc/cron.daily", "/etc/anacrontab");
    TableDirectoryLooked(h, b, Anacron, "/etc/cron.weekly", "/etc/anacrontab");
    TableDirectoryLooked(h, b, Anacron, "/etc/cron.monthly", "/etc/anacrontab");
  }

  // -------------------------------------------------------------------- every family

  /** Where each family looks. */
  ghost predicate FamilyLooked(f: Family, trace: seq<Event>, absent: bool) {
    match f
    case SystemdService => UnitsLooked(trace, ".service", absent)
    case SystemdTimer => UnitsLooked(trace, ".timer", absent)
    case SystemdDropin => DropinsLooked(trace, absent)
    case Cron => CronLooked(trace, absent)
    case Anacron => AnacronLooked(trace, absent)
    case At => JobsLooked(trace, absent)
    case Docker => ContainersLooked(trace, absent)
    case Compose => ComposeLooked(trace, absent)
    case CiRunner => RunnersLooked(trace, absent)
    case ScriptFamily => ScriptsLooked(trace, absent)
    case AgentFamily => AgentsLooked(trace, absent)
  }

  /** Every family whose budget did not cut it looked in all of its places, opened all it found there and
      ran all its programs; and if it is ABSENT, every listing was whole and every answer silent. */
  lemma EveryFamilyLooks(h: Host, b: Budget, f: Family)
    requires !Walk(h, b, f).exhausted
    ensures FamilyLooked(f, Walk(h, b, f).trace, IsAbsent(h, b, f))
  {
    match f
    case SystemdService => UnitsLook(h, b, f);
    case SystemdTimer => UnitsLook(h, b, f);
    case SystemdDropin => DropinsLook(h, b);
    case Cron => CronLooks(h, b);
    case Anacron => AnacronLooks(h, b);
    case At => JobsLook(h, b);
    case Docker => ContainersLook(h, b);
    case Compose => ComposeLooks(h, b);
    case CiRunner => RunnersLook(h, b);
    case ScriptFamily => ScriptsLook(h, b);
    case AgentFamily => AgentsLook(h, b);
  }

  /** So behind ABSENT nothing was left unopened, in any family. */
  lemma AbsentLooked(h: Host, b: Budget, f: Family)
    requires OutcomeOf(f, Walk(h, b, f)).scan.Verdict() == ABSENT
    ensures FamilyLooked(f, Walk(h, b, f).trace, true)
  {
    EveryFamilyLooks(h, b, f);
  }
}
