/** `attribution_enumerators.py`: the ledger, the seam and the eleven enumerators, step by step. Each
    enumerator is proved to be its family's walk. */
module Census {
  import opened Wrappers
  import opened Strings
  import opened CensusRecords
  import opened CensusWalk

  /** `_Ledger`. */
  class Ledger {
    var files: nat
    var readBytes: nat
    var entries: nat
    var errors: seq<ErrorClass>
    var exhausted: bool

    constructor ()
      ensures files == readBytes == entries == 0 && errors == [] && !exhausted
    {
      files, readBytes, entries, errors, exhausted := 0, 0, 0, [], false;
    }

    method NoteError(error: ErrorClass)
      modifies this`errors
      ensures errors == old(errors) + [error]
    {
      errors := errors + [error];
    }

    method SpendFile(b: Budget) returns (ok: bool)
      modifies this`files, this`exhausted
      ensures files == old(files) + 1 && ok == (files <= b.maxFiles)
      ensures exhausted == (old(exhausted) || !ok)
    {
      files := files + 1;
      if files > b.maxFiles {
        exhausted := true;
        return false;
      }
      return true;
    }

    /** `spend_bytes`. What is spent is the length of a text, in characters. */
    method SpendBytes(size: nat, b: Budget) returns (ok: bool)
      modifies this`readBytes, this`exhausted
      ensures readBytes == old(readBytes) + size && ok == (readBytes <= b.maxBytes)
      ensures exhausted == (old(exhausted) || !ok)
    {
      readBytes := readBytes + size;
      if readBytes > b.maxBytes {
        exhausted := true;
        return false;
      }
      return true;
    }
  }

  /** A `HostSource` as one walk meets it: `moment` counts the walk's steps, `trace` is their story. */
  class Source {
    const host: Host
    var moment: nat
    ghost var trace: seq<Event>

    constructor (host: Host)
      ensures this.host == host && Valid() && trace == []
    {
      this.host := host;
      moment, trace := 0, [];
    }

    ghost predicate Valid()
      reads this
    {
      moment == |trace|
    }

    /** One step of the walk is over. */
    method Pass(ghost e: Event)
      requires Valid()
      modifies this`moment, this`trace
      ensures Valid() && trace == old(trace) + [e]
    {
      moment, trace := moment + 1, trace + [e];
    }
  }

  /** The state of a walk whose enumerator holds these objects and has found these consumers. */
  ghost function View(source: Source, ledger: Ledger, consumers: seq<Consumer>): State
    reads source, ledger
  {
    State(
      ledger.files, ledger.readBytes, ledger.entries, ledger.errors, ledger.exhausted, consumers, source.trace, false)
  }

  function TextOf(a: Answer): Option<Text> {
    if a.Given? then Some(a.text) else None
  }

  // ------------------------------------------------------------- the four primitives

  /** `_read`. */
  method Read(source: Source, ledger: Ledger, b: Budget, path: string, optional: bool, ghost role: Role,
      ghost consumers: seq<Consumer>)
    returns (text: Option<Text>)
    requires source.Valid()
    modifies source, ledger
    ensures source.Valid()
    ensures var t := ReadFile(path, optional, role);
            && View(source, ledger, consumers) == Contacted(source.host, b, t, old(View(source, ledger, consumers)))
            && text == TextOf(AnswerTo(source.host, b, t, old(View(source, ledger, consumers))))
  {
    ghost var t := ReadFile(path, optional, role);
    var spent := ledger.SpendFile(b);
    if !spent {
      source.Pass(Event(t, NoFilesLeft));
      return None;
    }
    var outcome := source.host.read(source.moment, path);
    if outcome.Failure? {
      if outcome.code == MissingCode && optional {
        source.Pass(Event(t, NotThere));
        return None;
      }
      ledger.NoteError(Observed(outcome.code));
      source.Pass(Event(t, Broken(outcome.code)));
      return None;
    }
    var within := ledger.SpendBytes(outcome.value.length, b);
    if !within {
      source.Pass(Event(t, NoBytesLeft));
      return None;
    }
    source.Pass(Event(t, Given(outcome.value)));
    return Some(outcome.value);
  }

  /** `_list`. */
  method List(source: Source, ledger: Ledger, b: Budget, dir: string, ghost role: Role, ghost consumers: seq<Consumer>)
    returns (entries: seq<string>)
    requires source.Valid()
    modifies source, ledger
    ensures source.Valid()
    ensures var answer := AnswerTo(source.host, b, ListDir(dir, role), old(View(source, ledger, consumers)));
            && View(source, ledger, consumers)
               == Contacted(source.host, b, ListDir(dir, role), old(View(source, ledger, consumers)))
            && entries == (if answer.Listed? then answer.entries else [])
  {
    ghost var t := ListDir(dir, role);
    var outcome := source.host.list(source.moment, dir);
    if outcome.Failure? {
      if outcome.code == MissingCode {
        source.Pass(Event(t, NotThere));
        return [];
      }
      ledger.NoteError(Observed(outcome.code));
      source.Pass(Event(t, Broken(outcome.code)));
      return [];
    }
    entries := outcome.value;
    if |entries| > b.maxEntries {
      ledger.exhausted := true;
      entries := entries[..b.maxEntries];
      source.Pass(Event(t, Listed(entries, true)));
      return;
    }
    source.Pass(Event(t, Listed(entries, false)));
  }

  /** `_run`. */
  method Run(source: Source, ledger: Ledger, b: Budget, argv: seq<string>, ghost role: Role, ghost consumers: seq<Consumer>)
    returns (text: Option<Text>)
    requires source.Valid()
    modifies source, ledger
    ensures source.Valid()
    ensures var t := RunProgram(argv, false, role);
            && View(source, ledger, consumers) == Contacted(source.host, b, t, old(View(source, ledger, consumers)))
            && text == TextOf(AnswerTo(source.host, b, t, old(View(source, ledger, consumers))))
  {
    ghost var t := RunProgram(argv, false, role);
    var outcome := source.host.run(source.moment, argv);
    if outcome.Failure? {
      ledger.NoteError(Observed(outcome.code));
      source.Pass(Event(t, Broken(outcome.code)));
      return None;
    }
    source.Pass(Event(t, Given(outcome.value)));
    return Some(outcome.value);
  }

  /** `spend_file`, then `_run`, as the two queue families do it. When no file is left the caller breaks
      off. */
  method RunGated(source: Source, ledger: Ledger, b: Budget, argv: seq<string>, ghost role: Role,
      ghost consumers: seq<Consumer>)
    returns (proceed: bool, text: Option<Text>)
    requires source.Valid()
    modifies source, ledger
    ensures source.Valid()
    ensures var t := RunProgram(argv, true, role);
            var after := Contacted(source.host, b, t, old(View(source, ledger, consumers)));
            && View(source, ledger, consumers) == after.(halted := false) && proceed == !after.halted
            && text == TextOf(AnswerTo(source.host, b, t, old(View(source, ledger, consumers))))
  {
    ghost var t := RunProgram(argv, true, role);
    var spent := ledger.SpendFile(b);
    if !spent {
      source.Pass(Event(t, NoFilesLeft));
      return false, None;
    }
    var outcome := source.host.run(source.moment, argv);
    if outcome.Failure? {
      ledger.NoteError(Observed(outcome.code));
      source.Pass(Event(t, Broken(outcome.code)));
      return true, None;
    }
    source.Pass(Event(t, Given(outcome.value)));
    return true, Some(outcome.value);
  }

  /** `_consumers_in`. */
  method ConsumersIn(text: Text, f: Family, owner: Owner, ledger: Ledger) returns (records: seq<Consumer>)
    modifies ledger`errors, ledger`entries
    ensures records == ConsumersOf(f, owner, text)
    ensures ledger.errors == old(ledger.errors) + TextErrors(text)
    ensures ledger.entries == old(ledger.entries) + |records|
  {
    records := [];
    for i := 0 to |text.dsns|
      invariant |records| == i && forall k :: 0 <= k < i ==> records[k] == OfDsn(f, owner, text.dsns[k])
      invariant ledger.errors == old(ledger.errors) + ParseErrors(text.dsns[..i])
      invariant ledger.entries == old(ledger.entries)
    {
      assert text.dsns[..i + 1][..i] == text.dsns[..i];
      if Unparsable(text.dsns[i]) {
        ledger.NoteError(Parse);
      }
      records := records + [OfDsn(f, owner, text.dsns[i])];
    }
    assert text.dsns[..|text.dsns|] == text.dsns;
    if text.variables != map[] && records == [] {
      if ServiceIndirect(text.variables) {
        ledger.NoteError(Ambiguous);
      }
      records := records + [OfVariables(f, owner, text.variables)];
    }
    ledger.entries := ledger.entries + |records|;
  }

  // ------------------------------------------------------------------- plain files

  /** Files read and searched with nothing more to it. */
  predicate Plain(role: Role) {
    role.EnvironmentFile? || role.Dropin? || role.ComposeFile? || role.SharedEnvironment? || role.Agent?
  }

  /** Search the text a task was given and extend the consumers. */
  method Search(source: Source, ledger: Ledger, f: Family, t: Task, text: Text, consumers: seq<Consumer>)
    returns (extended: seq<Consumer>)
    requires Parsed(t, text) && NotedBy(t, text) == TextErrors(text)
    modifies ledger`errors, ledger`entries
    ensures View(source, ledger, extended) == Absorbed(f, t, text, old(View(source, ledger, consumers)))
  {
    var found := ConsumersIn(text, f, OwnerOf(t, text), ledger);
    extended := consumers + found;
  }

  /** A task that spawns nothing is one step. */
  lemma LeafIsStep(h: Host, b: Budget, f: Family, t: Task, s: State)
    requires Children(t, AnswerTo(h, b, t, s)) == []
    ensures RunOne(h, b, f, t, s) == Stepped(h, b, f, t, s)
  {
  }

  lemma PlainIsLeaf(path: string, optional: bool, role: Role, a: Answer)
    requires Plain(role)
    ensures Children(ReadFile(path, optional, role), a) == []
    ensures a.Given? ==> Parsed(ReadFile(path, optional, role), a.text)
    ensures a.Given? ==> NotedBy(ReadFile(path, optional, role), a.text) == TextErrors(a.text)
  {
  }

  /** The body the file loops share: read, and if there is a text extend the consumers. */
  method VisitFile(source: Source, ledger: Ledger, b: Budget, f: Family, path: string, optional: bool, role: Role,
      consumers: seq<Consumer>)
    returns (extended: seq<Consumer>)
    requires source.Valid() && Plain(role)
    modifies source, ledger
    ensures source.Valid()
    ensures View(source, ledger, extended)
         == RunOne(source.host, b, f, ReadFile(path, optional, role), old(View(source, ledger, consumers)))
  {
    ghost var t := ReadFile(path, optional, role);
    ghost var before := View(source, ledger, consumers);
    PlainIsLeaf(path, optional, role, AnswerTo(source.host, b, t, before));
    LeafIsStep(source.host, b, f, t, before);
    var text := Read(source, ledger, b, path, optional, role, consumers);
    extended := consumers;
    if text.Some? {
      extended := Search(source, ledger, f, ReadFile(path, optional, role), text.value, consumers);
    }
  }

  /** One more task of a list done. */
  lemma RunAllStep(h: Host, b: Budget, f: Family, tasks: seq<Task>, s: State)
    requires tasks != [] && !s.halted
    ensures RunAll(h, b, f, tasks, s) == RunAll(h, b, f, tasks[1..], RunOne(h, b, f, tasks[0], s))
  {
  }

  method VisitFiles(source: Source, ledger: Ledger, b: Budget, f: Family, paths: seq<string>, role: Role,
      consumers: seq<Consumer>)
    returns (extended: seq<Consumer>)
    requires source.Valid() && Plain(role)
    modifies source, ledger
    ensures source.Valid()
    ensures View(source, ledger, extended)
         == RunAll(source.host, b, f, Reads(paths, role), old(View(source, ledger, consumers)))
  {
    extended := consumers;
    ghost var done := RunAll(source.host, b, f, Reads(paths, role), View(source, ledger, consumers));
    assert paths[0..] == paths;
    for i := 0 to |paths|
      invariant source.Valid()
      invariant RunAll(source.host, b, f, Reads(paths[i..], role), View(source, ledger, extended)) == done
    {
      RunAllStep(source.host, b, f, Reads(paths[i..], role), View(source, ledger, extended));
      assert Reads(paths[i..], role)[1..] == Reads(paths[i + 1..], role);
      extended := VisitFile(source, ledger, b, f, paths[i], false, role, extended);
    }
  }

  lemma OptionalReadsStep(paths: seq<string>, i: nat, role: Role)
    requires i < |paths|
    ensures OptionalReads(paths[i..], role) != [] && OptionalReads(paths[i..], role)[0] == ReadFile(paths[i], true, role)
    ensures OptionalReads(paths[i..], role)[1..] == OptionalReads(paths[i + 1..], role)
  {
  }

  method VisitOptional(source: Source, ledger: Ledger, b: Budget, f: Family, paths: seq<string>, role: Role,
      consumers: seq<Consumer>)
    returns (extended: seq<Consumer>)
    requires source.Valid() && Plain(role)
    modifies source, ledger
    ensures source.Valid()
    ensures View(source, ledger, extended)
         == RunAll(source.host, b, f, OptionalReads(paths, role), old(View(source, ledger, consumers)))
  {
    extended := consumers;
    ghost var done := RunAll(source.host, b, f, OptionalReads(paths, role), View(source, ledger, consumers));
    assert paths[0..] == paths;
    for i := 0 to |paths|
      invariant source.Valid()
      invariant RunAll(source.host, b, f, OptionalReads(paths[i..], role), View(source, ledger, extended)) == done
    {
      OptionalReadsStep(paths, i, role);
      RunAllStep(source.host, b, f, OptionalReads(paths[i..], role), View(source, ledger, extended));
      extended := VisitFile(source, ledger, b, f, paths[i], true, role, extended);
    }
  }

  /** `_outcome`, of a family that was attempted. */
  method Assemble(f: Family, ledger: Ledger, consumers: seq<Consumer>) returns (outcome: FamilyOutcome)
    ensures outcome == FamilyOutcome(FamilyScan(f, true, !ledger.exhausted, ledger.errors, |consumers|), consumers)
  {
    outcome := FamilyOutcome(FamilyScan(f, true, !ledger.exhausted, ledger.errors, |consumers|), consumers);
  }

  // ------------------------------------------------------------------- systemd units

  /** One unit: its own text, the environment files it loads, and a note if its program is a variable. */
  method UnitFile(source: Source, ledger: Ledger, b: Budget, f: Family, path: string, consumers: seq<Consumer>)
    returns (extended: seq<Consumer>)
    requires source.Valid()
    modifies source, ledger
    ensures source.Valid()
    ensures View(source, ledger, extended)
         == RunOne(source.host, b, f, ReadFile(path, false, Unit), old(View(source, ledger, consumers)))
  {
    ghost var before := View(source, ledger, consumers);
    var text := Read(source, ledger, b, path, false, Unit, consumers);
    if text.None? {
      LeafIsStep(source.host, b, f, ReadFile(path, false, Unit), before);
      return consumers;
    }
    extended := Search(source, ledger, f, ReadFile(path, false, Unit), text.value, consumers);
    extended := UnitReferences(source, ledger, b, f, path, text.value, extended);
  }

  method UnitReferences(source: Source, ledger: Ledger, b: Budget, f: Family, path: string, text: Text,
      consumers: seq<Consumer>)
    returns (extended: seq<Consumer>)
    requires source.Valid()
    modifies source, ledger
    ensures source.Valid()
    ensures View(source, ledger, extended)
         == RunAll(source.host, b, f, Children(ReadFile(path, false, Unit), Given(text)), old(View(source, ledger, consumers)))
  {
    ghost var before := View(source, ledger, consumers);
    var role := EnvironmentFile(Basename(path), text.user);
    extended := VisitFiles(source, ledger, b, f, text.environmentFiles, role, consumers);
    if text.variableProgram {
      RunAllAppend(source.host, b, f, Reads(text.environmentFiles, role), Note(Dynamic), before);
      LeafIsStep(source.host, b, f, Note(Dynamic), View(source, ledger, extended));
      ledger.NoteError(Dynamic);
      source.Pass(Event(Note(Dynamic), Noted));
    } else {
      assert Reads(text.environmentFiles, role) + [] == Reads(text.environmentFiles, role);
    }
  }

  lemma {:induction false} RunAllAppend(h: Host, b: Budget, f: Family, tasks: seq<Task>, last: Task, s: State)
    requires !RunAll(h, b, f, tasks, s).halted
    ensures RunAll(h, b, f, tasks + [last], s) == RunOne(h, b, f, last, RunAll(h, b, f, tasks, s))
    decreases |tasks|
  {
    if tasks == [] {
      RunAllStep(h, b, f, [last], s);
    } else if !s.halted {
      RunAllStep(h, b, f, tasks + [last], s);
      RunAllStep(h, b, f, tasks, s);
      assert (tasks + [last])[1..] == tasks[1..] + [last];
      RunAllAppend(h, b, f, tasks[1..], last, RunOne(h, b, f, tasks[0], s));
    }
  }

  method UnitFiles(source: Source, ledger: Ledger, b: Budget, f: Family, entries: seq<string>, suffix: string,
      consumers: seq<Consumer>)
    returns (extended: seq<Consumer>)
    requires source.Valid()
    modifies source, ledger
    ensures source.Valid()
    ensures View(source, ledger, extended)
         == RunAll(source.host, b, f, Reads(Ending(entries, suffix), Unit), old(View(source, ledger, consumers)))
  {
    extended := consumers;
    ghost var done := RunAll(source.host, b, f, Reads(Ending(entries, suffix), Unit), View(source, ledger, consumers));
    assert entries[0..] == entries;
    for i := 0 to |entries|
      invariant source.Valid()
      invariant RunAll(source.host, b, f, Reads(Ending(entries[i..], suffix), Unit), View(source, ledger, extended)) == done
    {
      assert entries[i..][1..] == entries[i + 1..];
      if !EndsWith(entries[i], suffix) {
        assert Ending(entries[i..], suffix) == Ending(entries[i + 1..], suffix);
        continue;
      }
      ReadsOfEnding(entries[i..], suffix, Unit);
      RunAllStep(source.host, b, f, Reads(Ending(entries[i..], suffix), Unit), View(source, ledger, extended));
      extended := UnitFile(source, ledger, b, f, entries[i], extended);
    }
  }

  lemma ReadsOfEnding(paths: seq<string>, suffix: string, role: Role)
    requires paths != [] && EndsWith(paths[0], suffix)
    ensures Reads(Ending(paths, suffix), role)
         == [ReadFile(paths[0], false, role)] + Reads(Ending(paths[1..], suffix), role)
    ensures Reads(Ending(paths, suffix), role)[1..] == Reads(Ending(paths[1..], suffix), role)
  {
  }

  method UnitDirectory(source: Source, ledger: Ledger, b: Budget, f: Family, dir: string, suffix: string,
      consumers: seq<Consumer>)
    returns (extended: seq<Consumer>)
    requires source.Valid()
    modifies source, ledger
    ensures source.Valid()
    ensures View(source, ledger, extended)
         == RunOne(source.host, b, f, ListDir(dir, UnitDir(suffix)), old(View(source, ledger, consumers)))
  {
    ghost var t := ListDir(dir, UnitDir(suffix));
    ghost var before := View(source, ledger, consumers);
    var entries := List(source, ledger, b, dir, UnitDir(suffix), consumers);
    assert Children(t, AnswerTo(source.host, b, t, before)) == Reads(Ending(entries, suffix), Unit);
    extended := UnitFiles(source, ledger, b, f, entries, suffix, consumers);
  }

  /** The walk of a family that only visits directories is over when the last one is. */
  lemma OnePass(h: Host, b: Budget, f: Family)
    requires !Tabular(f)
    ensures Walk(h, b, f) == RunAll(h, b, f, First(f), FRESH)
  {
  }

  /** `_units`. */
  method Units(source: Source, b: Budget, suffix: string, f: Family) returns (outcome: FamilyOutcome)
    requires source.Valid() && source.trace == []
    requires (f == SystemdService && suffix == ".service") || (f == SystemdTimer && suffix == ".timer")
    modifies source
    ensures source.trace == Walk(source.host, b, f).trace
    ensures outcome == OutcomeOf(f, Walk(source.host, b, f))
  {
    var ledger := new Ledger();
    var consumers := [];
    ghost var h := source.host;
    assert UNIT_DIRS[0..] == UNIT_DIRS;
    OnePass(h, b, f);
    for i := 0 to |UNIT_DIRS|
      invariant source.Valid() && fresh(ledger)
      invariant RunAll(h, b, f, Lists(UNIT_DIRS[i..], UnitDir(suffix)), View(source, ledger, consumers)) == Walk(h, b, f)
    {
      RunAllStep(h, b, f, Lists(UNIT_DIRS[i..], UnitDir(suffix)), View(source, ledger, consumers));
      assert Lists(UNIT_DIRS[i..], UnitDir(suffix))[1..] == Lists(UNIT_DIRS[i + 1..], UnitDir(suffix));
      consumers := UnitDirectory(source, ledger, b, f, UNIT_DIRS[i], suffix, consumers);
    }
    outcome := Assemble(f, ledger, consumers);
  }

  // ----------------------------------------------------------------------- drop-ins

  /** The `.conf` files of one drop-in directory. */
  method DropinDirectory(source: Source, ledger: Ledger, b: Budget, f: Family, dir: string, unit: string,
      consumers: seq<Consumer>)
    returns (extended: seq<Consumer>)
    requires source.Valid()
    modifies source, ledger
    ensures source.Valid()
    ensures View(source, ledger, extended)
         == RunOne(source.host, b, f, ListDir(dir, DropinDir(unit)), old(View(source, ledger, consumers)))
  {
    ghost var t := ListDir(dir, DropinDir(unit));
    ghost var before := View(source, ledger, consumers);
    var entries := List(source, ledger, b, dir, DropinDir(unit), consumers);
    assert Children(t, AnswerTo(source.host, b, t, before)) == Reads(Ending(entries, ".conf"), Dropin(unit));
    extended := VisitEnding(source, ledger, b, f, entries, ".conf", Dropin(unit), consumers);
  }

  method VisitEnding(source: Source, ledger: Ledger, b: Budget, f: Family, entries: seq<string>, suffix: string,
      role: Role, consumers: seq<Consumer>)
    returns (extended: seq<Consumer>)
    requires source.Valid() && Plain(role)
    modifies source, ledger
    ensures source.Valid()
    ensures View(source, ledger, extended)
         == RunAll(source.host, b, f, Reads(Ending(entries, suffix), role), old(View(source, ledger, consumers)))
  {
    extended := consumers;
    ghost var done := RunAll(source.host, b, f, Reads(Ending(entries, suffix), role), View(source, ledger, consumers));
    assert entries[0..] == entries;
    for i := 0 to |entries|
      invariant source.Valid()
      invariant RunAll(source.host, b, f, Reads(Ending(entries[i..], suffix), role), View(source, ledger, extended)) == done
    {
      assert entries[i..][1..] == entries[i + 1..];
      if !EndsWith(entries[i], suffix) {
        assert Ending(entries[i..], suffix) == Ending(entries[i + 1..], suffix);
        continue;
      }
      ReadsOfEnding(entries[i..], suffix, role);
      RunAllStep(source.host, b, f, Reads(Ending(entries[i..], suffix), role), View(source, ledger, extended));
      extended := VisitFile(source, ledger, b, f, entries[i], false, role, extended);
    }
  }

  /** The drop-in directories among the entries of a unit directory. */
  method DropinDirectories(source: Source, ledger: Ledger, b: Budget, f: Family, entries: seq<string>,
      consumers: seq<Consumer>)
    returns (extended: seq<Consumer>)
    requires source.Valid()
    modifies source, ledger
    ensures source.Valid()
    ensures View(source, ledger, extended)
         == RunAll(source.host, b, f, DropinLists(entries), old(View(source, ledger, consumers)))
  {
    extended := consumers;
    ghost var done := RunAll(source.host, b, f, DropinLists(entries), View(source, ledger, consumers));
    assert entries[0..] == entries;
    for i := 0 to |entries|
      invariant source.Valid()
      invariant RunAll(source.host, b, f, DropinLists(entries[i..]), View(source, ledger, extended)) == done
    {
      assert entries[i..][1..] == entries[i + 1..];
      if !EndsWith(entries[i], ".service.d") && !EndsWith(entries[i], ".timer.d") {
        assert DropinLists(entries[i..]) == DropinLists(entries[i + 1..]);
        continue;
      }
      var unit := RemoveSuffix(Basename(entries[i]), ".d");
      assert DropinLists(entries[i..]) == [ListDir(entries[i], DropinDir(unit))] + DropinLists(entries[i + 1..]);
      RunAllStep(source.host, b, f, DropinLists(entries[i..]), View(source, ledger, extended));
      extended := DropinDirectory(source, ledger, b, f, entries[i], unit, extended);
    }
  }

  method DropinRootDirectory(source: Source, ledger: Ledger, b: Budget, f: Family, dir: string, consumers: seq<Consumer>)
    returns (extended: seq<Consumer>)
    requires source.Valid()
    modifies source, ledger
    ensures source.Valid()
    ensures View(source, ledger, extended)
         == RunOne(source.host, b, f, ListDir(dir, DropinRoot), old(View(source, ledger, consumers)))
  {
    ghost var t := ListDir(dir, DropinRoot);
    ghost var before := View(source, ledger, consumers);
    var entries := List(source, ledger, b, dir, DropinRoot, consumers);
    assert Children(t, AnswerTo(source.host, b, t, before)) == DropinLists(entries);
    extended := DropinDirectories(source, ledger, b, f, entries, consumers);
  }

  /** `_systemd_dropin`. */
  method Dropins(source: Source, b: Budget) returns (outcome: FamilyOutcome)
    requires source.Valid() && source.trace == []
    modifies source
    ensures source.trace == Walk(source.host, b, SystemdDropin).trace
    ensures outcome == OutcomeOf(SystemdDropin, Walk(source.host, b, SystemdDropin))
  {
    var ledger := new Ledger();
    var consumers := [];
    ghost var h, f := source.host, SystemdDropin;
    assert UNIT_DIRS[0..] == UNIT_DIRS;
    OnePass(h, b, f);
    for i := 0 to |UNIT_DIRS|
      invariant source.Valid() && fresh(ledger)
      invariant RunAll(h, b, f, Lists(UNIT_DIRS[i..], DropinRoot), View(source, ledger, consumers)) == Walk(h, b, f)
    {
      RunAllStep(h, b, f, Lists(UNIT_DIRS[i..], DropinRoot), View(source, ledger, consumers));
      assert Lists(UNIT_DIRS[i..], DropinRoot)[1..] == Lists(UNIT_DIRS[i + 1..], DropinRoot);
      consumers := DropinRootDirectory(source, ledger, b, SystemdDropin, UNIT_DIRS[i], consumers);
    }
    outcome := Assemble(SystemdDropin, ledger, consumers);
  }

  // ------------------------------------------------------------------------- tables

  /** One crontab-shaped file; every scheduled line whose program is a variable is noted. */
  method TableFile(source: Source, ledger: Ledger, b: Budget, f: Family, path: string, optional: bool,
      consumers: seq<Consumer>)
    returns (extended: seq<Consumer>)
    requires source.Valid()
    modifies source, ledger
    ensures source.Valid()
    ensures View(source, ledger, extended)
         == RunOne(source.host, b, f, ReadFile(path, optional, Table), old(View(source, ledger, consumers)))
  {
    ghost var t := ReadFile(path, optional, Table);
    ghost var before := View(source, ledger, consumers);
    LeafIsStep(source.host, b, f, t, before);
    var text := Read(source, ledger, b, path, optional, Table, consumers);
    if text.None? {
      return consumers;
    }
    extended := SearchTable(source, ledger, f, ReadFile(path, optional, Table), text.value, consumers);
  }

  method SearchTable(source: Source, ledger: Ledger, f: Family, t: Task, text: Text, consumers: seq<Consumer>)
    returns (extended: seq<Consumer>)
    requires t.ReadFile? && t.role == Table
    modifies ledger`errors, ledger`entries
    ensures View(source, ledger, extended) == Absorbed(f, t, text, old(View(source, ledger, consumers)))
  {
    var found := ConsumersIn(text, f, OwnerOf(t, text), ledger);
    extended := consumers + found;
    ghost var noted := ledger.errors;
    for i := 0 to text.dynamicLines
      invariant ledger.errors == noted + Times(i, Dynamic)
      invariant ledger.entries == old(ledger.entries) + |found|
    {
      ledger.NoteError(Dynamic);
      assert Times(i + 1, Dynamic) == Times(i, Dynamic) + [Dynamic];
    }
  }

  lemma TableListing(h: Host, b: Budget, f: Family, dir: string, s: State)
    ensures var t := ListDir(dir, TableDir);
            var answer := AnswerTo(h, b, t, s);
            && RunOne(h, b, f, t, s) == Contacted(h, b, t, s)
            && EntriesIn(Contacted(h, b, t, s).trace) == EntriesIn(s.trace) + if answer.Listed? then answer.entries else []
  {
    var t := ListDir(dir, TableDir);
    LeafIsStep(h, b, f, t, s);
    assert Contacted(h, b, t, s).trace[..|s.trace|] == s.trace;
  }

  /** A crontab directory is only listed for now, and its entries join the paths. */
  method TableDirectory(source: Source, ledger: Ledger, b: Budget, f: Family, dir: string, paths: seq<string>,
      ghost named: seq<string>)
    returns (extended: seq<string>)
    requires source.Valid() && paths == named + EntriesIn(source.trace)
    modifies source, ledger
    ensures source.Valid() && extended == named + EntriesIn(source.trace)
    ensures View(source, ledger, []) == RunOne(source.host, b, f, ListDir(dir, TableDir), old(View(source, ledger, [])))
  {
    TableListing(source.host, b, f, dir, View(source, ledger, []));
    var entries := List(source, ledger, b, dir, TableDir, []);
    extended := paths + entries;
  }

  /** List every directory first, collecting the paths. */
  method TablePaths(source: Source, ledger: Ledger, b: Budget, f: Family, named: seq<string>, dirs: seq<string>)
    returns (paths: seq<string>)
    requires source.Valid() && source.trace == []
    modifies source, ledger
    ensures source.Valid()
    ensures View(source, ledger, []) == RunAll(source.host, b, f, Lists(dirs, TableDir), old(View(source, ledger, [])))
    ensures paths == named + EntriesIn(source.trace)
  {
    paths := named;
    ghost var done := RunAll(source.host, b, f, Lists(dirs, TableDir), View(source, ledger, []));
    assert dirs[0..] == dirs;
    for i := 0 to |dirs|
      invariant source.Valid() && paths == named + EntriesIn(source.trace)
      invariant RunAll(source.host, b, f, Lists(dirs[i..], TableDir), View(source, ledger, [])) == done
    {
      RunAllStep(source.host, b, f, Lists(dirs[i..], TableDir), View(source, ledger, []));
      assert Lists(dirs[i..], TableDir)[1..] == Lists(dirs[i + 1..], TableDir);
      paths := TableDirectory(source, ledger, b, f, dirs[i], paths, named);
    }
  }

  /** Then read them, in order. */
  method TableFiles(source: Source, ledger: Ledger, b: Budget, f: Family, paths: seq<string>, named: seq<string>)
    returns (consumers: seq<Consumer>)
    requires source.Valid()
    modifies source, ledger
    ensures source.Valid()
    ensures View(source, ledger, consumers)
         == RunAll(source.host, b, f, TableReads(paths, named), old(View(source, ledger, [])))
  {
    consumers := [];
    ghost var done := RunAll(source.host, b, f, TableReads(paths, named), View(source, ledger, []));
    assert paths[0..] == paths;
    for i := 0 to |paths|
      invariant source.Valid()
      invariant RunAll(source.host, b, f, TableReads(paths[i..], named), View(source, ledger, consumers)) == done
    {
      assert paths[i..][1..] == paths[i + 1..];
      if Discarded(Basename(paths[i])) {
        assert TableReads(paths[i..], named) == TableReads(paths[i + 1..], named);
        continue;
      }
      assert TableReads(paths[i..], named)
          == [ReadFile(paths[i], paths[i] in named, Table)] + TableReads(paths[i + 1..], named);
      RunAllStep(source.host, b, f, TableReads(paths[i..], named), View(source, ledger, consumers));
      consumers := TableFile(source, ledger, b, f, paths[i], paths[i] in named, consumers);
    }
  }

  /** `_tabular`. */
  method Tables(source: Source, b: Budget, f: Family) returns (outcome: FamilyOutcome)
    requires source.Valid() && source.trace == [] && Tabular(f)
    modifies source
    ensures source.trace == Walk(source.host, b, f).trace
    ensures outcome == OutcomeOf(f, Walk(source.host, b, f))
  {
    var ledger := new Ledger();
    var paths := TablePaths(source, ledger, b, f, NamedFiles(f), if f == Cron then CRON_DIRS else ANACRON_DIRS);
    var consumers := TableFiles(source, ledger, b, f, paths, NamedFiles(f));
    outcome := Assemble(f, ledger, consumers);
  }

  // ------------------------------------------------------------------------- queues

  /** One queued job or container: `proceed` is false when no file was left for it. */
  method Inspect(source: Source, ledger: Ledger, b: Budget, f: Family, argv: seq<string>, role: Role,
      consumers: seq<Consumer>)
    returns (proceed: bool, extended: seq<Consumer>)
    requires source.Valid() && (role.AtJob? || role.DockerInspect?)
    modifies source, ledger
    ensures source.Valid()
    ensures var after := RunOne(source.host, b, f, RunProgram(argv, true, role), old(View(source, ledger, consumers)));
            View(source, ledger, extended) == after.(halted := false) && proceed == !after.halted
  {
    ghost var t := RunProgram(argv, true, role);
    ghost var before := View(source, ledger, consumers);
    LeafIsStep(source.host, b, f, t, before);
    var text;
    proceed, text := RunGated(source, ledger, b, argv, role, consumers);
    extended := consumers;
    if text.Some? {
      extended := Search(source, ledger, f, RunProgram(argv, true, role), text.value, consumers);
    }
  }

  /** The jobs of the queue, until no file is left. */
  method QueuedJobs(source: Source, ledger: Ledger, b: Budget, jobs: seq<string>, consumers: seq<Consumer>)
    returns (extended: seq<Consumer>)
    requires source.Valid()
    modifies source, ledger
    ensures source.Valid()
    ensures View(source, ledger, extended)
         == RunAll(source.host, b, At, JobRuns(jobs), old(View(source, ledger, consumers))).(halted := false)
  {
    extended := consumers;
    ghost var done := RunAll(source.host, b, At, JobRuns(jobs), View(source, ledger, consumers));
    assert jobs[0..] == jobs;
    for i := 0 to |jobs|
      invariant source.Valid()
      invariant RunAll(source.host, b, At, JobRuns(jobs[i..]), View(source, ledger, extended)) == done
    {
      RunAllStep(source.host, b, At, JobRuns(jobs[i..]), View(source, ledger, extended));
      assert JobRuns(jobs[i..])[1..] == JobRuns(jobs[i + 1..]);
      var proceed;
      proceed, extended := Inspect(source, ledger, b, At, ["at", "-c", jobs[i]], AtJob(jobs[i]), extended);
      if !proceed {
        return;
      }
    }
  }

  /** `_at`. */
  method AtJobs(source: Source, b: Budget) returns (outcome: FamilyOutcome)
    requires source.Valid() && source.trace == []
    modifies source
    ensures source.trace == Walk(source.host, b, At).trace
    ensures outcome == OutcomeOf(At, Walk(source.host, b, At))
  {
    var ledger := new Ledger();
    QueueWalk(source.host, b, At, RunProgram(["atq"], false, AtQueue));
    var queue := Run(source, ledger, b, ["atq"], AtQueue, []);
    var consumers := [];
    if queue.Some? {
      consumers := QueuedJobs(source, ledger, b, queue.value.jobs, consumers);
    }
    outcome := Assemble(At, ledger, consumers);
  }

  /** A queue family is its first question, whose answer is not searched, and what that spawns. */
  lemma QueueWalk(h: Host, b: Budget, f: Family, t: Task)
    requires First(f) == [t] && t.RunProgram? && (t.role == AtQueue || t.role == DockerList) && !Tabular(f)
    ensures Walk(h, b, f) == RunAll(h, b, f, Children(t, AnswerTo(h, b, t, FRESH)), Contacted(h, b, t, FRESH))
  {
    OnePass(h, b, f);
    RunAllStep(h, b, f, First(f), FRESH);
    QueueStep(h, b, f, t, FRESH);
    assert First(f)[1..] == [];
  }

  lemma QueueStep(h: Host, b: Budget, f: Family, t: Task, s: State)
    requires t.RunProgram? && (t.role == AtQueue || t.role == DockerList)
    ensures Stepped(h, b, f, t, s) == Contacted(h, b, t, s)
  {
    var answer := AnswerTo(h, b, t, s);
    if answer.Given? {
      var after := Contacted(h, b, t, s);
      assert !Parsed(t, answer.text);
      assert after.errors + [] == after.errors && after.consumers + [] == after.consumers;
    }
  }

  method Containers(source: Source, ledger: Ledger, b: Budget, containers: seq<(string, string)>, consumers: seq<Consumer>)
    returns (extended: seq<Consumer>)
    requires source.Valid()
    modifies source, ledger
    ensures source.Valid()
    ensures View(source, ledger, extended)
         == RunAll(source.host, b, Docker, Inspections(containers), old(View(source, ledger, consumers))).(halted := false)
  {
    extended := consumers;
    ghost var done := RunAll(source.host, b, Docker, Inspections(containers), View(source, ledger, consumers));
    assert containers[0..] == containers;
    for i := 0 to |containers|
      invariant source.Valid()
      invariant RunAll(source.host, b, Docker, Inspections(containers[i..]), View(source, ledger, extended)) == done
    {
      RunAllStep(source.host, b, Docker, Inspections(containers[i..]), View(source, ledger, extended));
      assert Inspections(containers[i..])[1..] == Inspections(containers[i + 1..]);
      var (container, name) := containers[i];
      var proceed;
      proceed, extended :=
        Inspect(source, ledger, b, Docker, ["docker", "inspect", container], DockerInspect(name), extended);
      if !proceed {
        return;
      }
    }
  }

  /** `_docker`. */
  method DockerContainers(source: Source, b: Budget) returns (outcome: FamilyOutcome)
    requires source.Valid() && source.trace == []
    modifies source
    ensures source.trace == Walk(source.host, b, Docker).trace
    ensures outcome == OutcomeOf(Docker, Walk(source.host, b, Docker))
  {
    var ledger := new Ledger();
    QueueWalk(source.host, b, Docker, RunProgram(DOCKER_PS, false, DockerList));
    var consumers := ListedContainers(source, ledger, b, DOCKER_PS);
    outcome := Assemble(Docker, ledger, consumers);
  }

  /** The listing of containers and the inspection of each. */
  method ListedContainers(source: Source, ledger: Ledger, b: Budget, argv: seq<string>) returns (consumers: seq<Consumer>)
    requires source.Valid()
    modifies source, ledger
    ensures source.Valid()
    ensures var t, before := RunProgram(argv, false, DockerList), old(View(source, ledger, []));
            var answer := AnswerTo(source.host, b, t, before);
            View(source, ledger, consumers)
            == RunAll(source.host, b, Docker, Children(t, answer), Contacted(source.host, b, t, before)).(halted := false)
  {
    consumers := [];
    var listing := Run(source, ledger, b, argv, DockerList, consumers);
    if listing.Some? {
      consumers := Containers(source, ledger, b, listing.value.containers, consumers);
    }
  }

  // ------------------------------------------------------------------------ compose

  /** The files of one project. */
  method Project(source: Source, ledger: Ledger, b: Budget, f: Family, project: string, consumers: seq<Consumer>)
    returns (extended: seq<Consumer>)
    requires source.Valid()
    modifies source, ledger
    ensures source.Valid()
    ensures View(source, ledger, extended)
         == RunOne(source.host, b, f, ListDir(project, ComposeProject(project)), old(View(source, ledger, consumers)))
  {
    ghost var t := ListDir(project, ComposeProject(project));
    ghost var before := View(source, ledger, consumers);
    var paths := List(source, ledger, b, project, ComposeProject(project), consumers);
    assert Children(t, AnswerTo(source.host, b, t, before)) == ComposeReads(paths, project);
    extended := ProjectFiles(source, ledger, b, f, paths, project, consumers);
  }

  method ProjectFiles(source: Source, ledger: Ledger, b: Budget, f: Family, paths: seq<string>, project: string,
      consumers: seq<Consumer>)
    returns (extended: seq<Consumer>)
    requires source.Valid()
    modifies source, ledger
    ensures source.Valid()
    ensures View(source, ledger, extended)
         == RunAll(source.host, b, f, ComposeReads(paths, project), old(View(source, ledger, consumers)))
  {
    extended := consumers;
    ghost var done := RunAll(source.host, b, f, ComposeReads(paths, project), View(source, ledger, consumers));
    assert paths[0..] == paths;
    for i := 0 to |paths|
      invariant source.Valid()
      invariant RunAll(source.host, b, f, ComposeReads(paths[i..], project), View(source, ledger, extended)) == done
    {
      assert paths[i..][1..] == paths[i + 1..];
      if !ComposeName(Basename(paths[i])) {
        assert ComposeReads(paths[i..], project) == ComposeReads(paths[i + 1..], project);
        continue;
      }
      assert ComposeReads(paths[i..], project)
          == [ReadFile(paths[i], false, ComposeFile(project))] + ComposeReads(paths[i + 1..], project);
      RunAllStep(source.host, b, f, ComposeReads(paths[i..], project), View(source, ledger, extended));
      extended := VisitFile(source, ledger, b, f, paths[i], false, ComposeFile(project), extended);
    }
  }

  method Projects(source: Source, ledger: Ledger, b: Budget, f: Family, projects: seq<string>, consumers: seq<Consumer>)
    returns (extended: seq<Consumer>)
    requires source.Valid()
    modifies source, ledger
    ensures source.Valid()
    ensures View(source, ledger, extended)
         == RunAll(source.host, b, f, ProjectLists(projects), old(View(source, ledger, consumers)))
  {
    extended := consumers;
    ghost var done := RunAll(source.host, b, f, ProjectLists(projects), View(source, ledger, consumers));
    assert projects[0..] == projects;
    for i := 0 to |projects|
      invariant source.Valid()
      invariant RunAll(source.host, b, f, ProjectLists(projects[i..]), View(source, ledger, extended)) == done
    {
      RunAllStep(source.host, b, f, ProjectLists(projects[i..]), View(source, ledger, extended));
      assert ProjectLists(projects[i..])[1..] == ProjectLists(projects[i + 1..]);
      extended := Project(source, ledger, b, f, projects[i], extended);
    }
  }

  method ComposeRootDirectory(source: Source, ledger: Ledger, b: Budget, f: Family, root: string, consumers: seq<Consumer>)
    returns (extended: seq<Consumer>)
    requires source.Valid()
    modifies source, ledger
    ensures source.Valid()
    ensures View(source, ledger, extended)
         == RunOne(source.host, b, f, ListDir(root, ComposeRoot), old(View(source, ledger, consumers)))
  {
    ghost var t := ListDir(root, ComposeRoot);
    ghost var before := View(source, ledger, consumers);
    var projects := List(source, ledger, b, root, ComposeRoot, consumers);
    assert Children(t, AnswerTo(source.host, b, t, before)) == ProjectLists(projects);
    extended := Projects(source, ledger, b, f, projects, consumers);
  }

  /** `_compose`. */
  method ComposeProjects(source: Source, b: Budget) returns (outcome: FamilyOutcome)
    requires source.Valid() && source.trace == []
    modifies source
    ensures source.trace == Walk(source.host, b, Compose).trace
    ensures outcome == OutcomeOf(Compose, Walk(source.host, b, Compose))
  {
    var ledger := new Ledger();
    var consumers := [];
    ghost var h, f := source.host, Compose;
    assert COMPOSE_DIRS[0..] == COMPOSE_DIRS;
    OnePass(h, b, f);
    for i := 0 to |COMPOSE_DIRS|
      invariant source.Valid() && fresh(ledger)
      invariant RunAll(h, b, f, Lists(COMPOSE_DIRS[i..], ComposeRoot), View(source, ledger, consumers)) == Walk(h, b, f)
    {
      RunAllStep(h, b, f, Lists(COMPOSE_DIRS[i..], ComposeRoot), View(source, ledger, consumers));
      assert Lists(COMPOSE_DIRS[i..], ComposeRoot)[1..] == Lists(COMPOSE_DIRS[i + 1..], ComposeRoot);
      consumers := ComposeRootDirectory(source, ledger, b, Compose, COMPOSE_DIRS[i], consumers);
    }
    outcome := Assemble(Compose, ledger, consumers);
  }

  // ------------------------------------------------------------------------ runners

  /** A runner that is there cannot be read to the end, and says so. */
  method RunnerFile(source: Source, ledger: Ledger, b: Budget, f: Family, path: string, consumers: seq<Consumer>)
    returns (extended: seq<Consumer>)
    requires source.Valid()
    modifies source, ledger
    ensures source.Valid()
    ensures View(source, ledger, extended)
         == RunOne(source.host, b, f, ReadFile(path, true, Runner), old(View(source, ledger, consumers)))
  {
    LeafIsStep(source.host, b, f, ReadFile(path, true, Runner), View(source, ledger, consumers));
    var text := Read(source, ledger, b, path, true, Runner, consumers);
    if text.None? {
      return consumers;
    }
    extended := SearchRunner(source, ledger, f, ReadFile(path, true, Runner), text.value, consumers);
  }

  method SearchRunner(source: Source, ledger: Ledger, f: Family, t: Task, text: Text, consumers: seq<Consumer>)
    returns (extended: seq<Consumer>)
    requires t.ReadFile? && t.role == Runner
    modifies ledger`errors, ledger`entries
    ensures View(source, ledger, extended) == Absorbed(f, t, text, old(View(source, ledger, consumers)))
  {
    ghost var before := ledger.errors;
    ledger.NoteError(Dynamic);
    var found := ConsumersIn(text, f, OwnerOf(t, text), ledger);
    assert ledger.errors == before + ([Dynamic] + TextErrors(text));
    extended := consumers + found;
  }

  /** `_ci_runner`. */
  method CiRunners(source: Source, b: Budget) returns (outcome: FamilyOutcome)
    requires source.Valid() && source.trace == []
    modifies source
    ensures source.trace == Walk(source.host, b, CiRunner).trace
    ensures outcome == OutcomeOf(CiRunner, Walk(source.host, b, CiRunner))
  {
    var ledger := new Ledger();
    var consumers := [];
    ghost var h, f := source.host, CiRunner;
    assert CI_RUNNER_PATHS[0..] == CI_RUNNER_PATHS;
    OnePass(h, b, f);
    for i := 0 to |CI_RUNNER_PATHS|
      invariant source.Valid() && fresh(ledger)
      invariant RunAll(h, b, f, OptionalReads(CI_RUNNER_PATHS[i..], Runner), View(source, ledger, consumers)) == Walk(h, b, f)
    {
      RunAllStep(h, b, f, OptionalReads(CI_RUNNER_PATHS[i..], Runner), View(source, ledger, consumers));
      assert OptionalReads(CI_RUNNER_PATHS[i..], Runner)[1..] == OptionalReads(CI_RUNNER_PATHS[i + 1..], Runner);
      consumers := RunnerFile(source, ledger, b, CiRunner, CI_RUNNER_PATHS[i], consumers);
    }
    outcome := Assemble(CiRunner, ledger, consumers);
  }

  // ------------------------------------------------------------------------ scripts

  /** A script that talks to Postgres with no connection in sight is noted. */
  method ScriptFile(source: Source, ledger: Ledger, b: Budget, f: Family, path: string, consumers: seq<Consumer>)
    returns (extended: seq<Consumer>)
    requires source.Valid()
    modifies source, ledger
    ensures source.Valid()
    ensures View(source, ledger, extended)
         == RunOne(source.host, b, f, ReadFile(path, false, Script), old(View(source, ledger, consumers)))
  {
    LeafIsStep(source.host, b, f, ReadFile(path, false, Script), View(source, ledger, consumers));
    var text := Read(source, ledger, b, path, false, Script, consumers);
    if text.None? {
      return consumers;
    }
    extended := SearchScript(source, ledger, f, ReadFile(path, false, Script), text.value, consumers);
  }

  method SearchScript(source: Source, ledger: Ledger, f: Family, t: Task, text: Text, consumers: seq<Consumer>)
    returns (extended: seq<Consumer>)
    requires t.ReadFile? && t.role == Script
    modifies ledger`errors, ledger`entries
    ensures View(source, ledger, extended) == Absorbed(f, t, text, old(View(source, ledger, consumers)))
  {
    if !text.mentionsClient && text.dsns == [] {
      return consumers;
    }
    var found := ConsumersIn(text, f, OwnerOf(t, text), ledger);
    SilentTexts(f, OwnerOf(t, text), text);
    if found == [] {
      ledger.NoteError(Dynamic);
    }
    extended := consumers + found;
  }

  method ScriptDirectory(source: Source, ledger: Ledger, b: Budget, f: Family, dir: string, consumers: seq<Consumer>)
    returns (extended: seq<Consumer>)
    requires source.Valid()
    modifies source, ledger
    ensures source.Valid()
    ensures View(source, ledger, extended)
         == RunOne(source.host, b, f, ListDir(dir, ScriptDir), old(View(source, ledger, consumers)))
  {
    ghost var t := ListDir(dir, ScriptDir);
    ghost var before := View(source, ledger, consumers);
    var paths := List(source, ledger, b, dir, ScriptDir, consumers);
    assert Children(t, AnswerTo(source.host, b, t, before)) == Reads(paths, Script);
    extended := ScriptFiles(source, ledger, b, f, paths, consumers);
  }

  method ScriptFiles(source: Source, ledger: Ledger, b: Budget, f: Family, paths: seq<string>, consumers: seq<Consumer>)
    returns (extended: seq<Consumer>)
    requires source.Valid()
    modifies source, ledger
    ensures source.Valid()
    ensures View(source, ledger, extended)
         == RunAll(source.host, b, f, Reads(paths, Script), old(View(source, ledger, consumers)))
  {
    extended := consumers;
    ghost var done := RunAll(source.host, b, f, Reads(paths, Script), View(source, ledger, consumers));
    assert paths[0..] == paths;
    for i := 0 to |paths|
      invariant source.Valid()
      invariant RunAll(source.host, b, f, Reads(paths[i..], Script), View(source, ledger, extended)) == done
    {
      RunAllStep(source.host, b, f, Reads(paths[i..], Script), View(source, ledger, extended));
      assert Reads(paths[i..], Script)[1..] == Reads(paths[i + 1..], Script);
      extended := ScriptFile(source, ledger, b, f, paths[i], extended);
    }
  }

  lemma {:induction false} RunAllConcat(h: Host, b: Budget, f: Family, front: seq<Task>, back: seq<Task>, s: State)
    ensures RunAll(h, b, f, front + back, s) == RunAll(h, b, f, back, RunAll(h, b, f, front, s))
    decreases |front|
  {
    if front == [] {
      assert front + back == back;
    } else if !s.halted {
      var all := front + back;
      assert all[0] == front[0] && all[1..] == front[1..] + back;
      RunAllStep(h, b, f, all, s);
      RunAllStep(h, b, f, front, s);
      RunAllConcat(h, b, f, front[1..], back, RunOne(h, b, f, front[0], s));
    }
  }

  /** `_script`: the shared environment first, then the script directories. */
  method Scripts(source: Source, b: Budget) returns (outcome: FamilyOutcome)
    requires source.Valid() && source.trace == []
    modifies source
    ensures source.trace == Walk(source.host, b, ScriptFamily).trace
    ensures outcome == OutcomeOf(ScriptFamily, Walk(source.host, b, ScriptFamily))
  {
    var ledger := new Ledger();
    ghost var h, f := source.host, ScriptFamily;
    OnePass(h, b, f);
    RunAllConcat(h, b, f, OptionalReads(SHARED_ENVIRONMENT, SharedEnvironment), Lists(SCRIPT_DIRS, ScriptDir), FRESH);
    var consumers := VisitOptional(source, ledger, b, ScriptFamily, SHARED_ENVIRONMENT, SharedEnvironment, []);
    consumers := ScriptDirectories(source, ledger, b, ScriptFamily, SCRIPT_DIRS, consumers);
    outcome := Assemble(ScriptFamily, ledger, consumers);
  }

  method ScriptDirectories(source: Source, ledger: Ledger, b: Budget, f: Family, dirs: seq<string>, consumers: seq<Consumer>)
    returns (extended: seq<Consumer>)
    requires source.Valid()
    modifies source, ledger
    ensures source.Valid()
    ensures View(source, ledger, extended)
         == RunAll(source.host, b, f, Lists(dirs, ScriptDir), old(View(source, ledger, consumers)))
  {
    extended := consumers;
    ghost var done := RunAll(source.host, b, f, Lists(dirs, ScriptDir), View(source, ledger, consumers));
    assert dirs[0..] == dirs;
    for i := 0 to |dirs|
      invariant source.Valid()
      invariant RunAll(source.host, b, f, Lists(dirs[i..], ScriptDir), View(source, ledger, extended)) == done
    {
      RunAllStep(source.host, b, f, Lists(dirs[i..], ScriptDir), View(source, ledger, extended));
      assert Lists(dirs[i..], ScriptDir)[1..] == Lists(dirs[i + 1..], ScriptDir);
      extended := ScriptDirectory(source, ledger, b, f, dirs[i], extended);
    }
  }

  // ------------------------------------------------------------------------- agents

  method AgentDirectory(source: Source, ledger: Ledger, b: Budget, f: Family, dir: string, consumers: seq<Consumer>)
    returns (extended: seq<Consumer>)
    requires source.Valid()
    modifies source, ledger
    ensures source.Valid()
    ensures View(source, ledger, extended)
         == RunOne(source.host, b, f, ListDir(dir, AgentDir), old(View(source, ledger, consumers)))
  {
    ghost var t := ListDir(dir, AgentDir);
    ghost var before := View(source, ledger, consumers);
    var paths := List(source, ledger, b, dir, AgentDir, consumers);
    assert Children(t, AnswerTo(source.host, b, t, before)) == Reads(paths, Agent);
    extended := VisitFiles(source, ledger, b, f, paths, Agent, consumers);
  }

  /** `_agent`. */
  method Agents(source: Source, b: Budget) returns (outcome: FamilyOutcome)
    requires source.Valid() && source.trace == []
    modifies source
    ensures source.trace == Walk(source.host, b, AgentFamily).trace
    ensures outcome == OutcomeOf(AgentFamily, Walk(source.host, b, AgentFamily))
  {
    var ledger := new Ledger();
    var consumers := [];
    ghost var h, f := source.host, AgentFamily;
    assert AGENT_DIRS[0..] == AGENT_DIRS;
    OnePass(h, b, f);
    for i := 0 to |AGENT_DIRS|
      invariant source.Valid() && fresh(ledger)
      invariant RunAll(h, b, f, Lists(AGENT_DIRS[i..], AgentDir), View(source, ledger, consumers)) == Walk(h, b, f)
    {
      RunAllStep(h, b, f, Lists(AGENT_DIRS[i..], AgentDir), View(source, ledger, consumers));
      assert Lists(AGENT_DIRS[i..], AgentDir)[1..] == Lists(AGENT_DIRS[i + 1..], AgentDir);
      consumers := AgentDirectory(source, ledger, b, AgentFamily, AGENT_DIRS[i], consumers);
    }
    outcome := Assemble(AgentFamily, ledger, consumers);
  }

  // --------------------------------------------------------------------- any family

  /** `enumerate_family`, of a declared name. */
  method EnumerateFamily(f: Family, source: Source, b: Budget) returns (outcome: FamilyOutcome)
    requires source.Valid() && source.trace == []
    modifies source
    ensures source.trace == Walk(source.host, b, f).trace
    ensures outcome == OutcomeOf(f, Walk(source.host, b, f))
  {
    match f
    case SystemdService => outcome := Units(source, b, ".service", f);
    case SystemdTimer => outcome := Units(source, b, ".timer", f);
    case SystemdDropin => outcome := Dropins(source, b);
    case Cron => outcome := Tables(source, b, f);
    case Anacron => outcome := Tables(source, b, f);
    case At => outcome := AtJobs(source, b);
    case Docker => outcome := DockerContainers(source, b);
    case Compose => outcome := ComposeProjects(source, b);
    case CiRunner => outcome := CiRunners(source, b);
    case ScriptFamily => outcome := Scripts(source, b);
    case AgentFamily => outcome := Agents(source, b);
  }
}
