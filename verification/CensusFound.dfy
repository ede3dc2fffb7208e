/** What a walk makes of what it was shown: which consumers and which errors a family records, said of
    the texts and failures themselves. */
module CensusFound {
  import opened Wrappers
  import opened Strings
  import opened CensusRecords
  import opened CensusWalk
  import opened CensusTheorems
  import opened CensusLimits

  /** The text is searched: a file's, unless it is a script that is passed over, or what a program printed
      of one job or one container. */
  predicate Searched(e: Event) {
    && e.answer.Given?
    && match e.task
       case ReadFile(_, _, _) => !PassedOver(e.task, e.answer.text)
       case RunProgram(_, _, role) => role.AtJob? || role.DockerInspect?
       case _ => false
  }

  /** The record of one connection string. */
  predicate OfConnection(c: Consumer, d: Dsn) {
    c.host == d.host && c.port == d.port && c.user == d.user && c.database == d.database && c.secretPointer.None?
  }

  function FirstNamed(v: map<string, string>, name: string, otherwise: string): Option<string> {
    if name in v && v[name] != "" then Some(v[name])
    else if otherwise in v then Some(v[otherwise])
    else None
  }

  /** The record of the connection variables: the client library's own names before the image's. */
  predicate OfEnvironment(c: Consumer, v: map<string, string>) {
    && c.host == FirstNamed(v, "PGHOST", "POSTGRES_HOST")
    && c.user == FirstNamed(v, "PGUSER", "POSTGRES_USER")
    && c.database == FirstNamed(v, "PGDATABASE", "POSTGRES_DB")
    && (c.port.Some? <==> "PGPORT" in v && IsDecimal(v["PGPORT"]))
    && (c.port.Some? ==> c.port.value == DecimalValue(v["PGPORT"]))
    && c.secretPointer == (if "PGPASSFILE" in v then Some(v["PGPASSFILE"]) else None)
  }

  predicate Named(o: Option<string>) {
    o.Some? && o.value != ""
  }

  /** Who owns what was found: the file it was found in, if it was one, and somebody exactly when a unit or
      a principal is named. What every login shell reads is nobody's. */
  predicate OwnedAs(c: Consumer, e: Event) {
    && c.owner.launchPath == (if e.task.ReadFile? then Some(e.task.path) else None)
    && (c.custody == Attributed <==> Named(c.owner.unit) || Named(c.owner.principal))
    && (e.task.ReadFile? && e.task.role == SharedEnvironment ==> c.custody == Unattributed)
    && (e.task.ReadFile? && e.task.role in {Unit, Table, Script, Agent, Runner} ==> c.owner.unit == Some(Basename(e.task.path)))
    && (e.task.ReadFile? && e.task.role == Unit && e.answer.Given? ==> c.owner.principal == e.answer.text.user)
    && (e.task.ReadFile? && e.task.role == Table ==>
          c.owner.principal
          == if Within(e.task.path, "/cron") && Within(e.task.path, "/spool/") then c.owner.unit else None)
    && (e.task.RunProgram? && e.task.role.AtJob? ==> c.owner.unit == Some("at:" + e.task.role.job))
  }

  predicate Recorded(consumers: seq<Consumer>, f: Family, e: Event, c: Consumer) {
    c in consumers && c.family == f && OwnedAs(c, e)
  }

  /** Everything connection-shaped in a searched text is on record. */
  ghost predicate AllRecorded(consumers: seq<Consumer>, f: Family, e: Event)
    requires e.answer.Given?
  {
    var text := e.answer.text;
    && (forall d :: d in text.dsns ==> exists c :: Recorded(consumers, f, e, c) && OfConnection(c, d))
    && (text.dsns == [] && text.variables != map[] ==>
          exists c :: Recorded(consumers, f, e, c) && OfEnvironment(c, text.variables))
  }

  /** The consumer was shown by the event. */
  predicate ShownBy(c: Consumer, f: Family, e: Event) {
    && Searched(e) && c.family == f && OwnedAs(c, e)
    && if e.answer.text.dsns != [] then exists d :: d in e.answer.text.dsns && OfConnection(c, d)
       else e.answer.text.variables != map[] && OfEnvironment(c, e.answer.text.variables)
  }

  lemma OwnerMeans(f: Family, e: Event, c: Consumer)
    requires e.answer.Given? && c.owner == OwnerOf(e.task, e.answer.text) && c.custody == CustodyOf(c.owner)
    requires Searched(e)
    ensures OwnedAs(c, e)
  {
  }

  lemma ConnectionRecorded(f: Family, o: Owner, d: Dsn)
    ensures var c := OfDsn(f, o, d);
            OfConnection(c, d) && c.family == f && c.owner == o && c.custody == CustodyOf(o)
  {
  }

  lemma EnvironmentRecorded(f: Family, o: Owner, v: map<string, string>)
    ensures var c := OfVariables(f, o, v);
            OfEnvironment(c, v) && c.family == f && c.owner == o && c.custody == CustodyOf(o)
  {
  }

  lemma SearchedIsParsed(e: Event)
    requires e.answer.Given?
    ensures Searched(e) <==> Parsed(e.task, e.answer.text)
  {
  }

  lemma EventRecords(f: Family, e: Event)
    requires Searched(e)
    ensures AllRecorded(ConsumersFrom(f, e), f, e)
    ensures forall c :: c in ConsumersFrom(f, e) ==> ShownBy(c, f, e)
  {
    var text, o := e.answer.text, OwnerOf(e.task, e.answer.text);
    SearchedIsParsed(e);
    var found := ConsumersFrom(f, e);
    assert found == ConsumersOf(f, o, text);
    if text.dsns != [] {
      forall d | d in text.dsns ensures exists c :: Recorded(found, f, e, c) && OfConnection(c, d) {
        var i :| 0 <= i < |text.dsns| && text.dsns[i] == d;
        ConnectionRecorded(f, o, d);
        OwnerMeans(f, e, found[i]);
        assert Recorded(found, f, e, found[i]);
      }
      forall i | 0 <= i < |found| ensures ShownBy(found[i], f, e) {
        ConnectionRecorded(f, o, text.dsns[i]);
        OwnerMeans(f, e, found[i]);
        assert text.dsns[i] in text.dsns;
      }
    } else if text.variables != map[] {
      EnvironmentRecorded(f, o, text.variables);
      OwnerMeans(f, e, found[0]);
      assert Recorded(found, f, e, found[0]);
    }
  }

  lemma {:induction false} ConsumersFromEvents(f: Family, trace: seq<Event>)
    ensures forall c :: c in AllConsumers(f, trace) <==> exists e :: e in trace && c in ConsumersFrom(f, e)
  {
    if trace != [] {
      var n := |trace| - 1;
      ConsumersFromEvents(f, trace[..n]);
      assert trace == trace[..n] + [trace[n]];
    }
  }

  /** A family's record is exactly what it was shown: every connection string, or else the connection
      variables, of every text it searched, and nothing else. */
  lemma RecordIsWhatWasShown(h: Host, b: Budget, f: Family)
    ensures forall e :: e in Walk(h, b, f).trace && Searched(e) ==> AllRecorded(Walk(h, b, f).consumers, f, e)
    ensures forall c :: c in Walk(h, b, f).consumers ==> exists e :: e in Walk(h, b, f).trace && ShownBy(c, f, e)
  {
    var done := Walk(h, b, f);
    WalkAccounted(h, b, f);
    ConsumersFromEvents(f, done.trace);
    forall e | e in done.trace && Searched(e) ensures AllRecorded(done.consumers, f, e) {
      EventRecords(f, e);
      AllRecordedIn(ConsumersFrom(f, e), done.consumers, f, e);
    }
    forall c | c in done.consumers ensures exists e :: e in done.trace && ShownBy(c, f, e) {
      var e :| e in done.trace && c in ConsumersFrom(f, e);
      SearchedIsParsed(e);
      EventRecords(f, e);
    }
  }

  lemma AllRecordedIn(some: seq<Consumer>, all: seq<Consumer>, f: Family, e: Event)
    requires e.answer.Given? && AllRecorded(some, f, e) && forall c :: c in some ==> c in all
    ensures AllRecorded(all, f, e)
  {
    forall d | d in e.answer.text.dsns ensures exists c :: Recorded(all, f, e, c) && OfConnection(c, d) {
      var c :| Recorded(some, f, e, c) && OfConnection(c, d);
      assert Recorded(all, f, e, c);
    }
    if e.answer.text.dsns == [] && e.answer.text.variables != map[] {
      var c :| Recorded(some, f, e, c) && OfEnvironment(c, e.answer.text.variables);
      assert Recorded(all, f, e, c);
    }
  }

  // ----------------------------------------------------------------------------- errors

  predicate IsOf(error: ErrorClass, code: SourceCode) {
    match code
    case MissingCode => error == Missing
    case DeniedCode => error == Denied
    case TimeoutCode => error == Timeout
    case UnsupportedCode => error == Unsupported
    case ParseCode => error == Parse
    case UnknownCode => error == Unknown
  }

  lemma {:induction false} ErrorsFromEvents(trace: seq<Event>)
    ensures forall x :: x in AllErrors(trace) <==> exists e :: e in trace && x in ErrorsOf(e)
  {
    if trace != [] {
      var n := |trace| - 1;
      ErrorsFromEvents(trace[..n]);
      assert trace == trace[..n] + [trace[n]];
    }
  }

  /** Every failure is on record as what it was. */
  lemma FailuresAreNamed(h: Host, b: Budget, f: Family, e: Event)
    requires e in Walk(h, b, f).trace && e.answer.Broken?
    ensures exists x :: x in OutcomeOf(f, Walk(h, b, f)).scan.errors && IsOf(x, e.answer.code)
  {
    WalkAccounted(h, b, f);
    ErrorsFromEvents(Walk(h, b, f).trace);
    assert Observed(e.answer.code) in ErrorsOf(e) && IsOf(Observed(e.answer.code), e.answer.code);
  }

  /** A searched text notes what it cannot settle: a connection string without host, user and database, a
      service file behind the variables, a runner or a table line that runs what cannot be seen, a script
      that names a client and shows no connection. */
  lemma DoubtsAreNamed(h: Host, b: Budget, f: Family, e: Event)
    requires e in Walk(h, b, f).trace && Searched(e)
    ensures var text, errors := e.answer.text, OutcomeOf(f, Walk(h, b, f)).scan.errors;
            && ((exists d :: d in text.dsns && d.host.None? && d.user.None? && d.database.None?) ==> Parse in errors)
            && (text.dsns == [] && ("PGSERVICE" in text.variables || "PGSERVICEFILE" in text.variables) ==> Ambiguous in errors)
            && (e.task.ReadFile? && e.task.role == Runner ==> Dynamic in errors)
            && (e.task.ReadFile? && e.task.role == Table && text.dynamicLines > 0 ==> Dynamic in errors)
            && (e.task.ReadFile? && e.task.role == Script && Silent(text) ==> Dynamic in errors)
  {
    var text := e.answer.text;
    WalkAccounted(h, b, f);
    ErrorsFromEvents(Walk(h, b, f).trace);
    SearchedIsParsed(e);
    ParseErrorsMean(text.dsns);
    NotesMean(e);
  }

  lemma {:induction false} ParseErrorsMean(dsns: seq<Dsn>)
    ensures Parse in ParseErrors(dsns) <==> exists d :: d in dsns && d.host.None? && d.user.None? && d.database.None?
  {
    if dsns != [] {
      var n := |dsns| - 1;
      ParseErrorsMean(dsns[..n]);
      assert dsns == dsns[..n] + [dsns[n]];
    }
  }

  lemma NotesMean(e: Event)
    requires Searched(e)
    ensures forall x :: x in TextErrors(e.answer.text) ==> x in ErrorsOf(e)
    ensures e.task.ReadFile? && e.task.role == Runner ==> Dynamic in ErrorsOf(e)
    ensures e.task.ReadFile? && e.task.role == Table && e.answer.text.dynamicLines > 0 ==> Dynamic in ErrorsOf(e)
    ensures e.task.ReadFile? && e.task.role == Script && Silent(e.answer.text) ==> Dynamic in ErrorsOf(e)
  {
    SearchedIsParsed(e);
    var text := e.answer.text;
    if e.task.ReadFile? && e.task.role == Table && text.dynamicLines > 0 {
      assert Times(text.dynamicLines, Dynamic)[0] == Dynamic;
    }
  }
}
