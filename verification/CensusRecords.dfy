/** `attribution_enumerators.py`: what a census reads, spends and records. */
module CensusRecords {
  import opened Wrappers
  import opened Strings

  // -------------------------------------------------------------------- the host seam

  /** What `classify` makes of a failure; a declared class outside the closed set is `UnknownCode`. */
  datatype SourceCode = MissingCode | DeniedCode | TimeoutCode | UnsupportedCode | ParseCode | UnknownCode

  datatype Outcome<T> = Answered(value: T) | Failure(code: SourceCode)

  /** A connection string's components, all absent when it cannot be parsed. */
  datatype Dsn = Dsn(host: Option<string>, port: Option<nat>, user: Option<string>, database: Option<string>)

  /** A text is what the module's patterns see in it. `variables` are the `PG*`, `POSTGRES_*` and
      `DATABASE_URL` assignments, the last of a name winning; `jobs` and `containers` are what the output
      of `atq` and of `docker ps` names. */
  datatype Text = Text(
    length: nat, dsns: seq<Dsn>, variables: map<string, string>, user: Option<string>,
    environmentFiles: seq<string>, variableProgram: bool, dynamicLines: nat, mentionsClient: bool,
    jobs: seq<string>, containers: seq<(string, string)>)

  /** Any host at all: an answer to every question at every moment. The moment is how many steps the
      walk has taken, so a host may answer one question differently each time. */
  datatype Host = Host(
    list: (nat, string) -> Outcome<seq<string>>,
    read: (nat, string) -> Outcome<Text>,
    run: (nat, seq<string>) -> Outcome<Text>)

  datatype Budget = Budget(maxFiles: nat, maxBytes: nat, maxEntries: nat)

  // ------------------------------------------------------------------ what is recorded

  datatype ErrorClass = Denied | Parse | Syntax | Ambiguous | Dynamic | Timeout | Unsupported | Missing | Unknown

  /** `observation_error`, total over the source codes. */
  function Observed(code: SourceCode): ErrorClass {
    match code
    case MissingCode => Missing
    case DeniedCode => Denied
    case TimeoutCode => Timeout
    case UnsupportedCode => Unsupported
    case ParseCode => Parse
    case UnknownCode => Unknown
  }

  datatype Family =
    | SystemdService | SystemdTimer | SystemdDropin | Cron | Anacron | At | Docker | Compose | CiRunner | ScriptFamily
    | AgentFamily

  const DECLARED_FAMILIES: seq<Family> :=
    [SystemdService, SystemdTimer, SystemdDropin, Cron, Anacron, At, Docker, Compose, CiRunner, ScriptFamily, AgentFamily]

  datatype Custody = Attributed | Unattributed

  datatype Owner = Owner(unit: Option<string>, principal: Option<string>, launchPath: Option<string>)

  datatype Consumer = Consumer(
    family: Family, custody: Custody, owner: Owner,
    host: Option<string>, port: Option<nat>, user: Option<string>, database: Option<string>, secretPointer: Option<string>)

  predicate Names(o: Option<string>) {
    o.Some? && o.value != ""
  }

  /** `derive_custody`. */
  function CustodyOf(o: Owner): Custody {
    if Names(o.unit) || Names(o.principal) then Attributed else Unattributed
  }

  datatype Verdict = SCANNED | ABSENT | UNKNOWN

  datatype FamilyScan = FamilyScan(family: Family, attempted: bool, completed: bool, errors: seq<ErrorClass>, found: nat) {
    /** `derive_verdict` over the evidence. */
    function Verdict(): Verdict {
      if !attempted || errors != [] || !completed then UNKNOWN
      else if found > 0 then SCANNED else ABSENT
    }
  }

  datatype FamilyOutcome = FamilyOutcome(scan: FamilyScan, consumers: seq<Consumer>)

  // ------------------------------------------------------------------- parsing one text

  predicate Unparsable(d: Dsn) {
    d.host.None? && d.user.None? && d.database.None?
  }

  function Get(m: map<string, string>, key: string): Option<string> {
    if key in m then Some(m[key]) else None
  }

  /** Python's `a or b` over optional strings. */
  function Or(a: Option<string>, b: Option<string>): Option<string> {
    if Names(a) then a else b
  }

  function OfDsn(f: Family, o: Owner, d: Dsn): Consumer {
    Consumer(f, CustodyOf(o), o, d.host, d.port, d.user, d.database, None)
  }

  function OfVariables(f: Family, o: Owner, v: map<string, string>): Consumer {
    var port := Get(v, "PGPORT");
    Consumer(
      f, CustodyOf(o), o, Or(Get(v, "PGHOST"), Get(v, "POSTGRES_HOST")),
      if port.Some? && IsDecimal(port.value) then Some(DecimalValue(port.value)) else None,
      Or(Get(v, "PGUSER"), Get(v, "POSTGRES_USER")), Or(Get(v, "PGDATABASE"), Get(v, "POSTGRES_DB")),
      Get(v, "PGPASSFILE"))
  }

  /** Every consumer a text shows: one for each connection string, or one for its variables. */
  function ConsumersOf(f: Family, o: Owner, t: Text): seq<Consumer> {
    if t.dsns != [] then seq(|t.dsns|, i requires 0 <= i < |t.dsns| => OfDsn(f, o, t.dsns[i]))
    else if t.variables != map[] then [OfVariables(f, o, t.variables)]
    else []
  }

  function ParseErrors(dsns: seq<Dsn>): (errors: seq<ErrorClass>)
    ensures forall e :: e in errors ==> e == Parse
  {
    if dsns == [] then []
    else ParseErrors(dsns[..|dsns| - 1]) + if Unparsable(dsns[|dsns| - 1]) then [Parse] else []
  }

  predicate ServiceIndirect(v: map<string, string>) {
    "PGSERVICE" in v || "PGSERVICEFILE" in v
  }

  /** What reading the consumers of a text notes. */
  function TextErrors(t: Text): seq<ErrorClass> {
    if t.dsns != [] then ParseErrors(t.dsns)
    else if ServiceIndirect(t.variables) then [Ambiguous]
    else []
  }

  /** Nothing in the text is shaped like a connection. */
  predicate Silent(t: Text) {
    t.dsns == [] && t.variables == map[]
  }

  /** A text yields no consumer exactly when it is silent, and then it notes nothing. */
  lemma SilentTexts(f: Family, o: Owner, t: Text)
    ensures ConsumersOf(f, o, t) == [] <==> Silent(t)
    ensures Silent(t) ==> TextErrors(t) == []
  {
  }
}
