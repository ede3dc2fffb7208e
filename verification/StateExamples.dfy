/** Inventories that pass both gates, for the properties the gates do not ensure. */
module StateExamples {
  import opened Wrappers
  import opened Records
  import opened Dicts
  import opened Resolution
  import opened RenderLookups
  import Ingestion
  import SemanticGate

  /** An open job with one published endpoint. */
  function Job(name: string, expected: Option<nat>): ScrapeJob {
    ScrapeJob(name, name, "http", false, Some([name + ":9100"]), expected)
  }

  const OWNED: seq<SyslogFile> := [SyslogFile("/var/log/mail.log", "syslog", "adm", "0640")]

  /** Two jobs; the first states one target, the second `second`. */
  function TwoJobs(second: Option<nat>, files: seq<SyslogFile> := OWNED, budgets: seq<string> := ["5m"]): DesiredState {
    DesiredState(
      "production", "host", None, None, [TargetSet("product", [Job("api", Some(1)), Job("db", second)])],
      [], [Receiver("ops", [])], [], [], [], [], [], [], files, budgets)
  }

  /** Both gates are silent. */
  predicate Passes(state: DesiredState, i: Inventory) {
    SemanticGate.PubliclySound(state) && Sound(state, i) && OneOwner(state)
  }

  /** Published jobs need no private binding. */
  const NOTHING := Inventory("production", "host", [], [], [], [])

  lemma TwoJobsAre(second: Option<nat>, files: seq<SyslogFile> := OWNED, budgets: seq<string> := ["5m"])
    ensures Jobs(TwoJobs(second, files, budgets).targets) == [Job("api", Some(1)), Job("db", second)]
  {
    var targets := TwoJobs(second, files, budgets).targets;
    assert targets[..0] == [];
    assert Jobs(targets) == Jobs(targets[..0]) + targets[0].jobs;
  }

  lemma NothingHolds()
    ensures TargetsOf(NOTHING) == map[] && FederationsOf(NOTHING) == map[] && ReceiversOf(NOTHING) == map[] && SetsOf(NOTHING) == map[]
  {
    assert TargetPairs([]) == [] && UpstreamPairs([]) == [] && ReferencePairs([]) == [] && SetPairs([]) == [];
  }

  lemma NoIntegrations()
    ensures Integrations([Receiver("ops", [])]) == []
  {
    assert [Receiver("ops", [])][..0] == [];
    assert Integrations([]) == [];
  }

  /** Both gates pass the two jobs, whatever the syslog files and the lag budgets are. */
  lemma GatesPass(second: Option<nat>, files: seq<SyslogFile>, budgets: seq<string>)
    requires second.None? || second == Some(1)
    ensures Passes(TwoJobs(second, files, budgets), NOTHING)
  {
    TwoJobsAre(second, files, budgets);
    NothingHolds();
    NoIntegrations();
    assert SemanticGate.Names([Job("api", Some(1)), Job("db", second)], []) == ["api", "db"];
  }

  /** What the two jobs resolve to, whatever the syslog files and the lag budgets are. */
  const BINDINGS: Bindings :=
    Bindings(map["api" := ResolvedEndpoint(["api" + ":9100"], None), "db" := ResolvedEndpoint(["db" + ":9100"], None)],
             map[], map[], map[], map[])

  lemma TwoJobsResolve(second: Option<nat>, files: seq<SyslogFile>, budgets: seq<string>)
    requires second.None? || second == Some(1)
    ensures var state := TwoJobs(second, files, budgets);
            EverythingBound(state, NOTHING) && DatasourcesDeclared(state) && Resolved(state, NOTHING) == BINDINGS
  {
    GatesPass(second, files, budgets);
    TwoJobsAre(second, files, budgets);
    NothingHolds();
    NoIntegrations();
    var jobs := [Job("api", Some(1)), Job("db", second)];
    var api, db := ("api", ResolvedEndpoint(["api" + ":9100"], None)), ("db", ResolvedEndpoint(["db" + ":9100"], None));
    assert JobPairs(jobs, map[]) == [api, db];
    TwoPairs(api, db);
    assert FederationPairs([], map[]) == [] && ReceiverPairs([], map[]) == [];
  }

  /** They render exactly when their syslog files have one owner and their budgets are durations. */
  lemma TwoJobsRenderExactly(second: Option<nat>, files: seq<SyslogFile>, budgets: seq<string>)
    requires second.None? || second == Some(1)
    ensures Renderable(TwoJobs(second, files, budgets), BINDINGS) <==> OneOwnership(files) && BudgetsRead(budgets)
  {
    GatesPass(second, files, budgets);
    TwoJobsResolve(second, files, budgets);
    ResolutionIsTotal(TwoJobs(second, files, budgets), NOTHING);
  }

  // ------------------------------------------------------------------ renders that fail

  lemma FiveMinutes()
    ensures Ingestion.DurationShaped("5m") && Ingestion.DurationShaped("5m\n")
    ensures BudgetsRead(["5m"]) && !BudgetsRead(["5m\n"])
  {
    assert Ingestion.UNITS[2] == "m" && Ingestion.WithoutNewline("5m\n") == "5m" == Ingestion.WithoutNewline("5m");
    assert "5m"[1..] == "m" && "5m"[..1] == "5";
    assert Ingestion.CountOf("5m", "m");
    Ingestion.ShapedReads("5m");
    Ingestion.ShapedReads("5m\n");
    assert "5m\n" in ["5m\n"];
  }

  /** The two jobs as they stand render. */
  lemma TwoJobsRender(second: Option<nat>)
    requires second.None? || second == Some(1)
    ensures Renderable(TwoJobs(second), BINDINGS)
  {
    FiveMinutes();
    TwoJobsRenderExactly(second, OWNED, ["5m"]);
  }

  const TWO_OWNERS: seq<SyslogFile> := OWNED + [SyslogFile("/var/log/auth.log", "root", "adm", "0640")]

  /** Two syslog files of different owners pass both gates and do not render. */
  lemma TwoOwnersDoNotRender(second: Option<nat>)
    requires second.None? || second == Some(1)
    ensures Passes(TwoJobs(second, TWO_OWNERS), NOTHING) && !Renderable(TwoJobs(second, TWO_OWNERS), BINDINGS)
  {
    GatesPass(second, TWO_OWNERS, ["5m"]);
    TwoJobsRenderExactly(second, TWO_OWNERS, ["5m"]);
    assert TWO_OWNERS[1] in TWO_OWNERS;
  }

  /** Neither does a lag budget with a newline behind it, which its schema lets through. */
  lemma NewlineDoesNotRender(second: Option<nat>)
    requires second.None? || second == Some(1)
    ensures Ingestion.DurationShaped("5m\n") && Passes(TwoJobs(second, OWNED, ["5m\n"]), NOTHING)
    ensures !Renderable(TwoJobs(second, OWNED, ["5m\n"]), BINDINGS)
  {
    GatesPass(second, OWNED, ["5m\n"]);
    FiveMinutes();
    TwoJobsRenderExactly(second, OWNED, ["5m\n"]);
  }

  // ------------------------------------------------------------------------- datasources

  const NAMESAKES: seq<Datasource> := [Datasource("logs", None, Some("api")), Datasource("logs", None, Some("db"))]

  lemma NamesakesPass()
    ensures var state := TwoJobs(Some(1)).(datasources := NAMESAKES);
            SemanticGate.PubliclySound(state) && Sound(state, NOTHING) && OneOwner(state)
  {
    GatesPass(Some(1), OWNED, ["5m"]);
    NamesakeTargets();
  }

  predicate Published(j: ScrapeJob) {
    j.publication.Some? && |j.publication.value| == 1 && !j.authenticated
  }

  function UrlText(j: ScrapeJob): string
    requires Published(j)
  {
    j.scheme + "://" + j.publication.value[0]
  }

  /** A datasource over the target of one of two published jobs. */
  lemma OverOneOfTwo(a: ScrapeJob, b: ScrapeJob, d: Datasource, j: ScrapeJob, targets: Targets)
    requires Published(a) && Published(b) && a.targetId != b.targetId
    requires (j == a || j == b) && d.service.None? && d.targetId == Some(j.targetId)
    ensures SemanticGate.DatasourceOwned(d, [a, b], SemanticGate.Ports([]))
    ensures DatasourceResolvable(d, ByTarget([a, b]), targets)
    ensures UrlOf(d, ByTarget([a, b]), targets) == UrlText(j)
  {
    DeclaringOfTwo(a, b, j.targetId);
    ByTargetOfTwo(a, b);
  }

  /** Each of the two has one open job with one endpoint. */
  lemma NamesakeTargets()
    ensures var jobs := Jobs(TwoJobs(Some(1)).targets);
            forall d :: d in NAMESAKES ==>
              && SemanticGate.DatasourceOwned(d, jobs, SemanticGate.Ports([]))
              && DatasourceResolvable(d, ByTarget(jobs), TargetsOf(NOTHING))
  {
    TwoJobsAre(Some(1));
    var api, db := Job("api", Some(1)), Job("db", Some(1));
    OverOneOfTwo(api, db, NAMESAKES[0], api, TargetsOf(NOTHING));
    OverOneOfTwo(api, db, NAMESAKES[1], db, TargetsOf(NOTHING));
  }

  lemma ByTargetOfTwo(a: ScrapeJob, b: ScrapeJob)
    ensures ByTarget([a, b]) == map[a.targetId := a][b.targetId := b]
  {
    var jobs := [a, b];
    assert seq(|jobs|, k requires 0 <= k < |jobs| => (jobs[k].targetId, jobs[k])) == [(a.targetId, a), (b.targetId, b)];
    TwoPairs((a.targetId, a), (b.targetId, b));
  }

  lemma DeclaringOfTwo(a: ScrapeJob, b: ScrapeJob, id: string)
    ensures SemanticGate.Declaring([a, b], Some(id))
         == (if a.targetId == id then [a] else []) + (if b.targetId == id then [b] else [])
  {
    assert [a, b][..1] == [a] && [a][..0] == [];
    assert SemanticGate.Declaring([a], Some(id)) == if a.targetId == id then [a] else [];
  }

  lemma TwoPairs<V>(a: (string, V), b: (string, V))
    ensures FromPairs([a, b]) == map[a.0 := a.1][b.0 := b.1]
  {
    assert [a, b][..1] == [a] && [a][..0] == [];
    assert FromPairs([a]) == map[a.0 := a.1];
  }

  lemma UrlsOfTwo(d: Datasource, e: Datasource, byTarget: map<string, ScrapeJob>, targets: Targets)
    requires d.targetId.Some? && e.targetId.Some? && d.name == e.name
    requires DatasourceResolvable(d, byTarget, targets) && DatasourceResolvable(e, byTarget, targets)
    ensures FromPairs(DatasourcePairs([d, e], byTarget, targets)) == map[d.name := UrlOf(e, byTarget, targets)]
  {
    OnePair(d, byTarget, targets);
    assert [d, e][..1] == [d];
    OneKey((d.name, UrlOf(d, byTarget, targets)), (e.name, UrlOf(e, byTarget, targets)));
  }

  lemma OnePair(d: Datasource, byTarget: map<string, ScrapeJob>, targets: Targets)
    requires d.targetId.Some? && DatasourceResolvable(d, byTarget, targets)
    ensures DatasourcePairs([d], byTarget, targets) == [(d.name, UrlOf(d, byTarget, targets))]
  {
    assert [d][..0] == [];
  }

  lemma OneKey(a: (string, string), b: (string, string))
    requires a.0 == b.0
    ensures FromPairs([a] + [b]) == map[a.0 := b.1]
  {
    TwoPairs(a, b);
    assert [a] + [b] == [a, b];
  }

  /** Of two datasources of one name the last is rendered, and the first at its address. */
  lemma LastNamesakeWins(state: DesiredState, i: Inventory, a: ScrapeJob, b: ScrapeJob, d: Datasource, e: Datasource)
    requires EverythingBound(state, i) && DatasourcesDeclared(state)
    requires Jobs(state.targets) == [a, b] && Published(a) && Published(b) && a.targetId != b.targetId
    requires state.datasources == [d, e] && d.service.None? && e.service.None? && d.name == e.name
    requires d.targetId == Some(a.targetId) && e.targetId == Some(b.targetId)
    ensures RemoteUrl(state, i, d) == UrlText(a)
    ensures Resolved(state, i).datasources == map[d.name := UrlText(b)]
    ensures NamesAgree(state, i) ==> UrlText(a) == UrlText(b)
  {
    OverOneOfTwo(a, b, d, a, TargetsOf(i));
    OverOneOfTwo(a, b, e, b, TargetsOf(i));
    UrlsOfTwo(d, e, ByTarget(Jobs(state.targets)), TargetsOf(i));
    assert d in state.datasources && e in state.datasources;
    assert RemoteUrl(state, i, e) == UrlText(b);
  }

  lemma UrlsDiffer()
    ensures UrlText(Job("api", Some(1))) != UrlText(Job("db", Some(1)))
  {
    assert UrlText(Job("api", Some(1)))[7] == 'a' && UrlText(Job("db", Some(1)))[7] == 'd';
  }

  /** Two datasources of one name over two targets pass both gates, and the first is rendered at the
      address of the second. */
  lemma NamesakeOverwrites()
    ensures var state := TwoJobs(Some(1)).(datasources := NAMESAKES);
            && SemanticGate.PubliclySound(state) && Sound(state, NOTHING) && DatasourcesDeclared(state)
            && RemoteUrl(state, NOTHING, NAMESAKES[0]) == UrlText(Job("api", Some(1)))
            && Resolved(state, NOTHING).datasources == map["logs" := UrlText(Job("db", Some(1)))]
            && UrlText(Job("api", Some(1))) != UrlText(Job("db", Some(1))) && !NamesAgree(state, NOTHING)
  {
    var state := TwoJobs(Some(1)).(datasources := NAMESAKES);
    NamesakesPass();
    DatasourcesAreDeclared(state);
    TwoJobsAre(Some(1));
    LastNamesakeWins(state, NOTHING, Job("api", Some(1)), Job("db", Some(1)), NAMESAKES[0], NAMESAKES[1]);
    UrlsDiffer();
  }

  /** A datasource whose target no job declares: the resolution gate is silent and `resolve` raises. */
  lemma UndeclaredTargetPasses()
    ensures var state := TwoJobs(Some(1)).(datasources := [Datasource("logs", None, Some("nowhere"))]);
            Sound(state, NOTHING) && !DatasourcesDeclared(state)
  {
    var state := TwoJobs(Some(1));
    GatesPass(Some(1), OWNED, ["5m"]);
    TwoJobsAre(Some(1));
    OrderIsKeys(seq(2, k requires 0 <= k < 2 => (Jobs(state.targets)[k].targetId, Jobs(state.targets)[k])));
    UndeclaredDatasourcePasses(state, NOTHING, "logs", "nowhere");
    assert state.datasources + [Datasource("logs", None, Some("nowhere"))] == [Datasource("logs", None, Some("nowhere"))];
  }

  // ---------------------------------------------------------------------- bindings

  const PRIVATE: ScrapeJob := ScrapeJob("api", "api", "http", false, None, None)

  function OneJob(): DesiredState {
    TwoJobs(None).(targets := [TargetSet("product", [PRIVATE])])
  }

  function Bound(rows: seq<TargetBinding>): Inventory {
    NOTHING.(targets := rows)
  }

  lemma OneJobIs()
    ensures Jobs(OneJob().targets) == [PRIVATE]
  {
    var targets := OneJob().targets;
    assert targets[..0] == [];
    assert Jobs(targets) == Jobs(targets[..0]) + targets[0].jobs;
  }

  lemma OneBindingIsSound(b: TargetBinding)
    requires b.targetId == "api" && b.credential.None?
    ensures TargetsOf(Bound([b])) == map["api" := b] && Sound(OneJob(), Bound([b]))
  {
    OneJobIs();
    NothingHolds();
    NoIntegrations();
    assert TargetPairs([b]) == [("api", b)];
    assert [("api", b)][..0] == [];
    assert PRIVATE in Jobs(OneJob().targets);
  }

  /** Two bindings of one target: the gate is silent, and the first is never read. */
  lemma FirstBindingUnread(first: seq<string>, second: seq<string>)
    ensures var a, b := TargetBinding("api", first, None), TargetBinding("api", second, None);
            Sound(OneJob(), Bound([a, b])) && TargetsOf(Bound([a, b])) == map["api" := b]
  {
    var a, b := TargetBinding("api", first, None), TargetBinding("api", second, None);
    OneBindingIsSound(b);
    assert Bound([b]).targets[0].targetId == a.targetId;
    ShadowedBindingLeavesNoTrace(OneJob(), Bound([b]), 0, a);
    assert [b][..0] + [a] + [b][0..] == [a, b];
  }
}
