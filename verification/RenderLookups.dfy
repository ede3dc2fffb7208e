/** `render.py`, the lookups a render makes into a resolution, each of which may fail; and the theorem
    that after both gates none does. */
module RenderLookups {
  import opened Wrappers
  import opened Records
  import opened Dicts
  import opened Exposure
  import opened Resolution
  import opened Strings
  import opened YamlTree
  import Ingestion
  import SemanticGate
  import YamlScalars
  import LiveTargets
  import Receipt

  /** `KeyError`, the `ValueError` of `int` and of `duration_seconds`, the refusal of `_logrotate`, and
      what the exposure compiler raises. */
  datatype RenderError =
    | NoJob(name: string) | NoFederation(name: string) | NoIntegration(reference: string)
    | NotAnInteger(text: string) | NoService(name: string) | NoDatasource(name: string)
    | NotADuration(text: string) | MixedOwnership | NoSources(error: ExposureError)

  // --------------------------------------------------------------- int(destination)

  /** Python's `int` on the ASCII spellings without underscores. */
  function ToInt(s: string): Option<int> {
    var t := Lstrip(Rstrip(s));
    if IsDecimal(t) then Some(DecimalValue(t))
    else if t != "" && (t[0] == '-' || t[0] == '+') && IsDecimal(t[1..]) then
      Some(if t[0] == '-' then -(DecimalValue(t[1..]) as int) else DecimalValue(t[1..]))
    else None
  }

  /** What the chat-id gate lets through, the renderer can convert. */
  lemma IntegersConvert(s: string)
    requires IsInteger(s)
    ensures ToInt(s).Some?
  {
    var body := if s[|s| - 1] == '\n' then s[..|s| - 1] else s;
    assert IsDigit(body[|body| - 1]) && !IsSpace(body[0]);
    assert Rstrip(body) == body && Lstrip(body) == body;
    assert Rstrip(s) == body;
  }

  /** A written number converts to itself, whatever its sign and with a newline behind it. */
  lemma NumberConverts(n: int)
    ensures ToInt(InlineText(Value.Int(n))) == Some(n) == ToInt(InlineText(Value.Int(n)) + "\n")
  {
    var digits := DigitsText(if n < 0 then -n else n);
    YamlScalars.DigitsReadBack(if n < 0 then -n else n);
    WrittenConverts(InlineText(Value.Int(n)), digits, n < 0);
  }

  lemma WrittenConverts(text: string, digits: string, negative: bool)
    requires IsDecimal(digits) && text == if negative then "-" + digits else digits
    ensures ToInt(text) == ToInt(text + "\n")
         == Some(if negative then -(DecimalValue(digits) as int) else DecimalValue(digits))
  {
    assert IsDigit(digits[|digits| - 1]) && text[|text| - 1] == digits[|digits| - 1] && !IsSpace(text[0]);
    assert Rstrip(text) == text && Lstrip(text) == text;
    assert (text + "\n")[..|text + "\n"| - 1] == text && Rstrip(text + "\n") == text;
    if negative {
      assert text[1..] == digits && !IsDecimal(text) by {
        assert !IsDigit(text[0]);
      }
    }
  }

  // ------------------------------------------------------------------- the lookups

  /** The scrape configurations of `_prometheus`: jobs first, then federations. */
  method ScrapeConfigs(jobs: seq<ScrapeJob>, federations: seq<Federation>, b: Bindings)
    returns (r: Result<seq<(string, ResolvedEndpoint)>, RenderError>)
    ensures r.Ok? <==> (forall j :: j in jobs ==> j.job in b.jobs) && (forall f :: f in federations ==> f.name in b.federations)
    ensures r.Ok? ==> |r.value| == |jobs| + |federations|
    ensures r.Ok? ==> forall i :: 0 <= i < |jobs| ==> jobs[i].job in b.jobs && r.value[i] == (jobs[i].job, b.jobs[jobs[i].job])
    ensures r.Ok? ==> forall i :: 0 <= i < |federations| ==>
              && federations[i].name in b.federations
              && r.value[|jobs| + i] == (federations[i].name, b.federations[federations[i].name])
  {
    var configs := [];
    for i := 0 to |jobs|
      invariant |configs| == i
      invariant forall k :: 0 <= k < i ==> jobs[k].job in b.jobs && configs[k] == (jobs[k].job, b.jobs[jobs[k].job])
    {
      if jobs[i].job !in b.jobs {
        assert jobs[i] in jobs;
        return Err(NoJob(jobs[i].job));
      }
      configs := configs + [(jobs[i].job, b.jobs[jobs[i].job])];
    }
    ghost var front := configs;
    for i := 0 to |federations|
      invariant |configs| == |jobs| + i && configs[..|jobs|] == front
      invariant forall k :: 0 <= k < i ==>
                  && federations[k].name in b.federations
                  && configs[|jobs| + k] == (federations[k].name, b.federations[federations[k].name])
    {
      if federations[i].name !in b.federations {
        assert federations[i] in federations;
        return Err(NoFederation(federations[i].name));
      }
      configs := configs + [(federations[i].name, b.federations[federations[i].name])];
    }
    assert forall i :: 0 <= i < |jobs| ==> configs[i] == front[i];
    return Ok(configs);
  }

  /** Every budget is a duration `duration_seconds` reads. */
  predicate BudgetsRead(budgets: seq<string>) {
    forall text :: text in budgets ==> Ingestion.DurationSeconds(text).Some?
  }

  /** The lag thresholds of `_ingestion_rules`, in seconds. */
  method LagSeconds(budgets: seq<string>) returns (r: Result<seq<real>, RenderError>)
    ensures r.Ok? <==> BudgetsRead(budgets)
    ensures r.Ok? ==> |r.value| == |budgets|
    ensures r.Ok? ==> forall k :: 0 <= k < |budgets| ==> Ingestion.DurationSeconds(budgets[k]) == Some(r.value[k])
  {
    var lags := [];
    for k := 0 to |budgets|
      invariant |lags| == k
      invariant forall n :: 0 <= n < k ==> Ingestion.DurationSeconds(budgets[n]) == Some(lags[n])
    {
      var seconds := Ingestion.DurationSeconds(budgets[k]);
      if seconds.None? {
        assert budgets[k] in budgets;
        return Err(NotADuration(budgets[k]));
      }
      lags := lags + [seconds.value];
    }
    return Ok(lags);
  }

  datatype Destination = Number(value: int) | Text(text: string)
  datatype Delivery = Delivery(kind: IntegrationKind, credential: string, destination: Option<Destination>)

  /** An integration renders: it is bound, and a telegram destination is a number. */
  predicate Renders(i: Integration, b: Bindings) {
    && i.credentialRef in b.integrations
    && (i.kind == Telegram && b.integrations[i.credentialRef].destination.Some? ==>
          ToInt(b.integrations[i.credentialRef].destination.value).Some?)
  }

  function DeliveryOf(i: Integration, b: Bindings): Delivery
    requires Renders(i, b)
  {
    var resolved := b.integrations[i.credentialRef];
    var destination :=
      match i.kind
      case Webhook => None
      case Telegram =>
        if resolved.destination.Some? then Some(Number(ToInt(resolved.destination.value).value)) else None
      case _ => if resolved.destination.Some? then Some(Text(resolved.destination.value)) else None;
    Delivery(i.kind, resolved.credential, destination)
  }

  /** The entries of `_receiver_config`, before they are grouped by block. */
  method ReceiverEntries(integrations: seq<(string, Integration)>, b: Bindings)
    returns (r: Result<seq<Delivery>, RenderError>)
    ensures r.Ok? <==> forall x :: x in integrations ==> Renders(x.1, b)
    ensures r.Ok? ==> |r.value| == |integrations|
    ensures r.Ok? ==> forall k :: 0 <= k < |integrations| ==>
              Renders(integrations[k].1, b) && r.value[k] == DeliveryOf(integrations[k].1, b)
  {
    var entries := [];
    for k := 0 to |integrations|
      invariant |entries| == k
      invariant forall n :: 0 <= n < k ==> Renders(integrations[n].1, b) && entries[n] == DeliveryOf(integrations[n].1, b)
    {
      var i := integrations[k].1;
      assert integrations[k] in integrations;
      if i.credentialRef !in b.integrations {
        return Err(NoIntegration(i.credentialRef));
      }
      var resolved := b.integrations[i.credentialRef];
      var destination: Option<Destination> := None;
      if i.kind != Webhook && resolved.destination.Some? {
        if i.kind == Telegram {
          var number := ToInt(resolved.destination.value);
          if number.None? {
            return Err(NotAnInteger(resolved.destination.value));
          }
          destination := Some(Number(number.value));
        } else {
          destination := Some(Text(resolved.destination.value));
        }
      }
      entries := entries + [Delivery(i.kind, resolved.credential, destination)];
    }
    return Ok(entries);
  }

  /** A local URL is a service and its port, which Python prints even when it is `None`. */
  datatype Url = Local(service: string, port: Option<nat>) | Remote(url: string)

  predicate DatasourceRenders(d: Datasource, ports: map<string, Option<nat>>, b: Bindings) {
    if d.service.Some? then d.service.value in ports else d.name in b.datasources
  }

  function UrlFor(d: Datasource, ports: map<string, Option<nat>>, b: Bindings): Url
    requires DatasourceRenders(d, ports, b)
  {
    if d.service.Some? then Local(d.service.value, ports[d.service.value]) else Remote(b.datasources[d.name])
  }

  /** The URLs of `_grafana_datasources`. */
  method DatasourceUrls(datasources: seq<Datasource>, roster: seq<RosterEntry>, b: Bindings)
    returns (r: Result<seq<Url>, RenderError>)
    ensures r.Ok? <==> forall d :: d in datasources ==> DatasourceRenders(d, SemanticGate.Ports(roster), b)
    ensures r.Ok? ==> |r.value| == |datasources|
    ensures r.Ok? ==> forall k :: 0 <= k < |datasources| ==>
              && DatasourceRenders(datasources[k], SemanticGate.Ports(roster), b)
              && r.value[k] == UrlFor(datasources[k], SemanticGate.Ports(roster), b)
  {
    var ports := SemanticGate.ServicePorts(roster);
    var urls := [];
    for k := 0 to |datasources|
      invariant |urls| == k
      invariant forall n :: 0 <= n < k ==>
                  DatasourceRenders(datasources[n], ports, b) && urls[n] == UrlFor(datasources[n], ports, b)
    {
      var d := datasources[k];
      assert d in datasources;
      if d.service.Some? {
        if d.service.value !in ports {
          return Err(NoService(d.service.value));
        }
        urls := urls + [Local(d.service.value, ports[d.service.value])];
      } else {
        if d.name !in b.datasources {
          return Err(NoDatasource(d.name));
        }
        urls := urls + [Remote(b.datasources[d.name])];
      }
    }
    return Ok(urls);
  }

  datatype Ownership = Ownership(owner: string, group: string, mode: string)

  function OwnershipOf(f: SyslogFile): Ownership {
    Ownership(f.owner, f.group, f.mode)
  }

  /** There is a syslog file, and all of them are owned alike. */
  predicate OneOwnership(files: seq<SyslogFile>) {
    files != [] && forall f :: f in files ==> OwnershipOf(f) == OwnershipOf(files[0])
  }

  /** `_logrotate`: one stanza has one `create`, so it refuses mixed ownership, and no ownership at all. */
  method Logrotate(files: seq<SyslogFile>) returns (r: Result<Ownership, RenderError>)
    ensures r.Ok? <==> OneOwnership(files)
    ensures r.Ok? ==> forall f :: f in files ==> f.owner == r.value.owner && f.group == r.value.group && f.mode == r.value.mode
  {
    var owners: set<Ownership> := {};
    for i := 0 to |files|
      invariant forall o :: o in owners <==> exists f :: f in files[..i] && OwnershipOf(f) == o
    {
      owners := owners + {OwnershipOf(files[i])};
      assert files[..i + 1] == files[..i] + [files[i]];
    }
    assert files[..|files|] == files;
    if OneOwnership(files) {
      assert owners == {OwnershipOf(files[0])};
    }
    if |owners| != 1 {
      return Err(MixedOwnership);
    }
    var only :| only in owners;
    assert owners == {only} by {
      if other :| other in owners && other != only {
        assert {only, other} <= owners;
        Smaller({only, other}, owners);
      }
    }
    assert forall f :: f in files ==> OwnershipOf(f) in owners;
    return Ok(only);
  }

  lemma Smaller<T>(a: set<T>, b: set<T>)
    requires a <= b
    ensures |a| <= |b|
  {
    assert b == a + (b - a);
  }

  // ---------------------------------------------------------------------- the render

  /** What the render reads out of a resolution; the documents around it are literals. */
  datatype Rendering = Rendering(
    scrapes: seq<(string, ResolvedEndpoint)>, lags: seq<real>, deliveries: seq<Delivery>, urls: seq<Url>,
    ownership: Ownership, ipv4: seq<Rule>, ipv6: seq<Rule>)

  /** `render_control_plane`: one part after the other, so that the first that fails ends it. */
  method RenderControlPlane(state: DesiredState, b: Bindings) returns (r: Result<Rendering, RenderError>)
    ensures r.Ok? <==> Renderable(state, b)
    ensures r.Ok? ==> Reads(r.value, state, b)
  {
    var scrapes := ScrapeConfigs(Jobs(state.targets), state.federations, b);
    if scrapes.Err? {
      return Err(scrapes.error);
    }
    var lags := LagSeconds(state.lagBudgets);
    if lags.Err? {
      return Err(lags.error);
    }
    var deliveries := ReceiverEntries(Integrations(state.receivers), b);
    if deliveries.Err? {
      return Err(deliveries.error);
    }
    var urls := DatasourceUrls(state.datasources, state.roster, b);
    if urls.Err? {
      return Err(urls.error);
    }
    var ownership := Logrotate(state.syslogFiles);
    if ownership.Err? {
      return Err(ownership.error);
    }
    var ipv4 := ExposureRules(state.surfaces, b.sourceSets, Ipv4);
    if ipv4.Err? {
      return Err(NoSources(ipv4.error));
    }
    var ipv6 := ExposureRules(state.surfaces, b.sourceSets, Ipv6);
    if ipv6.Err? {
      return Err(NoSources(ipv6.error));
    }
    return Ok(Rendering(scrapes.value, lags.value, deliveries.value, urls.value, ownership.value, ipv4.value, ipv6.value));
  }

  /** Every job, integration and datasource is rendered with its own binding, in order, and both rule
      files are the compiled policy. */
  ghost predicate Reads(x: Rendering, state: DesiredState, b: Bindings)
    requires Renderable(state, b)
  {
    var jobs, entries := Jobs(state.targets), Integrations(state.receivers);
    && |x.scrapes| == |jobs| + |state.federations| && |x.deliveries| == |entries|
    && |x.urls| == |state.datasources| && |x.lags| == |state.lagBudgets|
    && (forall k :: 0 <= k < |jobs| ==> jobs[k].job in b.jobs && x.scrapes[k] == (jobs[k].job, b.jobs[jobs[k].job]))
    && (forall k :: 0 <= k < |entries| ==> Renders(entries[k].1, b) && x.deliveries[k] == DeliveryOf(entries[k].1, b))
    && (forall k :: 0 <= k < |state.datasources| ==>
          && DatasourceRenders(state.datasources[k], SemanticGate.Ports(state.roster), b)
          && x.urls[k] == UrlFor(state.datasources[k], SemanticGate.Ports(state.roster), b))
    && x.ipv4 == Compiled(state.surfaces, b.sourceSets, Ipv4) && x.ipv6 == Compiled(state.surfaces, b.sourceSets, Ipv6)
    && forall f :: f in state.syslogFiles ==> OwnershipOf(f) == x.ownership
  }

  /** Nothing in the render fails. */
  predicate Renderable(state: DesiredState, b: Bindings) {
    && (forall j :: j in Jobs(state.targets) ==> j.job in b.jobs)
    && (forall f :: f in state.federations ==> f.name in b.federations)
    && (forall x :: x in Integrations(state.receivers) ==> Renders(x.1, b))
    && (forall d :: d in state.datasources ==> DatasourceRenders(d, SemanticGate.Ports(state.roster), b))
    && AllBound(state.surfaces, b.sourceSets, Ipv4) && AllBound(state.surfaces, b.sourceSets, Ipv6)
    && OneOwnership(state.syslogFiles) && BudgetsRead(state.lagBudgets)
  }

  // ---------------------------------------------------------------------- totality

  /** No datasource names both a service and a target: the shape rule its schema keeps. */
  predicate OneOwner(state: DesiredState) {
    forall d :: d in state.datasources ==> d.service.None? || d.targetId.None?
  }

  lemma PairsHaveKeys<K, V>(pairs: seq<(K, V)>, k: nat)
    requires k < |pairs|
    ensures pairs[k].0 in FromPairs(pairs)
  {
    OrderIsKeys(pairs);
  }

  lemma ByTargetHasJobs(jobs: seq<ScrapeJob>, j: ScrapeJob)
    requires j in jobs
    ensures j.targetId in ByTarget(jobs) && ByTarget(jobs)[j.targetId] in jobs
    ensures ByTarget(jobs)[j.targetId].targetId == j.targetId
  {
    var k :| 0 <= k < |jobs| && jobs[k] == j;
    var pairs := seq(|jobs|, k requires 0 <= k < |jobs| => (jobs[k].targetId, jobs[k]));
    PairsHaveKeys(pairs, k);
    ValueOfKey(pairs, j.targetId);
  }

  /** A datasource the public gate passes names a declared target, so `resolve` cannot raise. */
  lemma DatasourcesAreDeclared(state: DesiredState)
    requires SemanticGate.PubliclySound(state) && OneOwner(state)
    ensures DatasourcesDeclared(state)
  {
    var jobs := Jobs(state.targets);
    forall d | d in state.datasources && d.targetId.Some?
      ensures d.targetId.value in ByTarget(jobs)
    {
      var matches := SemanticGate.Declaring(jobs, d.targetId);
      assert matches[0] in matches;
      ByTargetHasJobs(jobs, matches[0]);
    }
  }

  lemma JobsRender(state: DesiredState, i: Inventory)
    requires EverythingBound(state, i) && DatasourcesDeclared(state)
    ensures forall j :: j in Jobs(state.targets) ==> j.job in Resolved(state, i).jobs
    ensures forall f :: f in state.federations ==> f.name in Resolved(state, i).federations
  {
    var jobs := Jobs(state.targets);
    forall j | j in jobs ensures j.job in Resolved(state, i).jobs {
      var k :| 0 <= k < |jobs| && jobs[k] == j;
      PairsHaveKeys(JobPairs(jobs, TargetsOf(i)), k);
    }
    forall f | f in state.federations ensures f.name in Resolved(state, i).federations {
      var k :| 0 <= k < |state.federations| && state.federations[k] == f;
      PairsHaveKeys(FederationPairs(state.federations, FederationsOf(i)), k);
    }
  }

  lemma IntegrationsRender(state: DesiredState, i: Inventory)
    requires EverythingBound(state, i) && DatasourcesDeclared(state)
    ensures forall x :: x in Integrations(state.receivers) ==> Renders(x.1, Resolved(state, i))
  {
    var all, receivers := Integrations(state.receivers), ReceiversOf(i);
    var pairs := ReceiverPairs(all, receivers);
    forall x | x in all ensures Renders(x.1, Resolved(state, i)) {
      var k :| 0 <= k < |all| && all[k] == x;
      var reference := x.1.credentialRef;
      PairsHaveKeys(pairs, k);
      ValueOfKey(pairs, reference);
      assert IntegrationSound(x.1, receivers);
      if x.1.kind == Telegram {
        IntegersConvert(receivers[reference].destination.value);
      }
    }
  }

  lemma {:induction false} DatasourceHasKey(
      datasources: seq<Datasource>, byTarget: map<string, ScrapeJob>, targets: Targets, d: Datasource)
    requires forall x :: x in datasources ==> DatasourceResolvable(x, byTarget, targets)
    requires d in datasources && d.targetId.Some?
    ensures d.name in FromPairs(DatasourcePairs(datasources, byTarget, targets))
  {
    var before, last := datasources[..|datasources| - 1], datasources[|datasources| - 1];
    var pairs := DatasourcePairs(datasources, byTarget, targets);
    if last == d {
      PairsHaveKeys(pairs, |pairs| - 1);
    } else {
      DatasourceHasKey(before, byTarget, targets, d);
      var front := DatasourcePairs(before, byTarget, targets);
      OrderIsKeys(front);
      var k :| 0 <= k < |front| && front[k].0 == d.name;
      assert pairs[k] == front[k];
      PairsHaveKeys(pairs, k);
    }
  }

  lemma SetsRender(state: DesiredState, i: Inventory, family: Family)
    requires SemanticGate.ExposureSourced(state.surfaces, state.sourceSets) && EverythingBound(state, i)
    ensures AllBound(state.surfaces, SetsOf(i), family)
  {
    forall s | s in state.surfaces && s.exposure == Ingress
      ensures s.allowFrom.Some? && s.allowFrom.value in SetsOf(i)
    {
      assert SemanticGate.SurfaceSourced(s, SemanticGate.SetNames(state.sourceSets));
      DeclaredSetsHasNames(state.sourceSets, s.allowFrom.value);
      assert SetSound(s.allowFrom.value, DeclaredSets(state.sourceSets), SetsOf(i));
    }
  }

  lemma DeclaredSetsHasNames(sets: seq<SourceSet>, name: string)
    requires name in SemanticGate.SetNames(sets)
    ensures name in DeclaredSets(sets)
  {
    var s :| s in sets && s.name == name;
    var k :| 0 <= k < |sets| && sets[k] == s;
    PairsHaveKeys(seq(|sets|, k requires 0 <= k < |sets| => (sets[k].name, sets[k])), k);
  }

  /** Join totality. When both gates are silent `resolve` succeeds, and so does the render, if and only
      if the syslog files have one ownership and every lag budget is a duration: no gate asks for that. */
  lemma ResolutionIsTotal(state: DesiredState, i: Inventory)
    requires SemanticGate.PubliclySound(state) && Sound(state, i) && OneOwner(state)
    ensures DatasourcesDeclared(state)
    ensures Renderable(state, Resolved(state, i)) <==> OneOwnership(state.syslogFiles) && BudgetsRead(state.lagBudgets)
  {
    DatasourcesAreDeclared(state);
    JobsRender(state, i);
    IntegrationsRender(state, i);
    SetsRender(state, i, Ipv4);
    SetsRender(state, i, Ipv6);
    var byTarget, targets := ByTarget(Jobs(state.targets)), TargetsOf(i);
    forall d | d in state.datasources
      ensures DatasourceRenders(d, SemanticGate.Ports(state.roster), Resolved(state, i))
    {
      if d.service.None? {
        var matches := SemanticGate.Declaring(Jobs(state.targets), d.targetId);
        assert Some(matches[0].targetId) == d.targetId;
        DatasourceHasKey(state.datasources, byTarget, targets, d);
      }
    }
  }

  /** Of budgets that the schema lets through, all are read exactly when none ends in a newline. */
  lemma ShapedBudgets(budgets: seq<string>)
    requires forall text :: text in budgets ==> Ingestion.DurationShaped(text)
    ensures BudgetsRead(budgets) <==> forall text :: text in budgets ==> text != "" && text[|text| - 1] != '\n'
  {
    forall text | text in budgets
      ensures text != "" && (Ingestion.DurationSeconds(text).Some? <==> text[|text| - 1] != '\n')
    {
      Ingestion.ShapedReads(text);
    }
  }

  /** With the public gate silent, no name is overwritten: each job is scraped at its own endpoints
      with its own credential. */
  lemma EachJobKeepsItsOwn(state: DesiredState, i: Inventory, j: ScrapeJob)
    requires SemanticGate.PubliclySound(state) && Sound(state, i) && DatasourcesDeclared(state)
    requires j in Jobs(state.targets)
    ensures j.job in Resolved(state, i).jobs
    ensures Resolved(state, i).jobs[j.job] == ResolvedJob(j, TargetsOf(i))
    ensures j.publication.Some? ==>
              Resolved(state, i).jobs[j.job] == ResolvedEndpoint(j.publication.value, None) && !j.authenticated
    ensures j.publication.None? ==>
              && j.targetId in TargetsOf(i)
              && Resolved(state, i).jobs[j.job] == ResolvedEndpoint(TargetsOf(i)[j.targetId].endpoints, TargetsOf(i)[j.targetId].credential)
              && (TargetsOf(i)[j.targetId].credential.Some? <==> j.authenticated)
  {
    var jobs := Jobs(state.targets);
    var pairs := JobPairs(jobs, TargetsOf(i));
    var k :| 0 <= k < |jobs| && jobs[k] == j;
    var names := SemanticGate.Names(jobs, state.federations);
    forall a, b | 0 <= a < b < |pairs| ensures pairs[a].0 != pairs[b].0 {
      assert names[a] != names[b];
    }
    DistinctPairs(pairs);
    assert pairs[k] == (j.job, ResolvedJob(j, TargetsOf(i)));
    assert JobSound(j, TargetsOf(i));
  }

  /** Each federation is scraped at its own upstream with the credential bound to it, which is there
      exactly when the federation says that it authenticates. */
  lemma EachFederationKeepsItsOwn(state: DesiredState, i: Inventory, f: Federation)
    requires SemanticGate.PubliclySound(state) && Sound(state, i) && DatasourcesDeclared(state)
    requires f in state.federations
    ensures f.name in Resolved(state, i).federations && f.targetId in FederationsOf(i)
    ensures var b := FederationsOf(i)[f.targetId];
            && Resolved(state, i).federations[f.name] == ResolvedEndpoint([b.endpoint], b.credential)
            && (b.credential.Some? <==> f.authenticated)
  {
    var pairs := FederationPairs(state.federations, FederationsOf(i));
    var names := SemanticGate.Names(Jobs(state.targets), state.federations);
    var k :| 0 <= k < |state.federations| && state.federations[k] == f;
    forall a, b | 0 <= a < b < |pairs| ensures pairs[a].0 != pairs[b].0 {
      assert names[|Jobs(state.targets)| + a] != names[|Jobs(state.targets)| + b];
    }
    DistinctPairs(pairs);
    assert FederationSound(f, FederationsOf(i));
    assert pairs[k].0 == f.name;
  }

  /** Each integration is given the credential and the destination bound to its reference. */
  lemma EachIntegrationKeepsItsOwn(state: DesiredState, i: Inventory, r: Receiver, n: Integration)
    requires SemanticGate.PubliclySound(state) && Sound(state, i) && DatasourcesDeclared(state)
    requires r in state.receivers && n in r.integrations
    ensures n.credentialRef in Resolved(state, i).integrations && n.credentialRef in ReceiversOf(i)
    ensures var b := ReceiversOf(i)[n.credentialRef];
            && Resolved(state, i).integrations[n.credentialRef] == ResolvedReceiver(b.credential, b.destination)
            && (n.kind == Telegram ==> b.destination.Some? && ToInt(b.destination.value).Some?)
            && (n.kind == Email || n.kind == Slack ==> b.destination.Some?)
  {
    var all := Integrations(state.receivers);
    var pairs := ReceiverPairs(all, ReceiversOf(i));
    IntegrationsMean(state.receivers);
    assert (r.name, n) in all;
    var k :| 0 <= k < |all| && all[k] == (r.name, n);
    PairsHaveKeys(pairs, k);
    ValueOfKey(pairs, n.credentialRef);
    assert IntegrationSound(n, ReceiversOf(i));
    if n.kind == Telegram {
      IntegersConvert(ReceiversOf(i)[n.credentialRef].destination.value);
    }
  }

  /** The integrations that are resolved are those of the receivers. */
  lemma {:induction false} IntegrationsMean(receivers: seq<Receiver>)
    ensures forall x :: x in Integrations(receivers) <==> exists r :: r in receivers && x.0 == r.name && x.1 in r.integrations
  {
    if receivers != [] {
      var n := |receivers| - 1;
      IntegrationsMean(receivers[..n]);
      assert receivers == receivers[..n] + [receivers[n]];
      assert forall i :: i in receivers[n].integrations ==> (receivers[n].name, i) in Integrations(receivers) by {
        forall i | i in receivers[n].integrations ensures (receivers[n].name, i) in Integrations(receivers) {
          var k :| 0 <= k < |receivers[n].integrations| && receivers[n].integrations[k] == i;
          assert Integrations(receivers)[|Integrations(receivers[..n])| + k] == (receivers[n].name, i);
        }
      }
    }
  }

  /** Each set an ingress surface names is resolved to the binding of its name, and that is of the kind
      the set is declared to be. */
  lemma EachSetKeepsItsOwn(state: DesiredState, i: Inventory, s: Surface)
    requires SemanticGate.PubliclySound(state) && Sound(state, i) && DatasourcesDeclared(state)
    requires s in state.surfaces && s.exposure == Ingress
    ensures s.allowFrom.Some? && s.allowFrom.value in Resolved(state, i).sourceSets
    ensures exists row :: row in i.sourceSets && row.name == s.allowFrom.value && Resolved(state, i).sourceSets[row.name] == row.binding
    ensures exists d :: d in state.sourceSets && d.name == s.allowFrom.value
              && var b := Resolved(state, i).sourceSets[d.name];
                 if d.kind == TunnelInterface then b.interface.Some? && b.prefixes == []
                 else b.interface.None? && b.prefixes != []
  {
    SetsRenderAt(state, i, s);
    var pairs := SetPairs(i.sourceSets);
    ValueOfKey(pairs, s.allowFrom.value);
    var k :| 0 <= k < |pairs| && pairs[k] == (s.allowFrom.value, FromPairs(pairs)[s.allowFrom.value]);
    assert i.sourceSets[k] in i.sourceSets;
    DeclaredSetIsOne(state.sourceSets, s.allowFrom.value);
  }

  lemma DeclaredSetIsOne(sets: seq<SourceSet>, name: string)
    requires name in DeclaredSets(sets)
    ensures DeclaredSets(sets)[name] in sets && DeclaredSets(sets)[name].name == name
  {
    var pairs := seq(|sets|, k requires 0 <= k < |sets| => (sets[k].name, sets[k]));
    ValueOfKey(pairs, name);
    var k :| 0 <= k < |pairs| && pairs[k] == (name, FromPairs(pairs)[name]);
    assert sets[k] in sets;
  }

  lemma SetsRenderAt(state: DesiredState, i: Inventory, s: Surface)
    requires SemanticGate.ExposureSourced(state.surfaces, state.sourceSets) && EverythingBound(state, i)
    requires s in state.surfaces && s.exposure == Ingress
    ensures s.allowFrom.Some? && s.allowFrom.value in SetsOf(i) && s.allowFrom.value in DeclaredSets(state.sourceSets)
    ensures SetSound(s.allowFrom.value, DeclaredSets(state.sourceSets), SetsOf(i))
  {
    assert SemanticGate.SurfaceSourced(s, SemanticGate.SetNames(state.sourceSets));
    DeclaredSetsHasNames(state.sourceSets, s.allowFrom.value);
    assert SetSound(s.allowFrom.value, DeclaredSets(state.sourceSets), SetsOf(i));
  }

  /** Where a datasource over a scrape target points. */
  function RemoteUrl(state: DesiredState, i: Inventory, d: Datasource): string
    requires EverythingBound(state, i) && DatasourcesDeclared(state) && d in state.datasources && d.targetId.Some?
  {
    UrlOf(d, ByTarget(Jobs(state.targets)), TargetsOf(i))
  }

  /** No two datasources over scrape targets share a name and point to different places. */
  predicate NamesAgree(state: DesiredState, i: Inventory)
    requires EverythingBound(state, i) && DatasourcesDeclared(state)
  {
    forall d, e :: d in state.datasources && e in state.datasources && d.targetId.Some? && e.targetId.Some? && d.name == e.name ==>
      RemoteUrl(state, i, d) == RemoteUrl(state, i, e)
  }

  /** The renderer finds the datasource under its name, and finds its own URL there. */
  predicate Keeps(state: DesiredState, i: Inventory, d: Datasource)
    requires EverythingBound(state, i) && DatasourcesDeclared(state) && d in state.datasources && d.targetId.Some?
  {
    var urls := Resolved(state, i).datasources;
    d.name in urls && urls[d.name] == RemoteUrl(state, i, d)
  }

  lemma {:induction false} PairOfDatasource(
      datasources: seq<Datasource>, byTarget: map<string, ScrapeJob>, targets: Targets, d: Datasource)
    returns (k: nat)
    requires forall x :: x in datasources ==> DatasourceResolvable(x, byTarget, targets)
    requires d in datasources && d.targetId.Some?
    ensures k < |DatasourcePairs(datasources, byTarget, targets)|
    ensures DatasourcePairs(datasources, byTarget, targets)[k] == (d.name, UrlOf(d, byTarget, targets))
  {
    var before, last := datasources[..|datasources| - 1], datasources[|datasources| - 1];
    if last == d {
      k := |DatasourcePairs(before, byTarget, targets)|;
    } else {
      k := PairOfDatasource(before, byTarget, targets, d);
    }
  }

  lemma {:induction false} DatasourceOfPair(
      datasources: seq<Datasource>, byTarget: map<string, ScrapeJob>, targets: Targets, k: nat)
    returns (d: Datasource)
    requires forall x :: x in datasources ==> DatasourceResolvable(x, byTarget, targets)
    requires k < |DatasourcePairs(datasources, byTarget, targets)|
    ensures d in datasources && d.targetId.Some?
    ensures DatasourcePairs(datasources, byTarget, targets)[k] == (d.name, UrlOf(d, byTarget, targets))
  {
    var before, last := datasources[..|datasources| - 1], datasources[|datasources| - 1];
    if k < |DatasourcePairs(before, byTarget, targets)| {
      d := DatasourceOfPair(before, byTarget, targets, k);
    } else {
      d := last;
    }
  }

  /** Every datasource over a scrape target is rendered with its own URL exactly when no two of one name
      point to different places. `resolve` files them by name, the last one winning, and no gate asks
      for distinct names. */
  lemma DatasourcesKeepTheirs(state: DesiredState, i: Inventory)
    requires EverythingBound(state, i) && DatasourcesDeclared(state)
    ensures (forall d :: d in state.datasources && d.targetId.Some? ==> Keeps(state, i, d)) <==> NamesAgree(state, i)
  {
    var byTarget, targets := ByTarget(Jobs(state.targets)), TargetsOf(i);
    var pairs := DatasourcePairs(state.datasources, byTarget, targets);
    KeptExactly(pairs);
    if NamesAgree(state, i) {
      forall d | d in state.datasources && d.targetId.Some? ensures Keeps(state, i, d) {
        var k := PairOfDatasource(state.datasources, byTarget, targets, d);
        ValueOfKey(pairs, d.name);
        var n :| 0 <= n < |pairs| && pairs[n] == (d.name, FromPairs(pairs)[d.name]);
        var e := DatasourceOfPair(state.datasources, byTarget, targets, n);
        assert RemoteUrl(state, i, d) == RemoteUrl(state, i, e);
      }
    }
    if forall d :: d in state.datasources && d.targetId.Some? ==> Keeps(state, i, d) {
      forall d, e | d in state.datasources && e in state.datasources && d.targetId.Some? && e.targetId.Some? && d.name == e.name
        ensures RemoteUrl(state, i, d) == RemoteUrl(state, i, e)
      {
        assert Keeps(state, i, d) && Keeps(state, i, e);
      }
    }
  }

  /** A datasource over a scrape target points to the one job that declares it: its scheme, its one
      endpoint, and no credential dropped on the way; and that is what the renderer finds under its name
      if no namesake points elsewhere. */
  lemma DatasourceIsItsJob(state: DesiredState, i: Inventory, d: Datasource, j: ScrapeJob)
    requires SemanticGate.PubliclySound(state) && Sound(state, i) && OneOwner(state)
    requires d in state.datasources && j in Jobs(state.targets) && d.targetId == Some(j.targetId)
    ensures Resolvable(j, TargetsOf(i)) && |EndpointsOf(j, TargetsOf(i))| == 1 && !j.authenticated
    ensures DatasourceResolvable(d, ByTarget(Jobs(state.targets)), TargetsOf(i))
    ensures DatasourcesDeclared(state)
    ensures RemoteUrl(state, i, d) == j.scheme + "://" + EndpointsOf(j, TargetsOf(i))[0]
    ensures NamesAgree(state, i) ==> Keeps(state, i, d)
  {
    DatasourcesAreDeclared(state);
    OneJobDeclares(state, d, j);
    assert JobSound(j, TargetsOf(i));
    DatasourcesKeepTheirs(state, i);
  }

  lemma OneJobDeclares(state: DesiredState, d: Datasource, j: ScrapeJob)
    requires SemanticGate.PubliclySound(state) && OneOwner(state)
    requires d in state.datasources && j in Jobs(state.targets) && d.targetId == Some(j.targetId)
    ensures !j.authenticated && j.targetId in ByTarget(Jobs(state.targets)) && ByTarget(Jobs(state.targets))[j.targetId] == j
  {
    var jobs := Jobs(state.targets);
    ByTargetHasJobs(jobs, j);
    var matches := SemanticGate.Declaring(jobs, d.targetId);
    assert j in matches && ByTarget(jobs)[j.targetId] in matches;
    assert matches[0] == j;
  }

  /** Every row of a private group is the one its id resolves to exactly when no two rows of one id
      differ; a row that is not is never read, and no finding names it. */
  lemma RowsReadExactly(i: Inventory)
    ensures (forall r :: r in i.targets ==> r.targetId in TargetsOf(i))
         && ((forall r :: r in i.targets ==> TargetsOf(i)[r.targetId] == r)
             <==> forall r, o :: r in i.targets && o in i.targets && r.targetId == o.targetId ==> r == o)
    ensures (forall r :: r in i.federations ==> r.targetId in FederationsOf(i))
         && ((forall r :: r in i.federations ==> FederationsOf(i)[r.targetId] == r)
             <==> forall r, o :: r in i.federations && o in i.federations && r.targetId == o.targetId ==> r == o)
    ensures (forall r :: r in i.receivers ==> r.credentialRef in ReceiversOf(i))
         && ((forall r :: r in i.receivers ==> ReceiversOf(i)[r.credentialRef] == r)
             <==> forall r, o :: r in i.receivers && o in i.receivers && r.credentialRef == o.credentialRef ==> r == o)
  {
    RowsKept(i.targets, TargetPairs(i.targets), (r: TargetBinding) => r.targetId);
    RowsKept(i.federations, UpstreamPairs(i.federations), (r: FederationBinding) => r.targetId);
    RowsKept(i.receivers, ReferencePairs(i.receivers), (r: ReceiverBinding) => r.credentialRef);
  }

  lemma RowsKept<V>(rows: seq<V>, pairs: seq<(string, V)>, key: V -> string)
    requires |pairs| == |rows| && forall k :: 0 <= k < |rows| ==> pairs[k] == (key(rows[k]), rows[k])
    ensures forall r :: r in rows ==> key(r) in FromPairs(pairs)
    ensures (forall r :: r in rows ==> FromPairs(pairs)[key(r)] == r)
       <==> forall r, o :: r in rows && o in rows && key(r) == key(o) ==> r == o
  {
    KeptExactly(pairs);
    forall r | r in rows ensures key(r) in FromPairs(pairs) {
      var k :| 0 <= k < |rows| && rows[k] == r;
      assert pairs[k].0 == key(r);
    }
    if forall r, o :: r in rows && o in rows && key(r) == key(o) ==> r == o {
      assert Agreeing(pairs);
      forall r | r in rows ensures FromPairs(pairs)[key(r)] == r {
        var k :| 0 <= k < |rows| && rows[k] == r;
        assert FromPairs(pairs)[pairs[k].0] == pairs[k].1;
      }
    }
  }

  /** A target binding with another of its id behind it changes nothing: the same gaps, the same
      resolution. */
  lemma ShadowedBindingLeavesNoTrace(state: DesiredState, i: Inventory, n: nat, b: TargetBinding)
    requires n <= |i.targets| && exists k :: n <= k < |i.targets| && i.targets[k].targetId == b.targetId
    ensures var more := i.(targets := i.targets[..n] + [b] + i.targets[n..]);
            && TargetsOf(more) == TargetsOf(i) && (Sound(state, more) <==> Sound(state, i))
            && (EverythingBound(state, i) && DatasourcesDeclared(state) ==>
                  EverythingBound(state, more) && Resolved(state, more) == Resolved(state, i))
  {
    ShadowedRow(i.targets[..n], b, i.targets[n..]);
    assert i.targets[..n] + i.targets[n..] == i.targets;
    var k :| n <= k < |i.targets| && i.targets[k].targetId == b.targetId;
    assert i.targets[n..][k - n] == i.targets[k];
    SameGroups(state, i, i.(targets := i.targets[..n] + [b] + i.targets[n..]));
  }

  lemma ShadowedRow(front: seq<TargetBinding>, b: TargetBinding, back: seq<TargetBinding>)
    ensures (exists k :: 0 <= k < |back| && back[k].targetId == b.targetId) ==>
              FromPairs(TargetPairs(front + [b] + back)) == FromPairs(TargetPairs(front + back))
  {
    ShadowedPair(TargetPairs(front), (b.targetId, b), TargetPairs(back));
    assert TargetPairs(front + [b] + back) == TargetPairs(front) + [(b.targetId, b)] + TargetPairs(back);
    assert TargetPairs(front + back) == TargetPairs(front) + TargetPairs(back);
    if k :| 0 <= k < |back| && back[k].targetId == b.targetId {
      PairsHaveKeys(TargetPairs(back), k);
    }
  }

  /** The resolution layer sees of an inventory its four dictionaries and whom it is for. */
  lemma SameGroups(state: DesiredState, i: Inventory, more: Inventory)
    requires TargetsOf(more) == TargetsOf(i) && FederationsOf(more) == FederationsOf(i)
    requires ReceiversOf(more) == ReceiversOf(i) && SetsOf(more) == SetsOf(i)
    requires more.environment == i.environment && more.hostTarget == i.hostTarget
    ensures EverythingBound(state, more) <==> EverythingBound(state, i)
    ensures Sound(state, more) <==> Sound(state, i)
    ensures EverythingBound(state, i) && DatasourcesDeclared(state) ==> Resolved(state, more) == Resolved(state, i)
  {
  }

  /** The private groups hold exactly the ids public documents use: the targets of unpublished jobs, the
      targets of federations, the references of integrations and the sets of ingress surfaces. */
  lemma ExactCorrespondence(state: DesiredState, i: Inventory)
    requires SemanticGate.PubliclySound(state) && Sound(state, i)
    ensures forall id :: id in TargetsOf(i) <==> exists j :: j in Jobs(state.targets) && j.publication.None? && j.targetId == id
    ensures forall id :: id in FederationsOf(i) <==> exists f :: f in state.federations && f.targetId == id
    ensures forall id :: id in ReceiversOf(i) <==> exists x :: x in Integrations(state.receivers) && x.1.credentialRef == id
    ensures forall name :: name in SetsOf(i) <==> SemanticGate.UsedBy(name, state.surfaces)
    ensures forall name :: name in SetsOf(i) <==> name in SemanticGate.SetNames(state.sourceSets)
  {
    forall id | id in TargetsOf(i)
      ensures exists j :: j in Jobs(state.targets) && j.publication.None? && j.targetId == id
    {
      var j :| j in Jobs(state.targets) && j.targetId == id;
      assert JobSound(j, TargetsOf(i));
    }
    SetsRender(state, i, Ipv4);
    SetsCorrespond(state, i);
  }

  lemma SetsCorrespond(state: DesiredState, i: Inventory)
    requires SemanticGate.ExposureSourced(state.surfaces, state.sourceSets) && Sound(state, i)
    ensures forall name :: name in SetsOf(i) <==> SemanticGate.UsedBy(name, state.surfaces)
    ensures forall name :: name in SetsOf(i) <==> name in SemanticGate.SetNames(state.sourceSets)
  {
    var declared := SemanticGate.SetNames(state.sourceSets);
    forall name | name in SetsOf(i)
      ensures SemanticGate.UsedBy(name, state.surfaces) && name in declared
    {
      var s :| s in state.surfaces && s.allowFrom == Some(name);
      assert SemanticGate.SurfaceSourced(s, declared);
    }
    forall name | SemanticGate.UsedBy(name, state.surfaces) ensures name in SetsOf(i) {
      var s :| s in state.surfaces && s.exposure == Ingress && s.allowFrom == Some(name);
      assert SemanticGate.SurfaceSourced(s, declared);
      DeclaredSetsHasNames(state.sourceSets, name);
      assert SetSound(name, DeclaredSets(state.sourceSets), SetsOf(i));
    }
  }

  /** How many endpoints each job resolved to, which is what a promotion reads of a resolution. */
  function EndpointCounts(b: Bindings): LiveTargets.Endpoints {
    map name | name in b.jobs :: |b.jobs[name].endpoints|
  }

  /** The gate's names are the promotion's names. */
  lemma SameNames(state: DesiredState, endpoints: LiveTargets.Endpoints)
    requires LiveTargets.JobsResolved(state, endpoints)
    requires Distinct(SemanticGate.Names(Jobs(state.targets), state.federations))
    ensures Receipt.DistinctNames(state, endpoints)
  {
    var pairs := LiveTargets.DeclaredPairs(Jobs(state.targets), state.federations, endpoints);
    assert Receipt.Names(pairs) == SemanticGate.Names(Jobs(state.targets), state.federations);
  }

  /** After both gates a promotion knows every job's endpoints and no two declared names coincide: the
      two hypotheses its theorems carry. */
  lemma PromotionIsFed(state: DesiredState, i: Inventory)
    requires SemanticGate.PubliclySound(state) && Sound(state, i) && DatasourcesDeclared(state)
    ensures LiveTargets.JobsResolved(state, EndpointCounts(Resolved(state, i)))
    ensures Receipt.DistinctNames(state, EndpointCounts(Resolved(state, i)))
  {
    JobsRender(state, i);
    SameNames(state, EndpointCounts(Resolved(state, i)));
  }

  /** The resolution gate alone is not enough: a datasource whose target no job declares passes it
      silently, beside any inventory that is sound without it, and makes `resolve` raise. */
  lemma UndeclaredDatasourcePasses(state: DesiredState, i: Inventory, name: string, target: string)
    requires Sound(state, i) && target !in ByTarget(Jobs(state.targets))
    ensures var extended := state.(datasources := state.datasources + [Datasource(name, None, Some(target))]);
            Sound(extended, i) && !DatasourcesDeclared(extended) && !SemanticGate.PubliclySound(extended)
  {
    var d := Datasource(name, None, Some(target));
    var extended := state.(datasources := state.datasources + [d]);
    assert d in extended.datasources;
    var jobs := Jobs(state.targets);
    if SemanticGate.DatasourceOwned(d, jobs, SemanticGate.Ports(state.roster)) {
      ByTargetHasJobs(jobs, SemanticGate.Declaring(jobs, Some(target))[0]);
    }
  }
}
