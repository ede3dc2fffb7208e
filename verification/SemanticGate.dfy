/** `validate.py`, the public gate: the parts of `_target_findings` and `_bundle_findings` that later
    joins rely on. Each gate reports nothing exactly when the inventory is as its predicate says. */
module SemanticGate {
  import opened Wrappers
  import opened Records
  import opened Dicts

  datatype Gap =
    | NameDuplicate(name: string)
    | DatasourceUnrostered(name: string) | DatasourceNoPort(name: string)
    | DatasourceTargetUndeclared(name: string) | DatasourceTargetAmbiguous(name: string)
    | DatasourceTargetAuthenticated(name: string)
    | SurfaceNoSource(name: string) | SurfaceUndeclaredSource(name: string) | SurfaceSourceIgnored(name: string)
    | SourceSetUnused(name: string)

  // ------------------------------------------------------------------------ names

  function Names(jobs: seq<ScrapeJob>, federations: seq<Federation>): (names: seq<string>)
    ensures |names| == |jobs| + |federations|
  {
    seq(|jobs|, i requires 0 <= i < |jobs| => jobs[i].job)
    + seq(|federations|, i requires 0 <= i < |federations| => federations[i].name)
  }

  /** The `seen` dictionary of `_target_findings`: a job or federation name may be used once. */
  method NameFindings(jobs: seq<ScrapeJob>, federations: seq<Federation>) returns (gaps: seq<Gap>)
    ensures gaps == [] <==> Distinct(Names(jobs, federations))
    ensures forall g :: g in gaps ==> g.NameDuplicate?
    ensures forall i, j :: 0 <= i < j < |jobs| + |federations| && Names(jobs, federations)[i] == Names(jobs, federations)[j] ==>
              NameDuplicate(Names(jobs, federations)[j]) in gaps
  {
    var names := Names(jobs, federations);
    var seen: set<string> := {};
    gaps := [];
    for i := 0 to |names|
      invariant forall name :: name in seen <==> name in names[..i]
      invariant gaps == [] <==> Distinct(names[..i])
      invariant forall g :: g in gaps ==> g.NameDuplicate?
      invariant forall a, b :: 0 <= a < b < i && names[a] == names[b] ==> NameDuplicate(names[b]) in gaps
    {
      if names[i] in seen {
        gaps := gaps + [NameDuplicate(names[i])];
        var a :| 0 <= a < i && names[a] == names[i];
        assert names[..i + 1][a] == names[..i + 1][i];
      } else {
        assert forall a, b :: 0 <= a < b < i + 1 ==> names[..i + 1][a] == names[a] && names[..i + 1][b] == names[b];
        if gaps == [] {
          assert forall a, b :: 0 <= a < b < i ==> names[..i][a] != names[..i][b];
        } else {
          var a, b :| 0 <= a < b < i && names[..i][a] == names[..i][b];
          assert names[..i + 1][a] == names[..i + 1][b];
        }
      }
      seen := seen + {names[i]};
    }
    assert names[..|names|] == names;
  }

  // ------------------------------------------------------------------- datasources

  /** `services` and `ports`: the roster's services by name, the last of a name winning. */
  function ServicePairs(roster: seq<RosterEntry>): seq<(string, Option<nat>)> {
    if roster == [] then []
    else
      var e := roster[|roster| - 1];
      ServicePairs(roster[..|roster| - 1]) + if e.kind == Service then [(e.name, e.port)] else []
  }

  function Ports(roster: seq<RosterEntry>): map<string, Option<nat>> {
    FromPairs(ServicePairs(roster))
  }

  /** The jobs that declare a target. */
  function Declaring(jobs: seq<ScrapeJob>, target: Option<string>): (matches: seq<ScrapeJob>)
    ensures forall j :: j in matches <==> j in jobs && Some(j.targetId) == target
  {
    if jobs == [] then []
    else
      var j := jobs[|jobs| - 1];
      Declaring(jobs[..|jobs| - 1], target) + if Some(j.targetId) == target then [j] else []
  }

  /** A datasource with one owner: a rostered service with a port, or one open scrape job. */
  predicate DatasourceOwned(d: Datasource, jobs: seq<ScrapeJob>, ports: map<string, Option<nat>>) {
    if d.service.Some? then d.service.value in ports && ports[d.service.value].Some?
    else
      var matches := Declaring(jobs, d.targetId);
      |matches| == 1 && !matches[0].authenticated
  }

  /** What the gate says about one datasource. */
  predicate DatasourceGap(g: Gap, d: Datasource, jobs: seq<ScrapeJob>, ports: map<string, Option<nat>>) {
    var matches := Declaring(jobs, d.targetId);
    match g
    case DatasourceUnrostered(name) => name == d.name && d.service.Some? && d.service.value !in ports
    case DatasourceNoPort(name) =>
      name == d.name && d.service.Some? && d.service.value in ports && ports[d.service.value].None?
    case DatasourceTargetUndeclared(name) => name == d.name && d.service.None? && matches == []
    case DatasourceTargetAmbiguous(name) => name == d.name && d.service.None? && |matches| > 1
    case DatasourceTargetAuthenticated(name) =>
      name == d.name && d.service.None? && |matches| == 1 && matches[0].authenticated
    case _ => false
  }

  method ServicePorts(roster: seq<RosterEntry>) returns (ports: map<string, Option<nat>>)
    ensures ports == Ports(roster)
  {
    var pairs: seq<(string, Option<nat>)> := [];
    for i := 0 to |roster|
      invariant pairs == ServicePairs(roster[..i])
    {
      assert roster[..i + 1][..i] == roster[..i];
      if roster[i].kind == Service {
        pairs := pairs + [(roster[i].name, roster[i].port)];
      }
    }
    assert roster[..|roster|] == roster;
    var order;
    ports, order := Build(pairs);
  }

  method DatasourceFindings(datasources: seq<Datasource>, jobs: seq<ScrapeJob>, roster: seq<RosterEntry>)
    returns (gaps: seq<Gap>)
    ensures gaps == [] <==> forall d :: d in datasources ==> DatasourceOwned(d, jobs, Ports(roster))
    ensures forall g :: g in gaps <==> exists d :: d in datasources && DatasourceGap(g, d, jobs, Ports(roster))
  {
    var ports := ServicePorts(roster);
    gaps := [];
    for i := 0 to |datasources|
      invariant gaps == [] <==> forall d :: d in datasources[..i] ==> DatasourceOwned(d, jobs, ports)
      invariant forall g :: g in gaps <==> exists d :: d in datasources[..i] && DatasourceGap(g, d, jobs, ports)
    {
      var d := datasources[i];
      assert datasources[..i + 1] == datasources[..i] + [d];
      var one := OneDatasource(d, jobs, ports);
      gaps := gaps + one;
    }
    assert datasources[..|datasources|] == datasources;
  }

  method OneDatasource(d: Datasource, jobs: seq<ScrapeJob>, ports: map<string, Option<nat>>)
    returns (gaps: seq<Gap>)
    ensures gaps == [] <==> DatasourceOwned(d, jobs, ports)
    ensures forall g :: g in gaps <==> DatasourceGap(g, d, jobs, ports)
  {
    if d.service.Some? {
      if d.service.value !in ports {
        return [DatasourceUnrostered(d.name)];
      } else if ports[d.service.value].None? {
        return [DatasourceNoPort(d.name)];
      }
      return [];
    }
    var matches := [];
    for i := 0 to |jobs|
      invariant matches == Declaring(jobs[..i], d.targetId)
    {
      assert jobs[..i + 1][..i] == jobs[..i];
      if Some(jobs[i].targetId) == d.targetId {
        matches := matches + [jobs[i]];
      }
    }
    assert jobs[..|jobs|] == jobs;
    if |matches| == 0 {
      return [DatasourceTargetUndeclared(d.name)];
    } else if |matches| > 1 {
      return [DatasourceTargetAmbiguous(d.name)];
    } else if matches[0].authenticated {
      return [DatasourceTargetAuthenticated(d.name)];
    }
    return [];
  }

  // ---------------------------------------------------------------------- exposure

  /** An ingress surface names a declared set; no other surface names one. */
  predicate SurfaceSourced(s: Surface, declared: set<string>) {
    if s.exposure == Ingress then s.allowFrom.Some? && s.allowFrom.value in declared else s.allowFrom.None?
  }

  predicate SurfaceGap(g: Gap, s: Surface, declared: set<string>) {
    match g
    case SurfaceNoSource(name) => name == s.name && s.exposure == Ingress && s.allowFrom.None?
    case SurfaceUndeclaredSource(name) =>
      name == s.name && s.exposure == Ingress && s.allowFrom.Some? && s.allowFrom.value !in declared
    case SurfaceSourceIgnored(name) => name == s.name && s.exposure != Ingress && s.allowFrom.Some?
    case _ => false
  }

  function SetNames(sets: seq<SourceSet>): set<string> {
    set s | s in sets :: s.name
  }

  predicate UsedBy(name: string, surfaces: seq<Surface>) {
    exists s :: s in surfaces && s.exposure == Ingress && s.allowFrom == Some(name)
  }

  predicate ExposureSourced(surfaces: seq<Surface>, sets: seq<SourceSet>) {
    && (forall s :: s in surfaces ==> SurfaceSourced(s, SetNames(sets)))
    && (forall name :: name in SetNames(sets) ==> UsedBy(name, surfaces))
  }

  method ExposureFindings(surfaces: seq<Surface>, sets: seq<SourceSet>) returns (gaps: seq<Gap>)
    ensures gaps == [] <==> ExposureSourced(surfaces, sets)
    ensures forall g :: g in gaps <==>
              || (exists s :: s in surfaces && SurfaceGap(g, s, SetNames(sets)))
              || (g.SourceSetUnused? && g.name in SetNames(sets) && !UsedBy(g.name, surfaces))
  {
    var declared := SetNames(sets);
    var used;
    gaps, used := SurfaceFindings(surfaces, declared);
    ghost var reported := gaps;
    ghost var idle := declared - used;
    var rest := declared - used;
    while rest != {}
      invariant rest <= idle
      invariant forall g :: g in gaps <==> g in reported || (g.SourceSetUnused? && g.name in idle - rest)
      decreases |rest|
    {
      var name :| name in rest;
      gaps := gaps + [SourceSetUnused(name)];
      rest := rest - {name};
    }
    assert gaps == [] <==> reported == [] && idle == {} by {
      if reported != [] {
        assert reported[0] in gaps;
      }
      if name :| name in idle {
        assert SourceSetUnused(name) in gaps;
      }
      if gaps != [] {
        assert gaps[0] in gaps;
      }
    }
  }

  /** The loop over the surfaces, growing `used_sets`. */
  method SurfaceFindings(surfaces: seq<Surface>, declared: set<string>) returns (gaps: seq<Gap>, used: set<string>)
    ensures gaps == [] <==> forall s :: s in surfaces ==> SurfaceSourced(s, declared)
    ensures forall g :: g in gaps <==> exists s :: s in surfaces && SurfaceGap(g, s, declared)
    ensures forall name :: name in used <==> name in declared && UsedBy(name, surfaces)
  {
    gaps, used := [], {};
    for i := 0 to |surfaces|
      invariant gaps == [] <==> forall s :: s in surfaces[..i] ==> SurfaceSourced(s, declared)
      invariant forall g :: g in gaps <==> exists s :: s in surfaces[..i] && SurfaceGap(g, s, declared)
      invariant forall name :: name in used <==> name in declared && UsedBy(name, surfaces[..i])
    {
      var s := surfaces[i];
      assert surfaces[..i + 1] == surfaces[..i] + [s];
      var one := OneSurface(s, declared);
      gaps := gaps + one;
      if s.exposure == Ingress && s.allowFrom.Some? && s.allowFrom.value in declared {
        used := used + {s.allowFrom.value};
      }
    }
    assert surfaces[..|surfaces|] == surfaces;
  }

  method OneSurface(s: Surface, declared: set<string>) returns (gaps: seq<Gap>)
    ensures gaps == [] <==> SurfaceSourced(s, declared)
    ensures forall g :: g in gaps <==> SurfaceGap(g, s, declared)
  {
    if s.exposure == Ingress {
      if s.allowFrom.None? {
        return [SurfaceNoSource(s.name)];
      } else if s.allowFrom.value !in declared {
        return [SurfaceUndeclaredSource(s.name)];
      }
    } else if s.allowFrom.Some? {
      return [SurfaceSourceIgnored(s.name)];
    }
    return [];
  }

  // ---------------------------------------------------------------------- together

  /** What the public gate guarantees about the lookups that come after it. */
  predicate PubliclySound(state: DesiredState) {
    && Distinct(Names(Jobs(state.targets), state.federations))
    && (forall d :: d in state.datasources ==> DatasourceOwned(d, Jobs(state.targets), Ports(state.roster)))
    && ExposureSourced(state.surfaces, state.sourceSets)
  }

  /** The modelled part of `semantic_findings`. */
  method SemanticFindings(state: DesiredState) returns (gaps: seq<Gap>)
    ensures gaps == [] <==> PubliclySound(state)
  {
    var names := NameFindings(Jobs(state.targets), state.federations);
    var sources := DatasourceFindings(state.datasources, Jobs(state.targets), state.roster);
    var exposure := ExposureFindings(state.surfaces, state.sourceSets);
    gaps := names + sources + exposure;
  }
}
