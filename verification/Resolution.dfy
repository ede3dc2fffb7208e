/** `validate.py`, the resolution layer: public policy joined to the private inventory. */
module Resolution {
  import opened Wrappers
  import opened Records
  import opened Dicts
  import opened Exposure
  import opened Strings

  // ------------------------------------------------------------- private inventory

  /** A credential is the file it is placed in. */
  datatype TargetBinding = TargetBinding(targetId: string, endpoints: seq<string>, credential: Option<string>)
  datatype FederationBinding = FederationBinding(targetId: string, endpoint: string, credential: Option<string>)
  datatype ReceiverBinding = ReceiverBinding(credentialRef: string, credential: string, destination: Option<string>)
  datatype SourceSetBinding = SourceSetBinding(name: string, binding: SourceBinding)

  datatype Inventory = Inventory(
    environment: string, hostTarget: string, targets: seq<TargetBinding>, federations: seq<FederationBinding>,
    receivers: seq<ReceiverBinding>, sourceSets: seq<SourceSetBinding>)

  type Targets = map<string, TargetBinding>
  type Federations = map<string, FederationBinding>
  type Receivers = map<string, ReceiverBinding>
  type Sets = map<string, SourceBinding>

  function TargetPairs(rows: seq<TargetBinding>): seq<(string, TargetBinding)> {
    seq(|rows|, k requires 0 <= k < |rows| => (rows[k].targetId, rows[k]))
  }

  /** Of two rows of one id the last wins, here and in the other groups. */
  function TargetsOf(i: Inventory): Targets {
    FromPairs(TargetPairs(i.targets))
  }

  function UpstreamPairs(rows: seq<FederationBinding>): seq<(string, FederationBinding)> {
    seq(|rows|, k requires 0 <= k < |rows| => (rows[k].targetId, rows[k]))
  }

  function FederationsOf(i: Inventory): Federations {
    FromPairs(UpstreamPairs(i.federations))
  }

  function ReferencePairs(rows: seq<ReceiverBinding>): seq<(string, ReceiverBinding)> {
    seq(|rows|, k requires 0 <= k < |rows| => (rows[k].credentialRef, rows[k]))
  }

  function ReceiversOf(i: Inventory): Receivers {
    FromPairs(ReferencePairs(i.receivers))
  }

  function SetPairs(rows: seq<SourceSetBinding>): seq<(string, SourceBinding)> {
    seq(|rows|, k requires 0 <= k < |rows| => (rows[k].name, rows[k].binding))
  }

  function SetsOf(i: Inventory): Sets {
    FromPairs(SetPairs(i.sourceSets))
  }

  /** `jobs_by_target`: the last job of a target wins. */
  function ByTarget(jobs: seq<ScrapeJob>): map<string, ScrapeJob> {
    FromPairs(seq(|jobs|, k requires 0 <= k < |jobs| => (jobs[k].targetId, jobs[k])))
  }

  /** Every integration with the receiver that carries it. */
  function Integrations(receivers: seq<Receiver>): seq<(string, Integration)> {
    if receivers == [] then []
    else
      var r := receivers[|receivers| - 1];
      Integrations(receivers[..|receivers| - 1])
      + seq(|r.integrations|, k requires 0 <= k < |r.integrations| => (r.name, r.integrations[k]))
  }

  /** `used_sets`: what any surface allows from. */
  function AllowedFrom(surfaces: seq<Surface>): set<string> {
    set s | s in surfaces && s.allowFrom.Some? :: s.allowFrom.value
  }

  // --------------------------------------------------------------------- chat ids

  /** `_INTEGER`, whose `$` also admits one final newline. */
  predicate IsInteger(s: string) {
    var body := if s != [] && s[|s| - 1] == '\n' then s[..|s| - 1] else s;
    IsDecimal(if body != [] && body[0] == '-' then body[1..] else body)
  }

  /** The chat ids let through: digits, perhaps behind a minus sign, perhaps before one newline. */
  lemma IntegerMeans(s: string)
    ensures IsInteger(s)
       <==> exists digits :: IsDecimal(digits) && s in {digits, "-" + digits, digits + "\n", "-" + digits + "\n"}
  {
    if IsInteger(s) {
      var body := if s != [] && s[|s| - 1] == '\n' then s[..|s| - 1] else s;
      var digits := if body != [] && body[0] == '-' then body[1..] else body;
      assert body == digits || body == "-" + digits;
      assert s == body || s == body + "\n";
      assert IsDecimal(digits) && s in {digits, "-" + digits, digits + "\n", "-" + digits + "\n"};
    }
    forall digits | IsDecimal(digits)
      ensures IsInteger(digits) && IsInteger("-" + digits) && IsInteger(digits + "\n") && IsInteger("-" + digits + "\n")
    {
      WrittenIsInteger(digits, digits);
      WrittenIsInteger("-" + digits, digits);
    }
  }

  lemma WrittenIsInteger(body: string, digits: string)
    requires IsDecimal(digits) && (body == digits || body == "-" + digits)
    ensures IsInteger(body) && IsInteger(body + "\n")
  {
    assert IsDigit(digits[|digits| - 1]) && body[|body| - 1] == digits[|digits| - 1] && IsDigit(digits[0]);
    assert (body + "\n")[..|body + "\n"| - 1] == body;
    if body == "-" + digits {
      assert body[1..] == digits;
    }
  }

  // ------------------------------------------------------------------------- gaps

  datatype Gap =
    | EnvironmentDiffers | HostDiffers
    | PublicationShadowed(job: string) | TargetUnbound(job: string)
    | JobCredentialMissing(job: string) | JobCredentialUnused(job: string) | ExpectationUnreachable(job: string)
    | DatasourceCardinality(name: string)
    | FederationUnbound(name: string) | FederationCredentialMissing(name: string)
    | FederationCredentialUnused(name: string)
    | ReceiverUnbound(receiver: string, reference: string) | ChatIdNotInteger(receiver: string, reference: string)
    | DestinationMissing(receiver: string, reference: string)
    | TargetUnused(id: string) | FederationUnused(id: string) | ReceiverUnused(id: string)
    | SourceSetUnbound(name: string) | SourceSetKindDiffers(name: string) | SourceSetUnused(name: string)

  /** A job resolves: published, open and unbound, or bound with a credential exactly when it
      authenticates; and it expects no more targets than it has. */
  predicate JobSound(j: ScrapeJob, targets: Targets) {
    if j.publication.Some? then
      && j.targetId !in targets && !j.authenticated
      && (j.expected.Some? ==> j.expected.value <= |j.publication.value|)
    else
      && j.targetId in targets && (targets[j.targetId].credential.Some? <==> j.authenticated)
      && (j.expected.Some? ==> j.expected.value <= |targets[j.targetId].endpoints|)
  }

  predicate Resolvable(j: ScrapeJob, targets: Targets) {
    j.publication.Some? || j.targetId in targets
  }

  function EndpointsOf(j: ScrapeJob, targets: Targets): seq<string>
    requires Resolvable(j, targets)
  {
    if j.publication.Some? then j.publication.value else targets[j.targetId].endpoints
  }

  predicate HasCredential(j: ScrapeJob, targets: Targets) {
    j.targetId in targets && targets[j.targetId].credential.Some?
  }

  predicate JobGap(g: Gap, j: ScrapeJob, targets: Targets) {
    match g
    case PublicationShadowed(job) => job == j.job && j.publication.Some? && j.targetId in targets
    case TargetUnbound(job) => job == j.job && !Resolvable(j, targets)
    case JobCredentialMissing(job) =>
      job == j.job && Resolvable(j, targets) && j.authenticated && !HasCredential(j, targets)
    case JobCredentialUnused(job) =>
      job == j.job && Resolvable(j, targets) && !j.authenticated && HasCredential(j, targets)
    case ExpectationUnreachable(job) =>
      && job == j.job && Resolvable(j, targets)
      && j.expected.Some? && j.expected.value > |EndpointsOf(j, targets)|
    case _ => false
  }

  /** The job loop: what it reports, and which bindings it used. */
  method JobFindings(jobs: seq<ScrapeJob>, targets: Targets) returns (gaps: seq<Gap>, used: set<string>)
    ensures gaps == [] <==> forall j :: j in jobs ==> JobSound(j, targets)
    ensures forall g :: g in gaps <==> exists j :: j in jobs && JobGap(g, j, targets)
    ensures forall id :: id in used <==> id in targets && exists j :: j in jobs && j.targetId == id
  {
    gaps, used := [], {};
    for i := 0 to |jobs|
      invariant gaps == [] <==> forall j :: j in jobs[..i] ==> JobSound(j, targets)
      invariant forall g :: g in gaps <==> exists j :: j in jobs[..i] && JobGap(g, j, targets)
      invariant forall id :: id in used <==> id in targets && exists j :: j in jobs[..i] && j.targetId == id
    {
      var j := jobs[i];
      assert jobs[..i + 1] == jobs[..i] + [j];
      var one := OneJob(j, targets);
      gaps := gaps + one;
      if j.targetId in targets {
        used := used + {j.targetId};
      }
    }
    assert jobs[..|jobs|] == jobs;
  }

  method OneJob(j: ScrapeJob, targets: Targets) returns (gaps: seq<Gap>)
    ensures gaps == [] <==> JobSound(j, targets)
    ensures forall g :: g in gaps <==> JobGap(g, j, targets)
  {
    if !Resolvable(j, targets) {
      return [TargetUnbound(j.job)];
    }
    var shadowed := if j.publication.Some? && j.targetId in targets then [PublicationShadowed(j.job)] else [];
    var endpoints, credential := EndpointsOf(j, targets), HasCredential(j, targets);
    var authentication :=
      if j.authenticated && !credential then [JobCredentialMissing(j.job)]
      else if !j.authenticated && credential then [JobCredentialUnused(j.job)]
      else [];
    var expectation :=
      if j.expected.Some? && j.expected.value > |endpoints| then [ExpectationUnreachable(j.job)] else [];
    gaps := shadowed + authentication + expectation;
  }

  // ------------------------------------------------------------------- datasources

  /** A datasource whose target some job declares resolves to one endpoint. */
  predicate DatasourceSingle(d: Datasource, byTarget: map<string, ScrapeJob>, targets: Targets) {
    d.targetId.Some? && d.targetId.value in byTarget ==>
      var j := byTarget[d.targetId.value];
      Resolvable(j, targets) && |EndpointsOf(j, targets)| == 1
  }

  method DatasourceFindings(datasources: seq<Datasource>, byTarget: map<string, ScrapeJob>, targets: Targets)
    returns (gaps: seq<Gap>)
    ensures gaps == [] <==> forall d :: d in datasources ==> DatasourceSingle(d, byTarget, targets)
    ensures forall g :: g in gaps <==>
              exists d :: d in datasources && g == DatasourceCardinality(d.name) && !DatasourceSingle(d, byTarget, targets)
  {
    gaps := [];
    for i := 0 to |datasources|
      invariant gaps == [] <==> forall d :: d in datasources[..i] ==> DatasourceSingle(d, byTarget, targets)
      invariant forall g :: g in gaps <==>
                  exists d :: d in datasources[..i] && g == DatasourceCardinality(d.name) && !DatasourceSingle(d, byTarget, targets)
    {
      var d := datasources[i];
      assert datasources[..i + 1] == datasources[..i] + [d];
      var one := OneDatasource(d, byTarget, targets);
      gaps := gaps + one;
    }
    assert datasources[..|datasources|] == datasources;
  }

  method OneDatasource(d: Datasource, byTarget: map<string, ScrapeJob>, targets: Targets) returns (gaps: seq<Gap>)
    ensures gaps == if DatasourceSingle(d, byTarget, targets) then [] else [DatasourceCardinality(d.name)]
  {
    if d.targetId.None? || d.targetId.value !in byTarget {
      return [];
    }
    var j := byTarget[d.targetId.value];
    var endpoints :=
      if j.publication.Some? then j.publication.value
      else if j.targetId in targets then targets[j.targetId].endpoints else [];
    if |endpoints| != 1 {
      return [DatasourceCardinality(d.name)];
    }
    return [];
  }

  // ------------------------------------------------------------------- federations

  predicate FederationSound(f: Federation, federations: Federations) {
    f.targetId in federations && (federations[f.targetId].credential.Some? <==> f.authenticated)
  }

  predicate FederationGap(g: Gap, f: Federation, federations: Federations) {
    match g
    case FederationUnbound(name) => name == f.name && f.targetId !in federations
    case FederationCredentialMissing(name) =>
      && name == f.name && f.targetId in federations
      && f.authenticated && federations[f.targetId].credential.None?
    case FederationCredentialUnused(name) =>
      && name == f.name && f.targetId in federations
      && !f.authenticated && federations[f.targetId].credential.Some?
    case _ => false
  }

  method FederationFindings(declared: seq<Federation>, federations: Federations)
    returns (gaps: seq<Gap>, used: set<string>)
    ensures gaps == [] <==> forall f :: f in declared ==> FederationSound(f, federations)
    ensures forall g :: g in gaps <==> exists f :: f in declared && FederationGap(g, f, federations)
    ensures forall id :: id in used <==> id in federations && exists f :: f in declared && f.targetId == id
  {
    gaps, used := [], {};
    for i := 0 to |declared|
      invariant gaps == [] <==> forall f :: f in declared[..i] ==> FederationSound(f, federations)
      invariant forall g :: g in gaps <==> exists f :: f in declared[..i] && FederationGap(g, f, federations)
      invariant forall id :: id in used <==> id in federations && exists f :: f in declared[..i] && f.targetId == id
    {
      var f := declared[i];
      assert declared[..i + 1] == declared[..i] + [f];
      var one := OneFederation(f, federations);
      gaps := gaps + one;
      if f.targetId in federations {
        used := used + {f.targetId};
      }
    }
    assert declared[..|declared|] == declared;
  }

  method OneFederation(f: Federation, federations: Federations) returns (gaps: seq<Gap>)
    ensures gaps == [] <==> FederationSound(f, federations)
    ensures forall g :: g in gaps <==> FederationGap(g, f, federations)
  {
    if f.targetId !in federations {
      return [FederationUnbound(f.name)];
    } else if f.authenticated && federations[f.targetId].credential.None? {
      return [FederationCredentialMissing(f.name)];
    } else if !f.authenticated && federations[f.targetId].credential.Some? {
      return [FederationCredentialUnused(f.name)];
    }
    return [];
  }

  // --------------------------------------------------------------------- receivers

  predicate IntegrationSound(i: Integration, receivers: Receivers) {
    && i.credentialRef in receivers
    && var destination := receivers[i.credentialRef].destination;
       match i.kind
       case Telegram => destination.Some? && IsInteger(destination.value)
       case Webhook => true
       case Email => destination.Some?
       case Slack => destination.Some?
  }

  predicate IntegrationGap(g: Gap, r: (string, Integration), receivers: Receivers) {
    var i := r.1;
    match g
    case ReceiverUnbound(receiver, reference) =>
      receiver == r.0 && reference == i.credentialRef && i.credentialRef !in receivers
    case ChatIdNotInteger(receiver, reference) =>
      && receiver == r.0 && reference == i.credentialRef && i.credentialRef in receivers
      && i.kind == Telegram && !IntegrationSound(i, receivers)
    case DestinationMissing(receiver, reference) =>
      && receiver == r.0 && reference == i.credentialRef && i.credentialRef in receivers
      && i.kind != Telegram && !IntegrationSound(i, receivers)
    case _ => false
  }

  method ReceiverFindings(integrations: seq<(string, Integration)>, receivers: Receivers)
    returns (gaps: seq<Gap>, used: set<string>)
    ensures gaps == [] <==> forall r :: r in integrations ==> IntegrationSound(r.1, receivers)
    ensures forall g :: g in gaps <==> exists r :: r in integrations && IntegrationGap(g, r, receivers)
    ensures forall id :: id in used <==> id in receivers && exists r :: r in integrations && r.1.credentialRef == id
  {
    gaps, used := [], {};
    for k := 0 to |integrations|
      invariant gaps == [] <==> forall r :: r in integrations[..k] ==> IntegrationSound(r.1, receivers)
      invariant forall g :: g in gaps <==> exists r :: r in integrations[..k] && IntegrationGap(g, r, receivers)
      invariant forall id :: id in used <==> id in receivers && exists r :: r in integrations[..k] && r.1.credentialRef == id
    {
      var r := integrations[k];
      assert integrations[..k + 1] == integrations[..k] + [r];
      var one := OneIntegration(r, receivers);
      gaps := gaps + one;
      if r.1.credentialRef in receivers {
        used := used + {r.1.credentialRef};
      }
    }
    assert integrations[..|integrations|] == integrations;
  }

  method OneIntegration(r: (string, Integration), receivers: Receivers) returns (gaps: seq<Gap>)
    ensures gaps == [] <==> IntegrationSound(r.1, receivers)
    ensures forall g :: g in gaps <==> IntegrationGap(g, r, receivers)
  {
    var i := r.1;
    if i.credentialRef !in receivers {
      return [ReceiverUnbound(r.0, i.credentialRef)];
    }
    var destination := receivers[i.credentialRef].destination;
    if i.kind == Telegram {
      if destination.None? || !IsInteger(destination.value) {
        return [ChatIdNotInteger(r.0, i.credentialRef)];
      }
    } else if i.kind != Webhook && destination.None? {
      return [DestinationMissing(r.0, i.credentialRef)];
    }
    return [];
  }

  // ------------------------------------------------------------------- source sets

  /** The binding of a declared set is of the declared kind. */
  predicate SetSound(name: string, declared: map<string, SourceSet>, sets: Sets) {
    name in declared ==>
      && name in sets
      && match declared[name].kind
         case TunnelInterface => sets[name].interface.Some? && sets[name].prefixes == []
         case AddressSet => sets[name].interface.None? && sets[name].prefixes != []
  }

  method SourceSetFindings(used: set<string>, declared: map<string, SourceSet>, sets: Sets) returns (gaps: seq<Gap>)
    ensures gaps == [] <==> forall name :: name in used ==> SetSound(name, declared, sets)
    ensures forall g :: g in gaps <==>
              exists name :: name in used && !SetSound(name, declared, sets)
                && g == if name in sets then SourceSetKindDiffers(name) else SourceSetUnbound(name)
  {
    gaps := [];
    var rest := used;
    while rest != {}
      invariant rest <= used
      invariant gaps == [] <==> forall name :: name in used - rest ==> SetSound(name, declared, sets)
      invariant forall g :: g in gaps <==>
                  exists name :: name in used - rest && !SetSound(name, declared, sets)
                    && g == if name in sets then SourceSetKindDiffers(name) else SourceSetUnbound(name)
      decreases |rest|
    {
      var name :| name in rest;
      assert used - (rest - {name}) == (used - rest) + {name};
      rest := rest - {name};
      if name !in declared {
        continue;
      }
      if name !in sets {
        gaps := gaps + [SourceSetUnbound(name)];
        continue;
      }
      var binding := sets[name];
      if declared[name].kind == TunnelInterface {
        if binding.interface.None? {
          gaps := gaps + [SourceSetKindDiffers(name)];
        }
        if binding.prefixes != [] {
          gaps := gaps + [SourceSetKindDiffers(name)];
        }
      } else {
        if binding.prefixes == [] {
          gaps := gaps + [SourceSetKindDiffers(name)];
        }
        if binding.interface.Some? {
          gaps := gaps + [SourceSetKindDiffers(name)];
        }
      }
    }
    assert used - {} == used;
  }

  // ------------------------------------------------------------------- unused half

  /** `set(bindings) - used`, one complaint each. */
  method UnusedFindings(bound: set<string>, used: set<string>, complain: string -> Gap) returns (gaps: seq<Gap>)
    ensures gaps == [] <==> bound <= used
    ensures forall g :: g in gaps <==> exists id :: id in bound - used && g == complain(id)
  {
    gaps := [];
    var rest, done := bound - used, {};
    while rest != {}
      invariant done !! rest && done + rest == bound - used
      invariant gaps == [] <==> done == {}
      invariant forall g :: g in gaps <==> exists id :: id in done && g == complain(id)
      decreases |rest|
    {
      var id :| id in rest;
      gaps := gaps + [complain(id)];
      rest, done := rest - {id}, done + {id};
    }
    assert done == bound - used;
    assert forall id :: id in bound && id !in done ==> id in used;
    if id :| id in done {
      assert id in bound && id !in used;
    }
  }

  // ---------------------------------------------------------------------- together

  function DeclaredSets(sets: seq<SourceSet>): map<string, SourceSet> {
    FromPairs(seq(|sets|, k requires 0 <= k < |sets| => (sets[k].name, sets[k])))
  }

  /** Everything public is resolved. */
  predicate EverythingBound(state: DesiredState, i: Inventory) {
    var jobs, targets := Jobs(state.targets), TargetsOf(i);
    && (forall j :: j in jobs ==> JobSound(j, targets))
    && (forall d :: d in state.datasources ==> DatasourceSingle(d, ByTarget(jobs), targets))
    && (forall f :: f in state.federations ==> FederationSound(f, FederationsOf(i)))
    && (forall r :: r in Integrations(state.receivers) ==> IntegrationSound(r.1, ReceiversOf(i)))
    && (forall name :: name in AllowedFrom(state.surfaces) ==>
          SetSound(name, DeclaredSets(state.sourceSets), SetsOf(i)))
  }

  /** Everything bound is public. */
  predicate NothingUnused(state: DesiredState, i: Inventory) {
    && (forall id :: id in TargetsOf(i) ==> exists j :: j in Jobs(state.targets) && j.targetId == id)
    && (forall id :: id in FederationsOf(i) ==> exists f :: f in state.federations && f.targetId == id)
    && (forall id :: id in ReceiversOf(i) ==> exists r :: r in Integrations(state.receivers) && r.1.credentialRef == id)
    && (forall name :: name in SetsOf(i) ==> name in AllowedFrom(state.surfaces))
  }

  predicate Sound(state: DesiredState, i: Inventory) {
    && i.environment == state.environment && i.hostTarget == state.hostTarget
    && EverythingBound(state, i) && NothingUnused(state, i)
  }

  /** `resolution_findings`: silent exactly when the two inventories correspond, both ways. */
  method ResolutionFindings(state: DesiredState, i: Inventory) returns (gaps: seq<Gap>)
    ensures gaps == [] <==> Sound(state, i)
  {
    var identity :=
      (if i.environment != state.environment then [EnvironmentDiffers] else [])
      + (if i.hostTarget != state.hostTarget then [HostDiffers] else []);
    var targets, federations, receivers, sets := TargetsOf(i), FederationsOf(i), ReceiversOf(i), SetsOf(i);
    var jobs := Jobs(state.targets);
    var ofJobs, usedTargets := JobFindings(jobs, targets);
    var ofDatasources := DatasourceFindings(state.datasources, ByTarget(jobs), targets);
    var ofFederations, usedFederations := FederationFindings(state.federations, federations);
    var ofReceivers, usedReceivers := ReceiverFindings(Integrations(state.receivers), receivers);
    var usedSets := AllowedFrom(state.surfaces);
    var ofSets := SourceSetFindings(usedSets, DeclaredSets(state.sourceSets), sets);
    assert ofJobs + ofDatasources + ofFederations + ofReceivers + ofSets == [] <==> EverythingBound(state, i);
    var unusedTargets := UnusedFindings(targets.Keys, usedTargets, id => TargetUnused(id));
    var unusedFederations := UnusedFindings(federations.Keys, usedFederations, id => FederationUnused(id));
    var unusedReceivers := UnusedFindings(receivers.Keys, usedReceivers, id => ReceiverUnused(id));
    var unusedSets := UnusedFindings(sets.Keys, usedSets, name => SourceSetUnused(name));
    assert unusedTargets + unusedFederations + unusedReceivers + unusedSets == [] <==> NothingUnused(state, i);
    gaps := identity + ofJobs + ofDatasources + ofFederations + ofReceivers
      + unusedTargets + unusedFederations + unusedReceivers + ofSets + unusedSets;
  }

  // ----------------------------------------------------------------------- resolve

  datatype ResolvedEndpoint = ResolvedEndpoint(endpoints: seq<string>, credential: Option<string>)
  datatype ResolvedReceiver = ResolvedReceiver(credential: string, destination: Option<string>)

  /** A resolution: every lookup the renderer makes is in one of these. */
  datatype Bindings = Bindings(
    jobs: map<string, ResolvedEndpoint>, datasources: map<string, string>,
    federations: map<string, ResolvedEndpoint>, integrations: map<string, ResolvedReceiver>, sourceSets: Sets)

  /** What `resolve` raises: its own refusal, or the `KeyError` of a datasource target no job declares. */
  datatype ResolveError = Unsound(gaps: seq<Gap>) | TargetKey(id: string)

  /** Every datasource that names a target names a declared one. */
  predicate DatasourcesDeclared(state: DesiredState) {
    forall d :: d in state.datasources && d.targetId.Some? ==> d.targetId.value in ByTarget(Jobs(state.targets))
  }

  function ResolvedJob(j: ScrapeJob, targets: Targets): ResolvedEndpoint
    requires Resolvable(j, targets)
  {
    ResolvedEndpoint(EndpointsOf(j, targets), if j.publication.Some? then None else targets[j.targetId].credential)
  }

  function JobPairs(jobs: seq<ScrapeJob>, targets: Targets): seq<(string, ResolvedEndpoint)>
    requires forall j :: j in jobs ==> Resolvable(j, targets)
  {
    seq(|jobs|, k requires 0 <= k < |jobs| => (jobs[k].job, ResolvedJob(jobs[k], targets)))
  }

  predicate DatasourceResolvable(d: Datasource, byTarget: map<string, ScrapeJob>, targets: Targets) {
    d.targetId.Some? ==> d.targetId.value in byTarget && DatasourceSingle(d, byTarget, targets)
  }

  function UrlOf(d: Datasource, byTarget: map<string, ScrapeJob>, targets: Targets): string
    requires d.targetId.Some? && DatasourceResolvable(d, byTarget, targets)
  {
    var j := byTarget[d.targetId.value];
    j.scheme + "://" + EndpointsOf(j, targets)[0]
  }

  function DatasourcePairs(datasources: seq<Datasource>, byTarget: map<string, ScrapeJob>, targets: Targets)
    : seq<(string, string)>
    requires forall d :: d in datasources ==> DatasourceResolvable(d, byTarget, targets)
  {
    if datasources == [] then []
    else
      var d := datasources[|datasources| - 1];
      DatasourcePairs(datasources[..|datasources| - 1], byTarget, targets)
      + if d.targetId.Some? then [(d.name, UrlOf(d, byTarget, targets))] else []
  }

  function FederationPairs(declared: seq<Federation>, federations: Federations): seq<(string, ResolvedEndpoint)>
    requires forall f :: f in declared ==> f.targetId in federations
  {
    seq(|declared|, k requires 0 <= k < |declared| =>
      (declared[k].name, ResolvedEndpoint([federations[declared[k].targetId].endpoint], federations[declared[k].targetId].credential)))
  }

  function ReceiverPairs(integrations: seq<(string, Integration)>, receivers: Receivers): seq<(string, ResolvedReceiver)>
    requires forall r :: r in integrations ==> r.1.credentialRef in receivers
  {
    seq(|integrations|, k requires 0 <= k < |integrations| =>
      var b := receivers[integrations[k].1.credentialRef];
      (integrations[k].1.credentialRef, ResolvedReceiver(b.credential, b.destination)))
  }

  /** What a sound inventory resolves to. */
  function Resolved(state: DesiredState, i: Inventory): Bindings
    requires EverythingBound(state, i) && DatasourcesDeclared(state)
  {
    var jobs, targets := Jobs(state.targets), TargetsOf(i);
    Bindings(
      FromPairs(JobPairs(jobs, targets)),
      FromPairs(DatasourcePairs(state.datasources, ByTarget(jobs), targets)),
      FromPairs(FederationPairs(state.federations, FederationsOf(i))),
      FromPairs(ReceiverPairs(Integrations(state.receivers), ReceiversOf(i))),
      SetsOf(i))
  }

  /** `resolve`: it succeeds exactly on sound inventories whose datasource targets are all declared;
      the second half is not among its own findings. */
  method Resolve(state: DesiredState, i: Inventory) returns (r: Result<Bindings, ResolveError>)
    ensures r.Ok? <==> Sound(state, i) && DatasourcesDeclared(state)
    ensures r.Ok? ==> r.value == Resolved(state, i)
    ensures r.Err? && r.error.Unsound? <==> !Sound(state, i)
    ensures r.Err? && r.error.TargetKey? ==> FirstUndeclared(state.datasources, ByTarget(Jobs(state.targets)), r.error.id)
  {
    var gaps := ResolutionFindings(state, i);
    if gaps != [] {
      return Err(Unsound(gaps));
    }
    var jobs, targets := Jobs(state.targets), TargetsOf(i);
    var endpoints := ResolveJobs(jobs, targets);
    var urls := ResolveDatasources(state.datasources, ByTarget(jobs), targets);
    if urls.Err? {
      return Err(urls.error);
    }
    var upstreams, order := Build(FederationPairs(state.federations, FederationsOf(i)));
    var deliveries;
    deliveries, order := Build(ReceiverPairs(Integrations(state.receivers), ReceiversOf(i)));
    return Ok(Bindings(endpoints, urls.value, upstreams, deliveries, SetsOf(i)));
  }

  method ResolveJobs(jobs: seq<ScrapeJob>, targets: Targets) returns (resolved: map<string, ResolvedEndpoint>)
    requires forall j :: j in jobs ==> Resolvable(j, targets)
    ensures resolved == FromPairs(JobPairs(jobs, targets))
  {
    resolved := map[];
    for k := 0 to |jobs|
      invariant resolved == FromPairs(JobPairs(jobs[..k], targets))
    {
      var j := jobs[k];
      assert JobPairs(jobs[..k + 1], targets)[..k] == JobPairs(jobs[..k], targets);
      assert j in jobs;
      if j.publication.Some? {
        resolved := resolved[j.job := ResolvedEndpoint(j.publication.value, None)];
      } else {
        resolved := resolved[j.job := ResolvedEndpoint(targets[j.targetId].endpoints, targets[j.targetId].credential)];
      }
    }
    assert jobs[..|jobs|] == jobs;
  }

  /** `id` is the target of a datasource that no job declares, and of the first such datasource. */
  predicate FirstUndeclared(datasources: seq<Datasource>, byTarget: map<string, ScrapeJob>, id: string) {
    && id !in byTarget
    && exists k :: 0 <= k < |datasources| && datasources[k].targetId == Some(id)
                && forall l :: 0 <= l < k && datasources[l].targetId.Some? ==> datasources[l].targetId.value in byTarget
  }

  method ResolveDatasources(datasources: seq<Datasource>, byTarget: map<string, ScrapeJob>, targets: Targets)
    returns (r: Result<map<string, string>, ResolveError>)
    requires forall d :: d in datasources ==> DatasourceSingle(d, byTarget, targets)
    ensures r.Ok? <==> forall d :: d in datasources && d.targetId.Some? ==> d.targetId.value in byTarget
    ensures r.Ok? ==> r.value == FromPairs(DatasourcePairs(datasources, byTarget, targets))
    ensures r.Err? ==> r.error.TargetKey? && FirstUndeclared(datasources, byTarget, r.error.id)
  {
    var pairs: seq<(string, string)> := [];
    for k := 0 to |datasources|
      invariant forall d :: d in datasources[..k] && d.targetId.Some? ==> d.targetId.value in byTarget
      invariant pairs == DatasourcePairs(datasources[..k], byTarget, targets)
    {
      var d := datasources[k];
      assert datasources[..k + 1] == datasources[..k] + [d] && datasources[..k + 1][..k] == datasources[..k];
      if d.targetId.Some? {
        if d.targetId.value !in byTarget {
          assert d in datasources;
          assert forall l :: 0 <= l < k ==> datasources[l] in datasources[..k];
          return Err(TargetKey(d.targetId.value));
        }
        pairs := pairs + [(d.name, UrlOf(d, byTarget, targets))];
      }
    }
    var urls, order := Build(pairs);
    assert datasources[..|datasources|] == datasources;
    return Ok(urls);
  }
}
