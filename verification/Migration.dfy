/** `validate.py`: rewriting a capture-format document into the accepted contract. It is a partition of
    the capture's targets and loses none of them, but not everything that is said of them survives. */
module Migration {
  import opened Wrappers

  // ------------------------------------------------------------------ the two formats

  datatype SecretFile = SecretFile(openbaoPath: string, fileName: string)

  /** A stored leaf whose shape nobody measured. `more`: the object holds other keys besides these. */
  datatype Leaf = Null | Object(openbaoPath: Option<string>, fileName: Option<string>, more: bool) | OtherLeaf

  /** `params` and `static_labels` have no shape of their own; what they hold is kept as text. */
  datatype CaptureTarget = CaptureTarget(
    targetId: string, endpoints: seq<string>, credential: Option<Leaf>, tlsConfig: bool,
    metricsPath: Option<string>, scheme: Option<string>, params: Option<string>, staticLabels: Option<string>)

  datatype CaptureReceiver = CaptureReceiver(
    receiver: string, credentialFile: Option<Leaf>, kind: Option<string>, destination: Option<string>)

  /** An absent `receiver_bindings` reads as an empty one. */
  datatype Capture = Capture(
    version: int, environment: string, targets: seq<CaptureTarget>, receivers: seq<CaptureReceiver>,
    alertmanagerEndpoints: bool, capturedAt: Option<string>, capturedFrom: Option<string>, note: Option<string>)

  datatype HostBinding = HostBinding(targetId: Option<string>, identity: Option<string>, sshAlias: Option<string>)

  datatype Target = Target(targetId: string, endpoints: seq<string>, credential: Option<SecretFile>)
  datatype Federation = Federation(targetId: string, endpoint: string, credential: Option<SecretFile>)
  datatype Receiver = Receiver(credentialRef: string, credential: SecretFile, destination: Option<string>)

  datatype Produced = Produced(
    document: string, version: int, environment: string,
    hostTargetId: string, hostIdentity: string, hostAlias: string,
    targets: seq<Target>, federations: seq<Federation>, receivers: seq<Receiver>)

  /** Canonical digests are injective, and the two formats never serialise alike: their schema versions
      differ. */
  datatype Digest = OfCapture(capture: Capture) | OfProduced(produced: Produced) | Hex(text: string)

  datatype Plan = Plan(document: string, hostTargetId: string, federations: seq<string>)

  datatype Request = Request(captureFormat: bool, previousVersion: int, previousDigest: Digest, migrate: Option<Plan>)

  datatype Complaint =
    | RequestKind | RequestFormat | RequestVersion | RequestPreviousDigest
    | HostTarget | HostIncomplete(key: string) | FederationSplit | Uncarried
    | TlsConfig(targetId: string) | CredentialShape(targetId: string) | FederationEndpoints(targetId: string)
    | ReceiverCredential(receiver: string)

  // --------------------------------------------------------------------- one target

  /** `_capture_credential`: the one shape the contract accepts, or nothing. */
  function CaptureCredential(raw: Option<Leaf>): Option<SecretFile> {
    match raw
    case Some(Object(Some(path), Some(name), _)) => Some(SecretFile(path, name))
    case _ => None
  }

  /** What of a capture row is carried. */
  datatype Fact = Fact(targetId: string, endpoints: seq<string>, credential: Option<SecretFile>)

  function FactOf(row: CaptureTarget): Fact {
    Fact(row.targetId, row.endpoints, CaptureCredential(row.credential))
  }

  function TargetFact(t: Target): Fact {
    Fact(t.targetId, t.endpoints, t.credential)
  }

  function FederationFact(f: Federation): Fact {
    Fact(f.targetId, [f.endpoint], f.credential)
  }

  predicate Mappable(row: CaptureTarget, declared: set<string>) {
    && !row.tlsConfig
    && (row.credential.Some? ==> CaptureCredential(row.credential).Some?)
    && (row.targetId in declared ==> |row.endpoints| == 1)
  }

  predicate RowComplaint(c: Complaint, row: CaptureTarget, declared: set<string>) {
    match c
    case TlsConfig(id) => id == row.targetId && row.tlsConfig
    case CredentialShape(id) => id == row.targetId && row.credential.Some? && CaptureCredential(row.credential).None?
    case FederationEndpoints(id) => id == row.targetId && row.targetId in declared && |row.endpoints| != 1
    case _ => false
  }

  /** Where a row goes; a federation without exactly one endpoint goes nowhere. */
  datatype Destination = ToTargets(target: Target) | ToFederations(federation: Federation) | Nowhere

  /** The body of the loop over the capture's targets. `moved` grows as in the source, where nothing
      reads it afterwards. */
  method OneTarget(row: CaptureTarget, declared: set<string>)
    returns (complaints: seq<Complaint>, moved: seq<string>, destination: Destination)
    ensures complaints == [] <==> Mappable(row, declared)
    ensures forall c :: c in complaints <==> RowComplaint(c, row, declared)
    ensures row.targetId in declared ==>
              if |row.endpoints| == 1 then
                destination.ToFederations? && FederationFact(destination.federation) == FactOf(row)
              else destination == Nowhere
    ensures row.targetId !in declared ==> destination.ToTargets? && TargetFact(destination.target) == FactOf(row)
  {
    var tls := if row.tlsConfig then [TlsConfig(row.targetId)] else [];
    moved := (if row.params.Some? then [row.targetId + ".params"] else [])
      + (if row.staticLabels.Some? then [row.targetId + ".static_labels"] else []);
    var credential := None;
    var shape := [];
    if row.credential.Some? {
      credential := CaptureCredential(row.credential);
      if credential.None? {
        shape := [CredentialShape(row.targetId)];
      }
    }
    if row.targetId in declared {
      if |row.endpoints| != 1 {
        return tls + shape + [FederationEndpoints(row.targetId)], moved, Nowhere;
      }
      return tls + shape, moved, ToFederations(Federation(row.targetId, row.endpoints[0], credential));
    }
    return tls + shape, moved, ToTargets(Target(row.targetId, row.endpoints, credential));
  }

  // --------------------------------------------------------------------- all targets

  /** The facts of the rows on one side of the split, in capture order. */
  function Side(rows: seq<CaptureTarget>, declared: set<string>, federated: bool): seq<Fact> {
    if rows == [] then []
    else
      var last := rows[|rows| - 1];
      Side(rows[..|rows| - 1], declared, federated)
      + if (last.targetId in declared) == federated then [FactOf(last)] else []
  }

  function TargetFacts(ts: seq<Target>): seq<Fact> {
    seq(|ts|, i requires 0 <= i < |ts| => TargetFact(ts[i]))
  }

  function FederationFacts(fs: seq<Federation>): seq<Fact> {
    seq(|fs|, i requires 0 <= i < |fs| => FederationFact(fs[i]))
  }

  predicate AllMappable(rows: seq<CaptureTarget>, declared: set<string>) {
    forall r :: r in rows ==> Mappable(r, declared)
  }

  method SplitTargets(rows: seq<CaptureTarget>, declared: set<string>)
    returns (complaints: seq<Complaint>, targets: seq<Target>, federations: seq<Federation>)
    ensures complaints == [] <==> AllMappable(rows, declared)
    ensures forall c :: c in complaints <==> exists r :: r in rows && RowComplaint(c, r, declared)
    ensures TargetFacts(targets) == Side(rows, declared, false)
    ensures complaints == [] ==> FederationFacts(federations) == Side(rows, declared, true)
  {
    complaints, targets, federations := [], [], [];
    var movedToPublic := [];
    for i := 0 to |rows|
      invariant complaints == [] <==> AllMappable(rows[..i], declared)
      invariant forall c :: c in complaints <==> exists r :: r in rows[..i] && RowComplaint(c, r, declared)
      invariant TargetFacts(targets) == Side(rows[..i], declared, false)
      invariant complaints == [] ==> FederationFacts(federations) == Side(rows[..i], declared, true)
    {
      var row := rows[i];
      assert rows[..i + 1] == rows[..i] + [row] && rows[..i + 1][..i] == rows[..i];
      var found, moved, destination := OneTarget(row, declared);
      complaints := complaints + found;
      movedToPublic := movedToPublic + moved;
      match destination
      case ToTargets(t) =>
        assert TargetFacts(targets + [t]) == TargetFacts(targets) + [TargetFact(t)];
        targets := targets + [t];
      case ToFederations(f) =>
        assert FederationFacts(federations + [f]) == FederationFacts(federations) + [FederationFact(f)];
        federations := federations + [f];
      case Nowhere =>
    }
    assert rows[..|rows|] == rows;
  }

  // ----------------------------------------------------------------------- receivers

  predicate ReceiverMappable(r: CaptureReceiver) {
    CaptureCredential(r.credentialFile).Some?
  }

  function CarriedReceiver(r: CaptureReceiver): Receiver
    requires ReceiverMappable(r)
  {
    Receiver(r.receiver, CaptureCredential(r.credentialFile).value, r.destination)
  }

  method CarryReceivers(rows: seq<CaptureReceiver>) returns (complaints: seq<Complaint>, receivers: seq<Receiver>)
    ensures complaints == [] <==> forall r :: r in rows ==> ReceiverMappable(r)
    ensures forall c :: c in complaints <==> exists r :: r in rows && !ReceiverMappable(r) && c == ReceiverCredential(r.receiver)
    ensures complaints == [] ==> |receivers| == |rows|
    ensures complaints == [] ==> forall i :: 0 <= i < |rows| ==> ReceiverMappable(rows[i]) && receivers[i] == CarriedReceiver(rows[i])
  {
    complaints, receivers := [], [];
    for i := 0 to |rows|
      invariant complaints == [] <==> forall r :: r in rows[..i] ==> ReceiverMappable(r)
      invariant forall c :: c in complaints <==>
                  exists r :: r in rows[..i] && !ReceiverMappable(r) && c == ReceiverCredential(r.receiver)
      invariant complaints == [] ==> |receivers| == i
      invariant complaints == [] ==> forall k :: 0 <= k < i ==>
                  ReceiverMappable(rows[k]) && receivers[k] == CarriedReceiver(rows[k])
    {
      var r := rows[i];
      assert rows[..i + 1] == rows[..i] + [r];
      var credential := CaptureCredential(r.credentialFile);
      if credential.None? {
        assert !ReceiverMappable(rows[..i + 1][i]);
        complaints := complaints + [ReceiverCredential(r.receiver)];
      } else {
        receivers := receivers + [Receiver(r.receiver, credential.value, r.destination)];
      }
    }
    assert rows[..|rows|] == rows;
  }

  // ------------------------------------------------------------------- the migration

  function Text(o: Option<string>): string {
    if o.Some? then o.value else ""
  }

  predicate HostComplete(h: HostBinding) {
    Text(h.targetId) != "" && Text(h.identity) != "" && Text(h.sshAlias) != ""
  }

  function Ids(ids: seq<string>): set<string> {
    set id | id in ids
  }

  /** The request was reviewed against exactly this capture, and every part of it can be carried. */
  predicate Migratable(capture: Capture, q: Request, host: HostBinding, public: seq<string>) {
    && q.migrate.Some? && q.captureFormat
    && q.previousVersion == capture.version && q.previousDigest == OfCapture(capture)
    && q.migrate.value.hostTargetId == Text(host.targetId) && HostComplete(host)
    && Ids(q.migrate.value.federations) == Ids(public)
    && !capture.alertmanagerEndpoints
    && AllMappable(capture.targets, Ids(q.migrate.value.federations))
    && forall r :: r in capture.receivers ==> ReceiverMappable(r)
  }

  /** What of the capture is carried, and how: its targets' facts are the two arrays, split by declaration
      and in order, and every receiver's credential and destination are there. */
  predicate Carries(p: Produced, capture: Capture, plan: Plan, host: HostBinding) {
    var declared := Ids(plan.federations);
    && p.document == plan.document && p.version == capture.version + 1 && p.environment == capture.environment
    && p.hostTargetId == Text(host.targetId) && p.hostIdentity == Text(host.identity) && p.hostAlias == Text(host.sshAlias)
    && TargetFacts(p.targets) == Side(capture.targets, declared, false)
    && FederationFacts(p.federations) == Side(capture.targets, declared, true)
    && |p.receivers| == |capture.receivers|
    && forall i :: 0 <= i < |capture.receivers| ==>
         ReceiverMappable(capture.receivers[i]) && p.receivers[i] == CarriedReceiver(capture.receivers[i])
  }

  /** The checks before the loops: first that the request was reviewed against this document. */
  method ReviewComplaints(capture: Capture, q: Request) returns (complaints: seq<Complaint>)
    ensures RequestFormat in complaints <==> !q.captureFormat
    ensures RequestVersion in complaints <==> q.previousVersion != capture.version
    ensures RequestPreviousDigest in complaints <==> q.previousDigest != OfCapture(capture)
    ensures complaints == [] <==>
              q.captureFormat && q.previousVersion == capture.version && q.previousDigest == OfCapture(capture)
  {
    complaints := if !q.captureFormat then [RequestFormat] else [];
    if q.previousVersion != capture.version {
      complaints := complaints + [RequestVersion];
    }
    if q.previousDigest != OfCapture(capture) {
      complaints := complaints + [RequestPreviousDigest];
    }
  }

  /** Then that the host, the split and the leftover key are as they must be. */
  method EstateComplaints(uncarried: bool, plan: Plan, host: HostBinding, public: seq<string>)
    returns (complaints: seq<Complaint>)
    ensures HostTarget in complaints <==> plan.hostTargetId != Text(host.targetId)
    ensures FederationSplit in complaints <==> Ids(plan.federations) != Ids(public)
    ensures Uncarried in complaints <==> uncarried
    ensures complaints == [] <==>
              && plan.hostTargetId == Text(host.targetId) && HostComplete(host)
              && Ids(plan.federations) == Ids(public) && !uncarried
  {
    var binding := if plan.hostTargetId != Text(host.targetId) then [HostTarget] else [];
    var missing := HostComplaints(host);
    var split := if Ids(plan.federations) != Ids(public) then [FederationSplit] else [];
    var leftover := if uncarried then [Uncarried] else [];
    complaints := binding + missing + split + leftover;
  }

  method HostComplaints(host: HostBinding) returns (complaints: seq<Complaint>)
    ensures complaints == [] <==> HostComplete(host)
    ensures forall c :: c in complaints ==> c.HostIncomplete?
    ensures HostIncomplete("target_id") in complaints <==> Text(host.targetId) == ""
    ensures HostIncomplete("identity") in complaints <==> Text(host.identity) == ""
    ensures HostIncomplete("ssh_alias") in complaints <==> Text(host.sshAlias) == ""
  {
    complaints := if Text(host.targetId) == "" then [HostIncomplete("target_id")] else [];
    assert |"identity"| == 8 && |"target_id"| == 9 && |"ssh_alias"| == 9 && "ssh_alias"[0] != "target_id"[0];
    if Text(host.identity) == "" {
      complaints := complaints + [HostIncomplete("identity")];
    }
    if Text(host.sshAlias) == "" {
      complaints := complaints + [HostIncomplete("ssh_alias")];
    }
  }

  /** `migrate_capture`: it produces a document exactly when the capture is migratable, and then the
      document carries the capture's facts. */
  method MigrateCapture(capture: Capture, q: Request, host: HostBinding, public: seq<string>)
    returns (produced: Option<Produced>, complaints: seq<Complaint>)
    ensures complaints == [] <==> Migratable(capture, q, host, public)
    ensures produced.Some? <==> Migratable(capture, q, host, public)
    ensures produced.Some? ==> Carries(produced.value, capture, q.migrate.value, host)
  {
    if q.migrate.None? {
      return None, [RequestKind];
    }
    var plan := q.migrate.value;
    var declared := Ids(plan.federations);
    var ofReview := ReviewComplaints(capture, q);
    var ofEstate := EstateComplaints(capture.alertmanagerEndpoints, plan, host, public);
    var ofTargets, targets, federations := SplitTargets(capture.targets, declared);
    var ofReceivers, receivers := CarryReceivers(capture.receivers);
    complaints := ofReview + ofEstate + ofTargets + ofReceivers;
    if complaints != [] {
      return None, complaints;
    }
    return Some(Produced(
                  plan.document, capture.version + 1, capture.environment,
                  Text(host.targetId), Text(host.identity), Text(host.sshAlias),
                  targets, federations, receivers)), [];
  }

  // --------------------------------------------------------------------- conservation

  function Facts(rows: seq<CaptureTarget>): seq<Fact> {
    seq(|rows|, i requires 0 <= i < |rows| => FactOf(rows[i]))
  }

  lemma {:induction false} SidesPartition(rows: seq<CaptureTarget>, declared: set<string>)
    ensures multiset(Side(rows, declared, false)) + multiset(Side(rows, declared, true)) == multiset(Facts(rows))
    ensures forall f :: f in Side(rows, declared, false) ==> f.targetId !in declared
    ensures forall f :: f in Side(rows, declared, true) ==> f.targetId in declared
  {
    if rows != [] {
      var before, last := rows[..|rows| - 1], rows[|rows| - 1];
      SidesPartition(before, declared);
      assert Facts(rows) == Facts(before) + [FactOf(last)];
      var side := last.targetId in declared;
      assert Side(rows, declared, side) == Side(before, declared, side) + [FactOf(last)];
      assert Side(rows, declared, !side) == Side(before, declared, !side);
    }
  }

  /** Conservation: the capture's targets, with their endpoints and credentials, are exactly those of
      the two arrays together, each as often as it was captured, and each in the array its declaration
      puts it in. */
  lemma MigrationConserves(p: Produced, capture: Capture, plan: Plan, host: HostBinding)
    requires Carries(p, capture, plan, host)
    ensures multiset(TargetFacts(p.targets)) + multiset(FederationFacts(p.federations)) == multiset(Facts(capture.targets))
    ensures |p.targets| + |p.federations| == |capture.targets|
    ensures forall t :: t in p.targets ==> t.targetId !in plan.federations
    ensures forall f :: f in p.federations ==> f.targetId in plan.federations
  {
    var declared := Ids(plan.federations);
    SidesPartition(capture.targets, declared);
    assert |multiset(TargetFacts(p.targets)) + multiset(FederationFacts(p.federations))| == |multiset(Facts(capture.targets))|;
    forall t | t in p.targets ensures t.targetId !in plan.federations {
      var i :| 0 <= i < |p.targets| && p.targets[i] == t;
      assert TargetFacts(p.targets)[i] in Side(capture.targets, declared, false);
    }
    forall f | f in p.federations ensures f.targetId in plan.federations {
      var i :| 0 <= i < |p.federations| && p.federations[i] == f;
      assert FederationFacts(p.federations)[i] in Side(capture.targets, declared, true);
    }
  }

  /** Relative order survives on each side: of two rows on one side, the earlier stays earlier. */
  lemma {:induction false} SideKeepsOrder(rows: seq<CaptureTarget>, declared: set<string>, federated: bool, i: nat, j: nat)
    returns (a: nat, b: nat)
    requires i < j < |rows|
    requires (rows[i].targetId in declared) == federated && (rows[j].targetId in declared) == federated
    ensures a < b < |Side(rows, declared, federated)|
    ensures Side(rows, declared, federated)[a] == FactOf(rows[i]) && Side(rows, declared, federated)[b] == FactOf(rows[j])
  {
    var before := rows[..|rows| - 1];
    if j == |rows| - 1 {
      a := SideHas(before, declared, federated, i);
      b := |Side(before, declared, federated)|;
    } else {
      a, b := SideKeepsOrder(before, declared, federated, i, j);
    }
  }

  lemma {:induction false} SideHas(rows: seq<CaptureTarget>, declared: set<string>, federated: bool, i: nat)
    returns (a: nat)
    requires i < |rows| && (rows[i].targetId in declared) == federated
    ensures a < |Side(rows, declared, federated)| && Side(rows, declared, federated)[a] == FactOf(rows[i])
  {
    var before := rows[..|rows| - 1];
    if i == |rows| - 1 {
      a := |Side(before, declared, federated)|;
    } else {
      a := SideHas(before, declared, federated, i);
    }
  }

  // ---------------------------------------------------------------- migration_findings

  datatype Refusal = SupersedePrecondition | SupersedeVersion | SupersedeEnvironment | SupersedeUnchanged

  method MigrationFindings(capture: Capture, p: Produced, expected: Digest) returns (refusals: seq<Refusal>)
    ensures SupersedePrecondition in refusals <==> OfCapture(capture) != expected
    ensures SupersedeVersion in refusals <==> p.version != capture.version + 1
    ensures SupersedeEnvironment in refusals <==> p.environment != capture.environment
    ensures SupersedeUnchanged !in refusals
    ensures refusals == [] <==> Replaces(p, capture, expected)
  {
    refusals := if OfCapture(capture) != expected then [SupersedePrecondition] else [];
    if p.version != capture.version + 1 {
      refusals := refusals + [SupersedeVersion];
    }
    if p.environment != capture.environment {
      refusals := refusals + [SupersedeEnvironment];
    }
    if OfProduced(p) == OfCapture(capture) {
      refusals := refusals + [SupersedeUnchanged];
    }
  }

  predicate Replaces(p: Produced, capture: Capture, expected: Digest) {
    OfCapture(capture) == expected && p.version == capture.version + 1 && p.environment == capture.environment
  }

  /** Whatever the migration produces legitimately replaces the capture the request names. */
  method MigratedReplaces(capture: Capture, q: Request, host: HostBinding, public: seq<string>)
    returns (produced: Option<Produced>, refusals: seq<Refusal>)
    ensures produced.Some? <==> Migratable(capture, q, host, public)
    ensures produced.Some? ==> refusals == []
  {
    var complaints;
    produced, complaints := MigrateCapture(capture, q, host, public);
    refusals := [];
    if produced.Some? {
      refusals := MigrationFindings(capture, produced.value, q.previousDigest);
    }
  }

  // ------------------------------------------------------- what the document determines

  /** Two captures of which the same is carried. */
  predicate SameCarried(a: Capture, b: Capture, declared: set<string>)
    requires (forall r :: r in a.receivers ==> ReceiverMappable(r)) && forall r :: r in b.receivers ==> ReceiverMappable(r)
  {
    && a.version == b.version && a.environment == b.environment
    && Side(a.targets, declared, false) == Side(b.targets, declared, false)
    && Side(a.targets, declared, true) == Side(b.targets, declared, true)
    && CarriedReceivers(a.receivers) == CarriedReceivers(b.receivers)
  }

  function CarriedReceivers(rows: seq<CaptureReceiver>): seq<Receiver>
    requires forall r :: r in rows ==> ReceiverMappable(r)
  {
    seq(|rows|, i requires 0 <= i < |rows| => CarriedReceiver(rows[i]))
  }

  lemma FactsDetermine(a: Produced, b: Produced)
    ensures TargetFacts(a.targets) == TargetFacts(b.targets) <==> a.targets == b.targets
    ensures FederationFacts(a.federations) == FederationFacts(b.federations) <==> a.federations == b.federations
  {
    if TargetFacts(a.targets) == TargetFacts(b.targets) {
      assert |a.targets| == |TargetFacts(b.targets)| == |b.targets|;
      forall i | 0 <= i < |a.targets| ensures a.targets[i] == b.targets[i] {
        assert TargetFacts(a.targets)[i] == TargetFacts(b.targets)[i];
      }
    }
    if FederationFacts(a.federations) == FederationFacts(b.federations) {
      assert |a.federations| == |FederationFacts(b.federations)| == |b.federations|;
      forall i | 0 <= i < |a.federations| ensures a.federations[i] == b.federations[i] {
        assert FederationFacts(a.federations)[i] == FederationFacts(b.federations)[i];
        assert [a.federations[i].endpoint][0] == [b.federations[i].endpoint][0];
      }
    }
  }

  /** Exactly what of a capture the document determines: two captures migrate into one document if and
      only if they agree on version, environment, the facts of each side in order, and the receivers'
      credentials and destinations. */
  lemma DocumentDetermines(a: Capture, b: Capture, p: Produced, q: Produced, plan: Plan, host: HostBinding)
    requires Carries(p, a, plan, host) && Carries(q, b, plan, host)
    ensures (forall r :: r in a.receivers ==> ReceiverMappable(r)) && forall r :: r in b.receivers ==> ReceiverMappable(r)
    ensures p == q <==> SameCarried(a, b, Ids(plan.federations))
  {
    FactsDetermine(p, q);
    assert p.receivers == CarriedReceivers(a.receivers) && q.receivers == CarriedReceivers(b.receivers);
  }

  // -------------------------------------------------------------------- what is lost

  predicate BareLeaf(l: Option<Leaf>) {
    l.Some? && l.value.Object? ==> !l.value.more
  }

  predicate BareTarget(row: CaptureTarget) {
    && row.metricsPath.None? && row.scheme.None? && row.params.None? && row.staticLabels.None?
    && BareLeaf(row.credential)
  }

  predicate BareReceiver(row: CaptureReceiver) {
    row.kind.None? && BareLeaf(row.credentialFile)
  }

  /** The capture holds none of the keys that the migration drops without a finding. */
  predicate Bare(c: Capture) {
    && c.capturedAt.None? && c.capturedFrom.None? && c.note.None?
    && (forall row :: row in c.targets ==> BareTarget(row))
    && (forall row :: row in c.receivers ==> BareReceiver(row))
  }

  /** The row, the binding and the capture that a produced document still shows. */
  function RowOf(f: Fact): CaptureTarget {
    CaptureTarget(f.targetId, f.endpoints, LeafOf(f.credential), false, None, None, None, None)
  }

  function LeafOf(credential: Option<SecretFile>): Option<Leaf> {
    match credential
    case None => None
    case Some(SecretFile(path, name)) => Some(Object(Some(path), Some(name), false))
  }

  function RowsOf(facts: seq<Fact>): seq<CaptureTarget> {
    seq(|facts|, i requires 0 <= i < |facts| => RowOf(facts[i]))
  }

  function ReceiverRow(r: Receiver): CaptureReceiver {
    CaptureReceiver(r.credentialRef, LeafOf(Some(r.credential)), None, r.destination)
  }

  function ReceiverRows(rs: seq<Receiver>): seq<CaptureReceiver> {
    seq(|rs|, i requires 0 <= i < |rs| => ReceiverRow(rs[i]))
  }

  function Rebuilt(p: Produced): Capture {
    Capture(p.version - 1, p.environment, RowsOf(TargetFacts(p.targets)) + RowsOf(FederationFacts(p.federations)),
            ReceiverRows(p.receivers), false, None, None, None)
  }

  /** The two captures differ at most in the order of their targets. */
  predicate SameUpToOrder(a: Capture, b: Capture) {
    multiset(a.targets) == multiset(b.targets) && a.(targets := b.targets) == b
  }

  lemma {:induction false} BareRowsRebuilt(rows: seq<CaptureTarget>, declared: set<string>)
    requires AllMappable(rows, declared) && forall row :: row in rows ==> BareTarget(row)
    ensures multiset(RowsOf(Side(rows, declared, false))) + multiset(RowsOf(Side(rows, declared, true))) == multiset(rows)
  {
    if rows != [] {
      var before, last := rows[..|rows| - 1], rows[|rows| - 1];
      assert rows == before + [last];
      BareRowsRebuilt(before, declared);
      RowRebuilt(last, declared);
      var side := last.targetId in declared;
      RowsOfSnoc(Side(before, declared, side), FactOf(last));
      assert RowsOf(Side(rows, declared, side)) == RowsOf(Side(before, declared, side)) + [last];
      assert Side(rows, declared, !side) == Side(before, declared, !side);
    }
  }

  lemma RowRebuilt(row: CaptureTarget, declared: set<string>)
    requires Mappable(row, declared) && BareTarget(row)
    ensures RowOf(FactOf(row)) == row
  {
  }

  lemma RowsOfSnoc(facts: seq<Fact>, f: Fact)
    ensures RowsOf(facts + [f]) == RowsOf(facts) + [RowOf(f)]
  {
  }

  lemma ReceiverRebuilt(r: CaptureReceiver)
    requires ReceiverMappable(r)
    ensures ReceiverRow(CarriedReceiver(r)) == r <==> BareReceiver(r)
  {
  }

  lemma ReceiversRebuilt(rows: seq<CaptureReceiver>, receivers: seq<Receiver>)
    requires |receivers| == |rows|
    requires forall i :: 0 <= i < |rows| ==> ReceiverMappable(rows[i]) && receivers[i] == CarriedReceiver(rows[i])
    ensures ReceiverRows(receivers) == rows <==> forall row :: row in rows ==> BareReceiver(row)
  {
    forall i | 0 <= i < |rows| ensures ReceiverRows(receivers)[i] == rows[i] <==> BareReceiver(rows[i]) {
      ReceiverRebuilt(rows[i]);
    }
    if ReceiverRows(receivers) == rows {
      forall row | row in rows ensures BareReceiver(row) {
        var i :| 0 <= i < |rows| && rows[i] == row;
      }
    }
  }

  /** When nothing is lost: the capture can be read off the produced document, up to the order of its
      targets, if and only if it holds none of the keys the migration drops: a target's `metrics_path`,
      `scheme`, `params` and `static_labels`, a receiver's `kind`, the capture's three notes, and
      whatever else a credential says. */
  lemma NothingLostExactly(p: Produced, capture: Capture, plan: Plan, host: HostBinding)
    requires Carries(p, capture, plan, host) && AllMappable(capture.targets, Ids(plan.federations))
    requires !capture.alertmanagerEndpoints
    ensures SameUpToOrder(Rebuilt(p), capture) <==> Bare(capture)
  {
    var declared := Ids(plan.federations);
    var back := Rebuilt(p);
    ReceiversRebuilt(capture.receivers, p.receivers);
    if Bare(capture) {
      BareRowsRebuilt(capture.targets, declared);
    }
    if SameUpToOrder(back, capture) {
      forall row | row in capture.targets ensures BareTarget(row) {
        assert row in multiset(back.targets);
      }
    }
  }

  // ------------------------------------------------------------- what is not reported

  function StrippedLeaf(l: Option<Leaf>): Option<Leaf> {
    if l.Some? && l.value.Object? then Some(l.value.(more := false)) else l
  }

  function StrippedTarget(row: CaptureTarget): CaptureTarget {
    row.(credential := StrippedLeaf(row.credential), metricsPath := None, scheme := None, params := None,
         staticLabels := None)
  }

  function StrippedReceiver(row: CaptureReceiver): CaptureReceiver {
    row.(credentialFile := StrippedLeaf(row.credentialFile), kind := None)
  }

  function StrippedTargets(rows: seq<CaptureTarget>): seq<CaptureTarget> {
    seq(|rows|, i requires 0 <= i < |rows| => StrippedTarget(rows[i]))
  }

  function StrippedReceivers(rows: seq<CaptureReceiver>): seq<CaptureReceiver> {
    seq(|rows|, i requires 0 <= i < |rows| => StrippedReceiver(rows[i]))
  }

  /** The capture without the keys that are dropped. */
  function Stripped(c: Capture): Capture {
    c.(targets := StrippedTargets(c.targets), receivers := StrippedReceivers(c.receivers),
       capturedAt := None, capturedFrom := None, note := None)
  }

  /** The dropped keys leave no trace: a capture that holds them migrates exactly when the same capture
      without them does, into the same document and with no more said. The docstring promises a report
      of `params` and `static_labels`. */
  lemma DroppedKeysLeaveNoTrace(capture: Capture, q: Request, host: HostBinding, public: seq<string>, p: Produced)
    requires q.migrate.Some? && q.previousDigest == OfCapture(capture)
    ensures var bare := Stripped(capture);
            && Bare(bare)
            && (Migratable(capture, q, host, public)
                <==> Migratable(bare, q.(previousDigest := OfCapture(bare)), host, public))
            && (Carries(p, capture, q.migrate.value, host) <==> Carries(p, bare, q.migrate.value, host))
  {
    var declared := Ids(q.migrate.value.federations);
    var bare := Stripped(capture);
    StrippedSides(capture.targets, declared, true);
    StrippedSides(capture.targets, declared, false);
    StrippedRowsMap(capture.targets, declared);
    StrippedReceiversMap(capture.receivers);
    if |p.receivers| == |capture.receivers| {
      StrippedReceiversCarry(capture.receivers, p.receivers);
    }
  }

  lemma StrippedRowsMap(rows: seq<CaptureTarget>, declared: set<string>)
    ensures AllMappable(StrippedTargets(rows), declared) <==> AllMappable(rows, declared)
    ensures forall row :: row in StrippedTargets(rows) ==> BareTarget(row)
  {
    forall i | 0 <= i < |rows|
      ensures rows[i] in rows && StrippedTargets(rows)[i] in StrippedTargets(rows)
      ensures Mappable(StrippedTargets(rows)[i], declared) <==> Mappable(rows[i], declared)
    {
    }
  }

  lemma StrippedReceiversMap(rows: seq<CaptureReceiver>)
    ensures (forall r :: r in StrippedReceivers(rows) ==> ReceiverMappable(r)) <==> (forall r :: r in rows ==> ReceiverMappable(r))
    ensures forall row :: row in StrippedReceivers(rows) ==> BareReceiver(row)
  {
    forall i | 0 <= i < |rows|
      ensures rows[i] in rows && StrippedReceivers(rows)[i] in StrippedReceivers(rows)
      ensures ReceiverMappable(StrippedReceivers(rows)[i]) <==> ReceiverMappable(rows[i])
    {
    }
  }

  lemma StrippedReceiversCarry(rows: seq<CaptureReceiver>, receivers: seq<Receiver>)
    requires |receivers| == |rows|
    ensures (forall i :: 0 <= i < |rows| ==> ReceiverMappable(rows[i]) && receivers[i] == CarriedReceiver(rows[i]))
       <==> (forall i :: 0 <= i < |rows| ==>
               ReceiverMappable(StrippedReceivers(rows)[i]) && receivers[i] == CarriedReceiver(StrippedReceivers(rows)[i]))
  {
    forall i | 0 <= i < |rows|
      ensures ReceiverMappable(StrippedReceivers(rows)[i]) <==> ReceiverMappable(rows[i])
      ensures ReceiverMappable(rows[i]) ==> CarriedReceiver(StrippedReceivers(rows)[i]) == CarriedReceiver(rows[i])
    {
      assert StrippedReceivers(rows)[i] == StrippedReceiver(rows[i]);
    }
  }

  lemma {:induction false} StrippedSides(rows: seq<CaptureTarget>, declared: set<string>, federated: bool)
    ensures Side(StrippedTargets(rows), declared, federated) == Side(rows, declared, federated)
  {
    if rows != [] {
      assert StrippedTargets(rows)[..|rows| - 1] == StrippedTargets(rows[..|rows| - 1]);
      StrippedSides(rows[..|rows| - 1], declared, federated);
    }
  }

  /** A target scraped at `/v1/sys/metrics`: its capture is migratable, the document is the one of the
      same capture without the path, and nothing is said. */
  lemma MetricsPathIsLost(endpoint: string, host: HostBinding, plan: Plan)
    requires HostComplete(host) && plan.hostTargetId == Text(host.targetId) && plan.federations == []
    ensures var row := CaptureTarget("vault", [endpoint], None, false, Some("/v1/sys/metrics"), None, None, None);
            var with := Capture(1, "production", [row], [], false, None, None, None);
            var without := with.(targets := [row.(metricsPath := None)]);
            var p := Produced(
              plan.document, 2, "production", Text(host.targetId), Text(host.identity), Text(host.sshAlias),
              [Target("vault", [endpoint], None)], [], []);
            && Migratable(with, Request(true, 1, OfCapture(with), Some(plan)), host, [])
            && Carries(p, with, plan, host) && Carries(p, without, plan, host)
            && !SameUpToOrder(Rebuilt(p), with) && SameUpToOrder(Rebuilt(p), without)
  {
    var row := CaptureTarget("vault", [endpoint], None, false, Some("/v1/sys/metrics"), None, None, None);
    var with := Capture(1, "production", [row], [], false, None, None, None);
    var without := with.(targets := [row.(metricsPath := None)]);
    var p := Produced(
      plan.document, 2, "production", Text(host.targetId), Text(host.identity), Text(host.sshAlias),
      [Target("vault", [endpoint], None)], [], []);
    OneSide(row);
    OneSide(row.(metricsPath := None));
    assert Ids(plan.federations) == {} == Ids([]);
    assert row in with.targets;
    NothingLostExactly(p, with, plan, host);
    NothingLostExactly(p, without, plan, host);
  }

  lemma OneSide(row: CaptureTarget)
    ensures Side([row], {}, false) == [FactOf(row)] && Side([row], {}, true) == []
  {
    assert [row][..0] == [];
  }
}
