/** The typed records the decision modules read: desired state, one read-back of a host, and the
    rendered tree. Fields no modelled decision looks at are left out. */
module Records {
  import opened Wrappers

  // ------------------------------------------------------------------- digests

  /** SHA-256 as a constructor over its preimage, hence injective. `Hex` is any digest text a host
      may report that is not known to be the hash of anything. */
  datatype Digest = Sha256(preimage: string) | Hex(text: string)

  /** A rendered tree: paths and texts in render order. */
  type Tree = seq<(string, string)>

  // ------------------------------------------------------------- desired state

  /** `publication` is the endpoint list of a reviewed publication, when there is one. */
  datatype ScrapeJob = ScrapeJob(
    job: string, targetId: string, scheme: string, authenticated: bool,
    publication: Option<seq<string>>, expected: Option<nat>)

  datatype TargetSet = TargetSet(product: string, jobs: seq<ScrapeJob>)

  datatype Federation = Federation(name: string, targetId: string, authenticated: bool)

  datatype IntegrationKind = Telegram | Email | Webhook | Slack

  datatype Integration = Integration(kind: IntegrationKind, credentialRef: string)

  datatype Receiver = Receiver(name: string, integrations: seq<Integration>)

  datatype Route = Route(identifier: string, receiver: string)

  datatype SurfaceKind = HostService | ContainerPublished
  datatype Family = Ipv4 | Ipv6
  datatype DeclaredFamily = Only(family: Family) | DualStack
  datatype ExposureKind = Closed | Loopback | Ingress | Public
  datatype Protocol = Tcp | Udp

  /** `exposure` "none" is `Closed`. */
  datatype Surface = Surface(
    name: string, kind: SurfaceKind, port: nat, protocol: Protocol, family: DeclaredFamily,
    exposure: ExposureKind, allowFrom: Option<string>)

  datatype SourceKind = TunnelInterface | AddressSet
  datatype SourceSet = SourceSet(name: string, kind: SourceKind)

  /** `counters` are the `*_total` names in the gate's integrity predicate, in order; `window` is
      its length in seconds when the spelling is one the verifier reads. */
  datatype Gate = Gate(name: string, counters: seq<string>, window: Option<nat>)

  datatype Datasource = Datasource(name: string, service: Option<string>, targetId: Option<string>)
  datatype RosterKind = Service | OtherResource
  datatype RosterEntry = RosterEntry(name: string, kind: RosterKind, port: Option<nat>)
  datatype SyslogFile = SyslogFile(path: string, owner: string, group: string, mode: string)

  /** `lagBudgets` are the durations the ingestion alerts are rendered from: of the streams whose lag is
      measured, and of a live projection. */
  datatype DesiredState = DesiredState(
    environment: string, hostTarget: string,
    prometheusVersion: Option<string>, alertmanagerVersion: Option<string>,
    targets: seq<TargetSet>, federations: seq<Federation>,
    receivers: seq<Receiver>, routes: seq<Route>,
    surfaces: seq<Surface>, sourceSets: seq<SourceSet>, gates: seq<Gate>,
    datasources: seq<Datasource>, roster: seq<RosterEntry>, syslogFiles: seq<SyslogFile>,
    lagBudgets: seq<string>)

  /** All scrape jobs, set by set, in declaration order. */
  function Jobs(targets: seq<TargetSet>): seq<ScrapeJob> {
    if targets == [] then [] else Jobs(targets[..|targets| - 1]) + targets[|targets| - 1].jobs
  }

  // -------------------------------------------------------- derived from a surface

  datatype Chain = Input | DockerUser | OtherChain(name: string)

  /** `families_of` and `_families`. */
  function FamiliesOf(s: Surface): seq<Family> {
    match s.family
    case DualStack => [Ipv4, Ipv6]
    case Only(f) => [f]
  }

  /** `chain_for` and `_chain_for`: an IPv4 container publish is forwarded, all else is input. */
  function ChainFor(s: Surface, family: Family): Chain {
    if s.kind == ContainerPublished && family == Ipv4 then DockerUser else Input
  }

  datatype Reach = Reachable | Refused | Inconclusive

  /** `expectation_for`: what a probe from outside should see. */
  function ExpectationFor(s: Surface): Reach {
    if s.exposure == Public then Reachable else Refused
  }

  // ----------------------------------------------------------------- live state

  /** A timestamp as `datetime.fromisoformat` reads it: not at all, without an offset, or with one. */
  datatype Stamp = Unreadable | Naive(at: real) | Aware(at: real)

  datatype TreeEntry = TreeEntry(path: string, sha256: Digest)
  datatype LiveRelease = LiveRelease(current: string, previous: Option<string>)
  datatype TargetHealth = Up | Down | UnknownHealth
  datatype LiveTarget = LiveTarget(job: string, health: TargetHealth)
  datatype RuleHealth = RuleOk | RuleErr | RuleUnknown
  datatype LiveRule = LiveRule(group: string, name: string, health: RuleHealth)
  datatype LiveRoute = LiveRoute(identifier: string, receiver: string)
  datatype IntegrityReading = IntegrityReading(counter: string, value: nat, processStartTime: real)
  datatype LiveCanary = LiveCanary(
    fired: bool, delivered: bool, recovered: bool, receiver: string, evidence: Option<string>)
  datatype LiveProbe = LiveProbe(
    surface: string, family: Family, chain: Chain, expectation: Reach, outcome: Reach,
    controlOutcome: Reach, controlEvidence: Option<string>)
  datatype DigestAbsence = OrderingManifestAbsent | NothingRestored
  datatype LiveRollback = LiveRollback(
    exercised: bool, restoredRelease: Option<string>, restoredDigest: Option<Digest>,
    digestAbsence: Option<DigestAbsence>, succeeded: bool)

  datatype LiveState = LiveState(
    observedAt: Stamp, environment: string, hostTargetId: string, release: LiveRelease,
    tree: seq<TreeEntry>, targets: seq<LiveTarget>, rules: seq<LiveRule>, routes: seq<LiveRoute>,
    integrity: seq<IntegrityReading>, canary: LiveCanary, probes: seq<LiveProbe>,
    rollback: Option<LiveRollback>)

  // ------------------------------------------------------------------- findings

  /** A finding is its code and where it points; the wording is not modelled. */
  datatype Finding = Finding(code: Code, location: string)

  datatype Code =
    | TreeNotRead | TreeMissing | TreeDiffers | TreeUnexpected
    | TargetsNotRead | TargetAbsent | TargetCount | TargetUnhealthy | TargetUndeclared
    | RulesNotRead | RuleAbsent | RuleUnhealthy
    | IntegrityBaselineAbsent | IntegrityCounterUnread | IntegrityCounterUnwatched
    | IntegrityBaselineCounterAbsent | IntegrityBaselineZero | IntegrityProcessRestarted
    | IntegrityCounterReset | IntegrityIncreased
    | IntegrityWindowUnreadable | IntegrityWindowInverted | IntegrityWindowTooShort
    | RoutesNotRead | RouteAbsent | RouteReceiverDiffers
    | CanaryNotFired | CanaryReceiverUndeclared | CanaryNotDelivered | CanaryDeliveryUnproven
    | CanaryNotRecovered
    | ProbesNotRead | ProbeFamilyMissing | ProbeUndeclaredSurface | ProbeChainInert
    | ProbeExpectationWrong | ProbeControlFailed | ProbeControlUnproven | ProbeInconclusive
    | ProbeUnexpectedReachable | ProbeUnexpectedRefused
    | RollbackNotExercised | RollbackFailed | RollbackTargetAbsent | RollbackBaselineAbsent
    | RollbackRestoredNothing | RollbackOrderUnknown | RollbackDigestMismatch
    | ObservationEnvironment | ObservationHost
    | PromotionTargetUnnamed | PromotionTargetMismatch | PromotionRevisionNotExact
    | PromotionRevisionUnproven | PromotionUnauthorized
    | PromotionValidationFailed | PromotionNoRollbackTarget | PromotionStageRaised
    | RollbackImpossible | RollbackRaised | RollbackUnobserved
    | ReceiptAcceptedWithFailedCheck | ReceiptAcceptedTargets | ReceiptAcceptedNoRules
    | ReceiptAcceptedUnhealthyRules | ReceiptAcceptedCanary | ReceiptAcceptedUnprovenRun
    | ReceiptAcceptedWithoutVerdict
    | DriftIncomparable | DriftLiveTreeNotRead | DriftDesiredLive | DriftLiveReceipt
    | DriftReceiptDesired
}
