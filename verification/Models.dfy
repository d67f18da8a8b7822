/** The sensor's shared records: addresses, policy rules, observations, episodes' keys and
    transitions, and evidence envelopes.  Times are integers (microseconds). */
module Models {
  import opened Basics

  datatype IpVersion = V4 | V6

  datatype Address = Address(version: IpVersion, value: nat)

  /** Protocol names of an observation: "tcp", "udp", "icmp" or "ip:<number>". */
  datatype Proto = Tcp | Udp | Icmp | Ip(number: nat)

  /** A rule constrains the protocol to one name or not at all. */
  datatype RuleProto = AnyProto | Only(proto: Proto)

  datatype Direction = Inbound | Outbound | Unknown

  datatype Outcome = Complete | Partial | Undecodable

  /** One bit of the FieldPresence flag set. */
  datatype Field =
    | IP_VERSION | SOURCE | DESTINATION | PROTOCOL
    | SOURCE_PORT | DESTINATION_PORT | TCP_FLAGS | ICMP

  /** Why a frame did not decode completely. */
  datatype Reason =
    | HeaderByteLimit
    | TruncatedHeader
    | HeaderExceedsIpLength
    | UnsupportedDatalink
    | VlanDepthLimit
    | InvalidTcpDataOffset
    | InvalidIpv4Version
    | InvalidIpv4Ihl
    | InvalidIpv4TotalLength
    | NonInitialFragment
    | InvalidIpv6Version
    | Ipv6JumbogramUnsupported
    | Ipv6ExtensionCountLimit
    | EncryptedEsp
    | UnsupportedEthertype(ethertype: nat)

  datatype Observation = Observation(
    capturedAt: int,
    monotonicAt: Option<int>,
    sensorId: string,
    sourceGeneration: string,
    capturePoint: string,
    interface: Option<string>,
    direction: Direction,
    wireLength: nat,
    ipVersion: Option<IpVersion>,
    source: Option<Address>,
    destination: Option<Address>,
    protocol: Option<Proto>,
    sourcePort: Option<nat>,
    destinationPort: Option<nat>,
    tcpFlags: Option<nat>,
    icmpType: Option<nat>,
    icmpCode: Option<nat>,
    fields: set<Field>,
    outcome: Outcome,
    decodeReason: Option<Reason>,
    late: bool
  )

  /** A CIDR block; `WellFormed` in module Policy says base and prefix length agree. */
  datatype Network = Network(version: IpVersion, base: nat, prefixLen: nat)

  datatype PolicyMatch = PolicyMatch(
    sourceCidrs: seq<Network>,
    destinationCidrs: seq<Network>,
    protocol: RuleProto,
    destinationPorts: Option<set<nat>>
  )

  datatype Disposition = NoEnforcement | DropCandidate

  datatype PolicyRule = PolicyRule(
    id: string,
    description: string,
    enabled: bool,
    match_: PolicyMatch,
    severity: nat,
    enforcement: Disposition
  )

  datatype EpisodeKey = EpisodeKey(
    policyRevision: string,
    ruleId: string,
    ipVersion: Option<IpVersion>,
    source: Option<Address>,
    destination: Option<Address>,
    protocol: Option<Proto>,
    sourcePort: Option<nat>,
    destinationPort: Option<nat>,
    icmpType: Option<nat>,
    icmpCode: Option<nat>,
    fields: set<Field>,
    decodeReason: Option<Reason>
  )

  datatype Phase = Start | Progress | Close

  datatype CloseReason = Idle | CapacityEvicted | PolicyReload | SourceExhausted | Shutdown

  /** Observations and wire bytes seen at one capture point. */
  datatype PointCount = PointCount(observations: nat, bytes: nat)

  datatype Transition = Transition(
    episodeId: nat,
    phase: Phase,
    key: EpisodeKey,
    rule: PolicyRule,
    firstObserved: int,
    lastObserved: int,
    lifecycleTime: int,
    observationCount: nat,
    observedBytes: nat,
    lateCount: nat,
    perPoint: map<string, PointCount>,
    truncated: bool,
    closeReason: Option<CloseReason>
  )

  const MAX_EVIDENCE_LINE_BYTES: nat := 262144

  datatype SystemName =
    | SensorStart | SensorStopping | SensorStop
    | SourceEstablished | SourceFailed | SourceRetrying | SourceRecovered | SourceStopped
    | PolicyReloadSuccess | PolicyReloadNoop | PolicyReloadFailed
    | CoverageGap | KernelDropsObserved

  /** A field's value: what JSON can write, numbers by their digits, or anything else. */
  datatype Value =
    | Null | Text(text: string) | Number(digits: string) | Flag(flag: bool) | List(items: seq<Value>) | Other

  /** One entry of a system event's dictionary of fields, in the dictionary's order. */
  datatype Member = Member(key: string, value: Value)

  datatype Payload =
    | Episode(transition: Transition)
    | System(name: SystemName, fields: seq<Member>)

  datatype Envelope = Envelope(
    sequence: nat,
    emittedAt: int,
    policyRevision: string,
    payload: Payload
  )

  datatype Config = Config(
    rules: seq<PolicyRule>,
    revision: string,
    runtimeHash: nat,
    capacity: nat,
    idle: int,
    progress: int,
    lateness: int
  )
}
