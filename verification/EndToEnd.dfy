/** Parity from the wire: what the firewall does to a frame's packet and what the detector says of
    the decoded frame agree. */
module EndToEnd {
  import opened Bytes
  import opened Models
  import opened Policy
  import opened Enforcement
  import opened EnforcementPlacement
  import opened Decode
  import opened PacketBuilders
  import opened PacketInverse

  function PortOf(t: TransportHeader): nat {
    match t
    case TcpHeader(_, destinationPort, _, _, _, _, _) => destinationPort
    case UdpHeader(_, destinationPort, _) => destinationPort
    case _ => 0
  }

  /** The packet a firewall sees when the frame is routed: what the builder put into it. */
  function PacketOf(fr: Frame): Packet {
    match fr.ip
    case V4Packet(h) => Packet(V4, BigEndian(h.source), BigEndian(h.destination), h.number as nat, PortOf(fr.transport))
    case V6Packet(h, _, upper) => Packet(V6, BigEndian(h.source), BigEndian(h.destination), upper as nat,
      PortOf(fr.transport))
  }

  lemma ExpectedIsDescribed(fr: Frame, wireLength: nat, c: Context)
    requires FrameValid(fr)
    ensures Describes(PacketOf(fr), Expected(fr, wireLength, c)) == true
  {
  }

  lemma FrameIsDescribed(fr: Frame, wireLength: nat, c: Context)
    requires FrameValid(fr)
    ensures Describes(PacketOf(fr), Decoded(Build(fr), wireLength, DLT_EN10MB, c)) == true
  {
    ExpectedIsDescribed(fr, wireLength, c);
    DecoderInvertsBuilder(fr, wireLength, c);
  }

  /** The rules rendered for a gateway drop a built frame's packet when it is forwarded, those rendered for
      a host when it comes in or goes out, each iff the detector, given the decoded bytes of that frame,
      reports an enabled rule marked for dropping; on every other path the packet passes. */
  lemma FirewallEqualsDetectorOnTheWire(text: Expression -> string, topology: Topology, rules: seq<PolicyRule>,
      lines: seq<Line>, path: Path, fr: Frame, wireLength: nat, c: Context)
    requires FrameValid(fr) && (forall r :: r in rules ==> Validated(r))
    requires lines == Rendered(text, topology, rules)
    ensures forall q :: q in CompileRules(ById(rules)) ==> PredicateWellFormed(q)
    ensures Filtered(lines, path, PacketOf(fr)) <==>
      && Guards(topology, path)
      && exists r :: r in RulesOf(Holding(CompileRules(ById(rules)), Decoded(Build(fr), wireLength, DLT_EN10MB, c)))
                     && r.enforcement == DropCandidate
  {
    FrameIsDescribed(fr, wireLength, c);
    var o := Decoded(Build(fr), wireLength, DLT_EN10MB, c);
    FilteredExactly(text, topology, rules, lines, path, PacketOf(fr), o);
  }

  // ---------------------------------------------------------------- overlaps on the wire

  /** The bytes of a value, most significant first. */
  function BytesOf(value: nat, count: nat): (s: seq<byte>)
    ensures |s| == count
  {
    if count == 0 then [] else BytesOf(value / 256, count - 1) + [value % 256]
  }

  lemma {:induction false} BytesInverse(value: nat, count: nat)
    requires value < Pow2(8 * count)
    ensures BigEndian(BytesOf(value, count)) == value
  {
    if count > 0 {
      EightDoublings(8 * (count - 1));
      BytesInverse(value / 256, count - 1);
      var s := BytesOf(value, count);
      assert s[..|s| - 1] == BytesOf(value / 256, count - 1);
    }
  }

  lemma EightDoublings(n: nat)
    ensures Pow2(n + 8) == 256 * Pow2(n)
  {
    assert Pow2(n + 8) == 2 * Pow2(n + 7) == 4 * Pow2(n + 6) == 8 * Pow2(n + 5) == 16 * Pow2(n + 4);
    assert Pow2(n + 4) == 2 * Pow2(n + 3) == 4 * Pow2(n + 2) == 8 * Pow2(n + 1) == 16 * Pow2(n);
  }

  lemma AddressFits(cidrs: seq<Network>, a: Address)
    requires (forall n :: n in cidrs ==> WellFormed(n)) && InAny(cidrs, a)
    ensures a.value < Pow2(Width(a.version))
  {
    var n :| n in cidrs && Contains(n, a);
    ContainsIsInterval(n, a);
  }

  /** A rule as the schema admits it: ports are of 16 bits. */
  predicate OfSchema(r: PolicyRule) {
    && Validated(r)
    && (r.match_.destinationPorts.Some? ==> forall port :: port in r.match_.destinationPorts.value ==> port < 0x1_0000)
  }

  function Zeros(n: nat): (s: seq<byte>)
    ensures |s| == n
  {
    seq(n, _ => 0)
  }

  function NumberOf(v: IpVersion, p: Proto): byte {
    if p == Tcp then 6 else if p == Udp then 17 else if v == V4 then 1 else 58
  }

  function HeaderOf(p: Proto, port: nat): TransportHeader {
    if p == Tcp then TcpHeader(0, port, Zeros(8), 5, 0, 0, Zeros(6))
    else if p == Udp then UdpHeader(0, port, Zeros(4)) else IcmpHeader(0, 0)
  }

  /** A plain frame with an empty transport payload: TCP, UDP or ICMP from `s` to `d`. */
  function PlainFrame(v: IpVersion, s: nat, d: nat, p: Proto, port: nat): Frame {
    var t := HeaderOf(p, port);
    var ip :=
      if v == V4
      then V4Packet(V4Header(5, 0, 20 + TransportSize(t), Zeros(2), 0, 64, NumberOf(v, p), Zeros(2),
                             BytesOf(s, 4), BytesOf(d, 4), []))
      else V6Packet(V6Header(0, Zeros(3), TransportSize(t), 64, BytesOf(s, 16), BytesOf(d, 16)), [], NumberOf(v, p));
    Frame(Zeros(12), [], ip, t, [])
  }

  predicate Sendable(p: Proto) { p == Tcp || p == Udp || p == Icmp }

  lemma PlainFrameValid(v: IpVersion, s: nat, d: nat, p: Proto, port: nat)
    requires Sendable(p) && port < 0x1_0000
    ensures FrameValid(PlainFrame(v, s, d, p, port))
  {
  }

  lemma PlainPacket(v: IpVersion, s: nat, d: nat, p: Proto, port: nat)
    requires Sendable(p) && port < 0x1_0000 && s < Pow2(Width(v)) && d < Pow2(Width(v))
    ensures FrameValid(PlainFrame(v, s, d, p, port))
    ensures PacketOf(PlainFrame(v, s, d, p, port))
      == Packet(v, s, d, NumberOf(v, p) as nat, if p == Icmp then 0 else port)
  {
    PlainFrameValid(v, s, d, p, port);
    if v == V4 {
      BytesInverse(s, 4);
      BytesInverse(d, 4);
    } else {
      BytesInverse(s, 16);
      BytesInverse(d, 16);
    }
  }

  /** A rule matches every complete observation of a packet it admits. */
  lemma DescribedMatches(r: PolicyRule, p: Packet, o: Observation, proto: Proto)
    requires Validated(r) && r.enabled && Describes(p, o)
    requires InAny(r.match_.sourceCidrs, Address(p.version, p.source))
    requires InAny(r.match_.destinationCidrs, Address(p.version, p.destination))
    requires Sendable(proto) && p.number == NumberOf(p.version, proto) as nat
    requires r.match_.protocol.Only? ==> r.match_.protocol.proto == proto
    requires r.match_.destinationPorts.Some? ==> p.dport in r.match_.destinationPorts.value
    ensures RuleMatches(r, o)
  {
    L4Parity(r, p, o);
  }

  /** Some Ethernet frame is decoded to an observation that both rules match. */
  ghost predicate FrameMatchesBoth(a: PolicyRule, b: PolicyRule, wireLength: nat, c: Context)
    requires RuleWellFormed(a) && RuleWellFormed(b)
  {
    exists fr :: FrameValid(fr) && BothMatch(a, b, Decoded(Build(fr), wireLength, DLT_EN10MB, c))
  }

  predicate BothMatch(a: PolicyRule, b: PolicyRule, o: Observation)
    requires RuleWellFormed(a) && RuleWellFormed(b)
  {
    RuleMatches(a, o) && RuleMatches(b, o)
  }

  lemma CommonEnds(a: PolicyRule, b: PolicyRule) returns (v: IpVersion, s: nat, d: nat)
    requires RuleWellFormed(a) && RuleWellFormed(b) && OverlapInOneFamily(a, b)
    ensures s < Pow2(Width(v)) && d < Pow2(Width(v))
    ensures InAny(a.match_.sourceCidrs, Address(v, s)) && InAny(a.match_.destinationCidrs, Address(v, d))
    ensures InAny(b.match_.sourceCidrs, Address(v, s)) && InAny(b.match_.destinationCidrs, Address(v, d))
  {
    v :| SharedBlock(v, a.match_.sourceCidrs, b.match_.sourceCidrs)
         && SharedBlock(v, a.match_.destinationCidrs, b.match_.destinationCidrs);
    var x := SharedBlockWitness(v, a.match_.sourceCidrs, b.match_.sourceCidrs);
    var y := SharedBlockWitness(v, a.match_.destinationCidrs, b.match_.destinationCidrs);
    AddressFits(a.match_.sourceCidrs, x);
    AddressFits(a.match_.destinationCidrs, y);
    s, d := x.value, y.value;
  }

  /** A packet that both rules admit. */
  lemma CommonPacket(a: PolicyRule, b: PolicyRule) returns (v: IpVersion, s: nat, d: nat, p: Proto, port: nat)
    requires OfSchema(a) && OfSchema(b)
    requires Reported(a, b) && OverlapInOneFamily(a, b)
    ensures s < Pow2(Width(v)) && d < Pow2(Width(v)) && Sendable(p) && port < 0x1_0000
    ensures Admits(a, v, s, d, p, port) && Admits(b, v, s, d, p, port)
  {
    v, s, d := CommonEnds(a, b);
    port := CommonPort(a, b);
    if a.match_.destinationPorts.None? && b.match_.destinationPorts.None? {
      port := 0;
    }
    p := if a.match_.protocol.Only? then a.match_.protocol.proto
         else if b.match_.protocol.Only? then b.match_.protocol.proto else Tcp;
  }

  predicate Admits(r: PolicyRule, v: IpVersion, s: nat, d: nat, p: Proto, port: nat)
    requires RuleWellFormed(r)
  {
    && InAny(r.match_.sourceCidrs, Address(v, s)) && InAny(r.match_.destinationCidrs, Address(v, d))
    && (r.match_.protocol.Only? ==> r.match_.protocol.proto == p)
    && (r.match_.destinationPorts.Some? ==> p != Icmp && port in r.match_.destinationPorts.value)
  }

  lemma AdmittedMatches(r: PolicyRule, v: IpVersion, s: nat, d: nat, p: Proto, port: nat, fr: Frame, wireLength: nat,
      c: Context)
    requires OfSchema(r) && r.enabled && Admits(r, v, s, d, p, port) && fr == PlainFrame(v, s, d, p, port)
    requires s < Pow2(Width(v)) && d < Pow2(Width(v)) && Sendable(p) && port < 0x1_0000
    ensures FrameValid(fr) && RuleMatches(r, Decoded(Build(fr), wireLength, DLT_EN10MB, c))
  {
    PlainPacket(v, s, d, p, port);
    FrameIsDescribed(fr, wireLength, c);
    DescribedMatches(r, PacketOf(fr), Decoded(Build(fr), wireLength, DLT_EN10MB, c), p);
  }

  /** For rules as the schema admits them: two enabled rules can fire on one Ethernet frame exactly when
      the overlap check reports them and their blocks overlap within one family. */
  lemma OverlapOnTheWire(a: PolicyRule, b: PolicyRule, wireLength: nat, c: Context)
    requires OfSchema(a) && OfSchema(b) && a.enabled && b.enabled
    ensures FrameMatchesBoth(a, b, wireLength, c) <==> Reported(a, b) && OverlapInOneFamily(a, b)
  {
    if FrameMatchesBoth(a, b, wireLength, c) {
      var fr :| FrameValid(fr) && BothMatch(a, b, Decoded(Build(fr), wireLength, DLT_EN10MB, c));
      OverlapComplete(a, b, Decoded(Build(fr), wireLength, DLT_EN10MB, c));
    }
    if Reported(a, b) && OverlapInOneFamily(a, b) {
      var v, s, d, p, port := CommonPacket(a, b);
      var fr := PlainFrame(v, s, d, p, port);
      AdmittedMatches(a, v, s, d, p, port, fr, wireLength, c);
      AdmittedMatches(b, v, s, d, p, port, fr, wireLength, c);
    }
  }
}
