/** The decoder inverts the packet builders. */
module PacketInverse {
  import opened Basics
  import opened Models
  import opened Bytes
  import opened Decode
  import opened PacketBuilders

  /** Two bytes of a prefix. */
  lemma PrefixBe16(f: seq<byte>, at: nat, v: nat, length: nat)
    requires Be16At(f, at, v) && at + 2 <= length <= |f|
    ensures Be16(f[..length], at) == v
  {
  }

  lemma PrefixSlice(f: seq<byte>, at: nat, part: seq<byte>, length: nat)
    requires at + |part| <= length <= |f| && f[at..at + |part|] == part
    ensures Slice(f[..length], at, |part|) == part
  {
  }

  // ---------------------------------------------------------------- transport

  /** The transport's share of the observation. */
  function WithTransport(o: Observation, t: TransportHeader): Observation {
    match t
    case TcpHeader(s, d, _, _, _, flags, _) =>
      o.(sourcePort := Some(s), destinationPort := Some(d), tcpFlags := Some(flags),
         fields := o.fields + {SOURCE_PORT, DESTINATION_PORT, TCP_FLAGS})
    case UdpHeader(s, d, _) =>
      o.(sourcePort := Some(s), destinationPort := Some(d), fields := o.fields + {SOURCE_PORT, DESTINATION_PORT})
    case IcmpHeader(t, c) => o.(icmpType := Some(t), icmpCode := Some(c), fields := o.fields + {ICMP})
    case OtherHeader(_) => o
  }

  lemma TcpInverse(f: seq<byte>, at: nat, packetEnd: nat, t: TransportHeader, o: Observation, hi: nat)
    requires t.TcpHeader? && TransportValid(t) && TransportAt(f, at, t)
    requires at + TransportSize(t) <= Min(packetEnd, MAX_HEADER_BYTES)
    ensures TransportOr(f, at, packetEnd, Tcp, o, hi).value == WithTransport(o, t)
  {
    var n := at + t.words * 4;
    assert f[..at + 20][at + 12] / 16 == t.words;
    PrefixBe16(f, at, t.sourcePort, n);
    PrefixBe16(f, at + 2, t.destinationPort, n);
    assert f[..n][at + 13] == t.flags;
  }

  lemma TransportInverse(f: seq<byte>, at: nat, packetEnd: nat, p: Proto, t: TransportHeader, o: Observation, hi: nat)
    requires TransportValid(t) && Carries(p, t) && TransportAt(f, at, t)
    requires at + TransportSize(t) <= Min(packetEnd, MAX_HEADER_BYTES)
    ensures TransportOr(f, at, packetEnd, p, o, hi).value == WithTransport(o, t)
  {
    match t
    case TcpHeader(_, _, _, _, _, _, _) => TcpInverse(f, at, packetEnd, t, o, hi);
    case UdpHeader(s, d, _) =>
      PrefixBe16(f, at, s, at + 8);
      PrefixBe16(f, at + 2, d, at + 8);
    case IcmpHeader(_, _) =>
    case OtherHeader(_) =>
  }

  // ---------------------------------------------------------------- IPv4

  function V4Decoded(h: V4Header): Header4
    requires V4Valid(h)
  {
    Header4(h.ihl * 4, h.totalLength, h.flags * 0x2000, h.number, BigEndian(h.source), BigEndian(h.destination))
  }

  lemma V4FieldsRead(f: seq<byte>, at: nat, h: V4Header, n: nat)
    requires V4Valid(h) && V4At(f, at, h) && n == at + h.ihl * 4
    ensures Fields4(f[..n], at, h.ihl * 4) == V4Decoded(h)
  {
    PrefixBe16(f, at + 2, h.totalLength, n);
    PrefixBe16(f, at + 6, h.flags * 0x2000, n);
    PrefixSlice(f, at + 12, h.source, n);
    PrefixSlice(f, at + 16, h.destination, n);
  }

  lemma V4Inverse(f: seq<byte>, at: nat, h: V4Header, hi: nat)
    requires V4Valid(h) && V4At(f, at, h) && at + h.ihl * 4 <= MAX_HEADER_BYTES
    ensures var r := Ipv4Header(f, at, hi); r.Done? && r.value == V4Decoded(h)
  {
    assert f[..at + 20][at] == 64 + h.ihl;
    assert (64 + h.ihl) / 16 == 4 && (64 + h.ihl) % 16 == h.ihl;
    V4FieldsRead(f, at, h, at + h.ihl * 4);
  }

  lemma V4RestInverse(f: seq<byte>, at: nat, h: Header4, header: Parse<Header4>, t: TransportHeader, base: Observation)
    requires header.Done? && header.value == h && h.fragment % 0x2000 == 0
    requires TransportValid(t) && Carries(Protocol4(h.number), t) && TransportAt(f, at + h.ihl, t)
    requires at + h.ihl + TransportSize(t) <= Min(at + h.totalLength, MAX_HEADER_BYTES)
    ensures Ipv4Rest(f, at, base, header).Done?
    ensures Ipv4Rest(f, at, base, header).value == WithTransport(Ipv4Layer(base, h), t)
  {
    TransportInverse(f, at + h.ihl, at + h.totalLength, Protocol4(h.number), t, Ipv4Layer(base, h), header.reach);
  }

  // ---------------------------------------------------------------- IPv6

  function V6Decoded(h: V6Header, next: byte): Header6 {
    Header6(h.payloadLength, next, BigEndian(h.source), BigEndian(h.destination))
  }

  lemma V6Inverse(f: seq<byte>, at: nat, h: V6Header, next: byte, hi: nat)
    requires V6Valid(h) && V6At(f, at, h, next) && at + 40 <= MAX_HEADER_BYTES
    ensures var r := Ipv6Header(f, at, hi); r.Done? && r.value == V6Decoded(h, next)
  {
    PrefixBe16(f, at + 4, h.payloadLength, at + 40);
    PrefixSlice(f, at + 8, h.source, at + 40);
    PrefixSlice(f, at + 24, h.destination, at + 40);
    assert f[..at + 40][at] == 96 + h.trafficClass && (96 + h.trafficClass) / 16 == 6;
  }

  lemma ExtInverse(f: seq<byte>, at: nat, e: ExtensionHeader, next: byte, packetEnd: nat, hi: nat)
    requires ExtValid(e) && ExtAt(f, at, e, next) && at + ExtSize(e) <= Min(packetEnd, MAX_HEADER_BYTES)
    ensures var r := OneExtension(f, at, ExtKind(e), packetEnd, hi);
      r.Done? && r.value == Skip(ExtSize(e), next)
  {
    if e.FragmentExt? {
      PrefixBe16(f, at + 2, e.flags, at + 8);
    }
  }

  /** One header of a chain is stepped over and counted. */
  lemma FirstExt(f: seq<byte>, at: nat, e: ExtensionHeader, next: byte, count: nat, packetEnd: nat, layer: Observation,
      hi: nat)
      returns (reach: nat)
    requires ExtValid(e) && ExtAt(f, at, e, next) && count < MAX_IPV6_EXTENSIONS
    requires at + ExtSize(e) <= Min(packetEnd, MAX_HEADER_BYTES)
    ensures Extensions(f, at, ExtKind(e), count, packetEnd, layer, hi)
         == Extensions(f, at + ExtSize(e), next, count + 1, packetEnd, layer, reach)
  {
    ExtInverse(f, at, e, next, packetEnd, hi);
    var r := OneExtension(f, at, ExtKind(e), packetEnd, hi);
    reach := r.reach;
    assert Extensions(f, at, ExtKind(e), count, packetEnd, layer, hi)
      == ExtensionsRest(f, at, count, packetEnd, layer, r);
  }

  predicate Ends(r: Parse<Chain>, cursor: nat, next: nat) {
    r == Done(Upper(cursor, next), r.reach)
  }

  /** A chain of valid extension headers is stepped over, one count each. */
  lemma {:induction false} ExtsInverse(f: seq<byte>, at: nat, exts: seq<ExtensionHeader>, final: byte, end: nat,
                                       count: nat, packetEnd: nat, layer: Observation, hi: nat)
    requires ExtsValid(exts) && ExtsAt(f, at, exts, final) && !IsExtension(final)
    requires count + |exts| <= MAX_IPV6_EXTENSIONS && end == at + ExtsSize(exts)
      && end <= Min(packetEnd, MAX_HEADER_BYTES)
    ensures Ends(Extensions(f, at, FirstKind(exts, final), count, packetEnd, layer, hi), end, final) == true
    decreases |exts|
  {
    if exts != [] {
      var e, rest := exts[0], exts[1..];
      var next := FirstKind(rest, final);
      var reach := FirstExt(f, at, e, next, count, packetEnd, layer, hi);
      ExtsInverse(f, at + ExtSize(e), rest, final, end, count + 1, packetEnd, layer, reach);
    }
  }

  function UpperLayer(layer: Observation, upper: nat): Observation {
    WithProtocol(layer, Protocol6(upper)).(outcome := Outcome.Complete, decodeReason := None)
  }

  lemma ChainInverse(f: seq<byte>, at: nat, upper: byte, packetEnd: nat, t: TransportHeader, layer: Observation,
      chain: Parse<Chain>)
    requires TransportValid(t) && Carries(Protocol6(upper), t) && Ends(chain, at, upper)
    requires TransportAt(f, at, t) && at + TransportSize(t) <= Min(packetEnd, MAX_HEADER_BYTES)
    ensures AfterChain(f, packetEnd, layer, chain).value == WithTransport(UpperLayer(layer, upper), t)
  {
    if upper != IPV6_NO_NEXT {
      TransportInverse(f, at, packetEnd, Protocol6(upper), t, UpperLayer(layer, upper), chain.reach);
    }
  }

  /** The payload of an IPv6 packet, given where its chain ends. */
  lemma PayloadInverse(f: seq<byte>, at: nat, h: Header6, end: nat, upper: byte, t: TransportHeader,
      layer: Observation, hi: nat)
    requires Ends(Extensions(f, at + 40, h.next, 0, at + 40 + h.payloadLength, layer, hi), end, upper)
    requires TransportValid(t) && Carries(Protocol6(upper), t) && TransportAt(f, end, t)
    requires end + TransportSize(t) <= Min(at + 40 + h.payloadLength, MAX_HEADER_BYTES)
    ensures Ipv6Payload(f, at, h, layer, hi).value == WithTransport(UpperLayer(layer, upper), t)
  {
    ChainInverse(f, end, upper, at + 40 + h.payloadLength, t, layer,
      Extensions(f, at + 40, h.next, 0, at + 40 + h.payloadLength, layer, hi));
  }

  // ---------------------------------------------------------------- frames

  /** VLAN tags are stepped over. */
  lemma {:induction false} VlansInverse(f: seq<byte>, at: nat, tags: seq<Tag>, ethertype: nat, depth: nat, hi: nat)
    requires TagsValid(tags) && !IsVlan(ethertype) && depth + |tags| <= 2
    requires TagsAt(f, at, tags, ethertype) && at + 2 + 4 * |tags| <= MAX_HEADER_BYTES
    ensures var r := Vlans(f, at + 2, TypeOf(tags, ethertype), depth, hi);
      r.Done? && r.value == (at + 2 + 4 * |tags|, ethertype)
    decreases |tags|
  {
    if tags != [] {
      var rest := tags[1..];
      assert TagsAt(f, at + 4, rest, ethertype);
      PrefixBe16(f, at + 4, TypeOf(rest, ethertype), at + 6);
      VlansInverse(f, at + 4, rest, ethertype, depth + 1, Need(f, at + 6, hi).reach);
    }
  }

  lemma LinkIsVlans(f: seq<byte>, ethertype: nat)
    requires |f| >= 14 && Be16(f[..14], 12) == ethertype
    ensures Link(f, DLT_EN10MB, 0) == Vlans(f, 14, ethertype, 0, 14)
  {
  }

  lemma LinkInverse(f: seq<byte>, tags: seq<Tag>, ethertype: nat)
    requires |tags| <= 2 && TagsValid(tags) && !IsVlan(ethertype) && TagsAt(f, 12, tags, ethertype)
    ensures var r := Link(f, DLT_EN10MB, 0); r.Done? && r.value == (14 + 4 * |tags|, ethertype)
  {
    PrefixBe16(f, 12, TypeOf(tags, ethertype), 14);
    LinkIsVlans(f, TypeOf(tags, ethertype));
    VlansInverse(f, 12, tags, ethertype, 0, 14);
  }

  /** What was built into the frame, as an observation. */
  function Expected(fr: Frame, wireLength: nat, c: Context): Observation
    requires FrameValid(fr)
  {
    WithTransport(ExpectedIp(fr.ip, Base(wireLength, c)), fr.transport)
  }

  function ExpectedIp(p: IpPacket, base: Observation): Observation
    requires IpValid(p)
  {
    match p
    case V4Packet(h) =>
      base.(ipVersion := Some(V4),
            source := Some(Address(V4, BigEndian(h.source))),
            destination := Some(Address(V4, BigEndian(h.destination))),
            protocol := Some(Protocol4(h.number)),
            fields := {IP_VERSION, SOURCE, DESTINATION, PROTOCOL},
            outcome := Outcome.Complete)
    case V6Packet(h, _, upper) =>
      base.(ipVersion := Some(V6),
            source := Some(Address(V6, BigEndian(h.source))),
            destination := Some(Address(V6, BigEndian(h.destination))),
            protocol := Some(Protocol6(upper)),
            fields := {IP_VERSION, SOURCE, DESTINATION, PROTOCOL},
            outcome := Outcome.Complete, decodeReason := None)
  }

  lemma V4FrameInverse(f: seq<byte>, at: nat, h: V4Header, t: TransportHeader, base: Observation, hi: nat)
    requires V4Valid(h) && V4At(f, at, h)
    requires TransportValid(t) && Carries(Protocol4(h.number), t) && TransportAt(f, at + h.ihl * 4, t)
    requires h.ihl * 4 + TransportSize(t) <= h.totalLength && at + h.ihl * 4 + TransportSize(t) <= MAX_HEADER_BYTES
    ensures var r := Ipv4(f, at, base, hi); r.Done? && r.value == WithTransport(ExpectedIp(V4Packet(h), base), t)
  {
    V4Inverse(f, at, h, hi);
    V4RestInverse(f, at, V4Decoded(h), Ipv4Header(f, at, hi), t, base);
  }

  lemma V6IsPayload(f: seq<byte>, at: nat, h: Header6, base: Observation, hi: nat)
    requires Ipv6Header(f, at, hi).Done? && Ipv6Header(f, at, hi).value == h && h.payloadLength != 0
    ensures Ipv6(f, at, base, hi) == Ipv6Payload(f, at, h, Ipv6Layer(base, h), Ipv6Header(f, at, hi).reach)
  {
  }

  lemma V6FrameInverse(f: seq<byte>, at: nat, h: V6Header, exts: seq<ExtensionHeader>, upper: byte, end: nat,
      t: TransportHeader, base: Observation, hi: nat)
    requires IpValid(V6Packet(h, exts, upper)) && IpAt(f, at, V6Packet(h, exts, upper))
      && end == at + 40 + ExtsSize(exts)
    requires TransportValid(t) && Carries(Protocol6(upper), t) && TransportAt(f, end, t)
    requires end + TransportSize(t) <= Min(at + 40 + h.payloadLength, MAX_HEADER_BYTES)
    ensures var r := Ipv6(f, at, base, hi);
      r.Done? && r.value == WithTransport(ExpectedIp(V6Packet(h, exts, upper), base), t)
  {
    var next := FirstKind(exts, upper);
    var decoded := V6Decoded(h, next);
    V6Inverse(f, at, h, next, hi);
    var reach := Ipv6Header(f, at, hi).reach;
    V6IsPayload(f, at, decoded, base, hi);
    ExtsInverse(f, at + 40, exts, upper, end, 0, at + 40 + h.payloadLength, Ipv6Layer(base, decoded), reach);
    PayloadInverse(f, at, decoded, end, upper, t, Ipv6Layer(base, decoded), reach);
  }

  lemma NetworkIs(f: seq<byte>, base: Observation, at: nat, ethertype: nat)
    requires Link(f, DLT_EN10MB, 0).Done? && Link(f, DLT_EN10MB, 0).value == (at, ethertype)
    ensures ethertype == ETHERTYPE_IPV4
      ==> Decode.Network(f, DLT_EN10MB, base) == Ipv4(f, at, base, Link(f, DLT_EN10MB, 0).reach)
    ensures ethertype == ETHERTYPE_IPV6
      ==> Decode.Network(f, DLT_EN10MB, base) == Ipv6(f, at, base, Link(f, DLT_EN10MB, 0).reach)
  {
  }

  /** Bytes in which the frame's fields stand where they belong decode to what they say. */
  lemma FrameInverse(f: seq<byte>, fr: Frame, at: nat, end: nat, wireLength: nat, c: Context)
    requires FrameValid(fr) && at == IpOffset(fr) && end == at + IpSize(fr.ip)
    requires TagsAt(f, 12, fr.tags, Ethertype(fr.ip)) && IpAt(f, at, fr.ip) && TransportAt(f, end, fr.transport)
    ensures Decoded(f, wireLength, DLT_EN10MB, c) == Expected(fr, wireLength, c)
  {
    var base := Base(wireLength, c);
    LinkInverse(f, fr.tags, Ethertype(fr.ip));
    var hi := Link(f, DLT_EN10MB, 0).reach;
    NetworkIs(f, base, at, Ethertype(fr.ip));
    match fr.ip
    case V4Packet(h) => V4FrameInverse(f, at, h, fr.transport, base, hi);
    case V6Packet(h, exts, upper) => V6FrameInverse(f, at, h, exts, upper, end, fr.transport, base, hi);
  }

  /** Building a frame and decoding it gives back what it was built from: outcome complete, the
      addresses, protocol, ports, flags, ICMP type and code. */
  lemma DecoderInvertsBuilder(fr: Frame, wireLength: nat, c: Context)
    requires FrameValid(fr)
    ensures Decoded(Build(fr), wireLength, DLT_EN10MB, c) == Expected(fr, wireLength, c)
  {
    FramePlaced(fr, Build(fr));
    FrameInverse(Build(fr), fr, IpOffset(fr), IpOffset(fr) + IpSize(fr.ip), wireLength, c);
  }
}
