/** The bounded header decoder (decode.py) as a function of the captured bytes.  Next to its result
    every step carries `reach`, the longest prefix of the frame requested so far. */
module Decode {
  import opened Basics
  import opened Models
  import opened Bytes

  const DLT_EN10MB: nat := 1
  const DLT_RAW: nat := 101
  const DLT_LINUX_SLL: nat := 113
  const DLT_LINUX_SLL2: nat := 276
  const MAX_HEADER_BYTES: nat := 512
  const MAX_IPV6_EXTENSIONS: nat := 8
  const ETHERTYPE_IPV4: nat := 0x0800
  const ETHERTYPE_IPV6: nat := 0x86DD

  predicate IsVlan(ethertype: nat) {
    ethertype == 0x8100 || ethertype == 0x88A8 || ethertype == 0x9100
  }

  predicate IsOptionHeader(next: nat) {
    next == 0 || next == 43 || next == 60 || next == 135
  }

  const IPV6_FRAGMENT: nat := 44
  const IPV6_ESP: nat := 50
  const IPV6_AH: nat := 51
  const IPV6_NO_NEXT: nat := 59

  predicate IsExtension(next: nat) {
    IsOptionHeader(next) || next == IPV6_FRAGMENT || next == IPV6_AH || next == IPV6_ESP
  }

  datatype Context = Context(
    capturedAt: int,
    monotonicAt: Option<int>,
    sensorId: string,
    sourceGeneration: string,
    capturePoint: string,
    interface: Option<string>,
    direction: Direction
  )

  /** A result or the reason of a failure, with the longest prefix requested. */
  datatype Parse<+T> = Done(value: T, reach: nat) | Failed(reason: Reason, reach: nat) {
    predicate IsFailure() { Failed? }

    function PropagateFailure<U>(): Parse<U>
      requires Failed?
    {
      Failed(reason, reach)
    }

    function Extract(): (T, nat)
      requires Done?
    {
      (value, reach)
    }
  }

  function Need(f: seq<byte>, length: nat, hi: nat): (r: Parse<seq<byte>>)
    ensures r.reach == if length <= MAX_HEADER_BYTES then Max(hi, length) else hi
    ensures r.Done? ==> length <= |f| && r.value == f[..length]
  {
    if length > MAX_HEADER_BYTES then Failed(HeaderByteLimit, hi)
    else if |f| < length then Failed(TruncatedHeader, Max(hi, length))
    else Done(f[..length], Max(hi, length))
  }

  function NeedWithin(f: seq<byte>, length: nat, packetEnd: nat, hi: nat): (r: Parse<seq<byte>>)
    ensures r.Done? ==> length <= packetEnd && length <= |f| && r.value == f[..length]
  {
    if length > packetEnd then Failed(HeaderExceedsIpLength, hi) else Need(f, length, hi)
  }

  function Link(f: seq<byte>, datalink: nat, hi: nat): Parse<(nat, nat)> {
    if datalink == DLT_RAW then
      var (data, hi) :- Need(f, 1, hi);
      Done((0, if data[0] / 16 == 4 then ETHERTYPE_IPV4 else ETHERTYPE_IPV6), hi)
    else if datalink == DLT_LINUX_SLL then
      var (data, hi) :- Need(f, 16, hi);
      Done((16, Be16(data, 14)), hi)
    else if datalink == DLT_LINUX_SLL2 then
      var (data, hi) :- Need(f, 20, hi);
      Done((20, Be16(data, 0)), hi)
    else if datalink != DLT_EN10MB then
      Failed(UnsupportedDatalink, hi)
    else
      var (data, hi) :- Need(f, 14, hi);
      Vlans(f, 14, Be16(data, 12), 0, hi)
  }

  /** Step over VLAN tags, at most two of them. */
  function Vlans(f: seq<byte>, offset: nat, ethertype: nat, depth: nat, hi: nat): Parse<(nat, nat)>
    requires depth <= 2
    decreases 2 - depth, |f|
  {
    if !IsVlan(ethertype) then Done((offset, ethertype), hi)
    else if depth + 1 > 2 then Failed(VlanDepthLimit, hi)
    else
      var (data, hi) :- Need(f, offset + 4, hi);
      Vlans(f, offset + 4, Be16(data, offset + 2), depth + 1, hi)
  }

  function Transport(f: seq<byte>, offset: nat, packetEnd: nat, protocol: Proto, o: Observation,
      hi: nat): Parse<Observation> {
    match protocol
    case Tcp =>
      var (data, hi) :- NeedWithin(f, offset + 20, packetEnd, hi);
      var headerLength := data[offset + 12] / 16 * 4;
      if !(20 <= headerLength <= 60) then Failed(InvalidTcpDataOffset, hi) else
        var (data, hi) :- NeedWithin(f, offset + headerLength, packetEnd, hi);
        Done(o.(sourcePort := Some(Be16(data, offset)),
                destinationPort := Some(Be16(data, offset + 2)),
                tcpFlags := Some(data[offset + 13]),
                fields := o.fields + {SOURCE_PORT, DESTINATION_PORT, TCP_FLAGS}), hi)
    case Udp =>
      var (data, hi) :- NeedWithin(f, offset + 8, packetEnd, hi);
      Done(o.(sourcePort := Some(Be16(data, offset)),
              destinationPort := Some(Be16(data, offset + 2)),
              fields := o.fields + {SOURCE_PORT, DESTINATION_PORT}), hi)
    case Icmp =>
      var (data, hi) :- NeedWithin(f, offset + 2, packetEnd, hi);
      Done(o.(icmpType := Some(data[offset]),
              icmpCode := Some(data[offset + 1]),
              fields := o.fields + {ICMP}), hi)
    case Ip(_) => Done(o, hi)
  }

  function PartialFor(o: Observation, reason: Reason): Observation {
    o.(outcome := Outcome.Partial, decodeReason := Some(reason))
  }

  /** The decoded transport, or the IP layer alone with the reason it stops there. */
  function TransportOr(f: seq<byte>, offset: nat, packetEnd: nat, protocol: Proto, o: Observation,
      hi: nat): (r: Parse<Observation>)
    ensures r.Done?
  {
    match Transport(f, offset, packetEnd, protocol, o, hi)
    case Done(value, hi) => Done(value, hi)
    case Failed(reason, hi) => Done(PartialFor(o, reason), hi)
  }

  function Protocol4(number: nat): Proto {
    if number == 1 then Icmp else if number == 6 then Tcp else if number == 17 then Udp else Ip(number)
  }

  function Protocol6(number: nat): Proto {
    if number == 6 then Tcp else if number == 17 then Udp else if number == 58 then Icmp else Ip(number)
  }

  datatype Header4 = Header4(ihl: nat, totalLength: nat, fragment: nat, number: nat, source: nat, destination: nat)

  function Fields4(data: seq<byte>, offset: nat, ihl: nat): Header4
    requires offset + 20 <= |data|
  {
    Header4(ihl, Be16(data, offset + 2), Be16(data, offset + 6), data[offset + 9],
            BigEndian(Slice(data, offset + 12, 4)), BigEndian(Slice(data, offset + 16, 4)))
  }

  /** The IPv4 header at `offset`, options included. */
  function Ipv4Header(f: seq<byte>, offset: nat, hi: nat): Parse<Header4> {
    var (data, hi) :- Need(f, offset + 20, hi);
    var versionIhl := data[offset];
    if versionIhl / 16 != 4 then Failed(InvalidIpv4Version, hi) else
      var ihl := versionIhl % 16 * 4;
      if ihl < 20 then Failed(InvalidIpv4Ihl, hi) else
        var (data, hi) :- Need(f, offset + ihl, hi);
        var h := Fields4(data, offset, ihl);
        if h.totalLength < ihl then Failed(InvalidIpv4TotalLength, hi) else Done(h, hi)
  }

  function Ipv4Layer(base: Observation, h: Header4): Observation {
    base.(ipVersion := Some(V4),
          source := Some(Address(V4, h.source)),
          destination := Some(Address(V4, h.destination)),
          protocol := Some(Protocol4(h.number)),
          fields := {IP_VERSION, SOURCE, DESTINATION, PROTOCOL},
          outcome := Outcome.Complete)
  }

  function Ipv4(f: seq<byte>, offset: nat, base: Observation, hi: nat): Parse<Observation> {
    Ipv4Rest(f, offset, base, Ipv4Header(f, offset, hi))
  }

  function Ipv4Rest(f: seq<byte>, offset: nat, base: Observation, header: Parse<Header4>): Parse<Observation> {
    var (h, hi) :- header;
    if h.fragment % 0x2000 != 0 then Done(PartialFor(Ipv4Layer(base, h), NonInitialFragment), hi)
    else TransportOr(f, offset + h.ihl, offset + h.totalLength, Protocol4(h.number), Ipv4Layer(base, h), hi)
  }

  datatype Header6 = Header6(payloadLength: nat, next: nat, source: nat, destination: nat)

  function Ipv6Header(f: seq<byte>, offset: nat, hi: nat): Parse<Header6> {
    var (data, hi) :- Need(f, offset + 40, hi);
    if data[offset] / 16 != 6 then Failed(InvalidIpv6Version, hi)
    else Done(Header6(Be16(data, offset + 4), data[offset + 6],
                      BigEndian(Slice(data, offset + 8, 16)), BigEndian(Slice(data, offset + 24, 16))), hi)
  }

  function Ipv6Layer(base: Observation, h: Header6): Observation {
    base.(ipVersion := Some(V6),
          source := Some(Address(V6, h.source)),
          destination := Some(Address(V6, h.destination)),
          fields := {IP_VERSION, SOURCE, DESTINATION},
          outcome := Outcome.Partial)
  }

  function WithProtocol(o: Observation, p: Proto): Observation {
    o.(protocol := Some(p), fields := o.fields + {PROTOCOL})
  }

  function ExtensionLength(next: nat, unit: nat): (n: nat)
    ensures n >= 8
  {
    if next == IPV6_FRAGMENT then 8 else if next == IPV6_AH then (unit + 2) * 4 else (unit + 1) * 8
  }

  /** One extension header: skipped, or a fragment header of a later fragment. */
  datatype Extension = Skip(length: nat, following: nat) | LaterFragment(following: nat)

  function OneExtension(f: seq<byte>, cursor: nat, next: nat, packetEnd: nat, hi: nat): Parse<Extension> {
    var (data, hi) :- NeedWithin(f, cursor + 2, packetEnd, hi);
    var following, length := data[cursor], ExtensionLength(next, data[cursor + 1]);
    var (data, hi) :- NeedWithin(f, if next == IPV6_FRAGMENT then cursor + 8 else cursor + 2, packetEnd, hi);
    if next == IPV6_FRAGMENT && Be16(data, cursor + 2) / 8 != 0 then Done(LaterFragment(following), hi)
    else
      var (_, hi) :- NeedWithin(f, cursor + length, packetEnd, hi);
      Done(Skip(length, following), hi)
  }

  /** Where an extension chain ends: at an upper-layer header, or early with an observation. */
  datatype Chain = Upper(cursor: nat, next: nat) | Early(observation: Observation)

  function Extensions(f: seq<byte>, cursor: nat, next: nat, count: nat, packetEnd: nat, layer: Observation,
      hi: nat): Parse<Chain>
    requires count <= MAX_IPV6_EXTENSIONS
    decreases MAX_IPV6_EXTENSIONS - count, |f|, 1
  {
    if !IsExtension(next) then Done(Upper(cursor, next), hi)
    else if count + 1 > MAX_IPV6_EXTENSIONS then Done(Early(PartialFor(layer, Ipv6ExtensionCountLimit)), hi)
    else if next == IPV6_ESP then Done(Early(PartialFor(layer, EncryptedEsp)), hi)
    else ExtensionsRest(f, cursor, count, packetEnd, layer, OneExtension(f, cursor, next, packetEnd, hi))
  }

  function ExtensionsRest(f: seq<byte>, cursor: nat, count: nat, packetEnd: nat, layer: Observation,
      extension: Parse<Extension>): Parse<Chain>
    requires count < MAX_IPV6_EXTENSIONS
    decreases MAX_IPV6_EXTENSIONS - count, |f|, 0
  {
    var (e, hi) :- extension;
    match e
    case LaterFragment(following) =>
      Done(Early(PartialFor(WithProtocol(layer, Protocol6(following)), NonInitialFragment)), hi)
    case Skip(length, following) =>
      Extensions(f, cursor + length, following, count + 1, packetEnd, layer, hi)
  }

  /** The upper-layer header after the chain. */
  function Ipv6Upper(f: seq<byte>, cursor: nat, next: nat, packetEnd: nat, layer: Observation,
      hi: nat): (r: Parse<Observation>)
    ensures r.Done?
  {
    var complete := WithProtocol(layer, Protocol6(next)).(outcome := Outcome.Complete, decodeReason := None);
    if next == IPV6_NO_NEXT then Done(complete, hi)
    else TransportOr(f, cursor, packetEnd, Protocol6(next), complete, hi)
  }

  function Ipv6Payload(f: seq<byte>, offset: nat, h: Header6, layer: Observation, hi: nat): (r: Parse<Observation>)
    ensures r.Done?
  {
    var packetEnd := offset + 40 + h.payloadLength;
    AfterChain(f, packetEnd, layer, Extensions(f, offset + 40, h.next, 0, packetEnd, layer, hi))
  }

  function AfterChain(f: seq<byte>, packetEnd: nat, layer: Observation, chain: Parse<Chain>): (r: Parse<Observation>)
    ensures r.Done?
  {
    match chain
    case Failed(reason, hi) => Done(PartialFor(layer, reason), hi)
    case Done(Early(o), hi) => Done(o, hi)
    case Done(Upper(cursor, next), hi) => Ipv6Upper(f, cursor, next, packetEnd, layer, hi)
  }

  function Ipv6(f: seq<byte>, offset: nat, base: Observation, hi: nat): Parse<Observation> {
    var (h, hi) :- Ipv6Header(f, offset, hi);
    if h.payloadLength == 0 && h.next != IPV6_NO_NEXT then
      Done(PartialFor(Ipv6Layer(base, h), Ipv6JumbogramUnsupported), hi)
    else Ipv6Payload(f, offset, h, Ipv6Layer(base, h), hi)
  }

  function Base(wireLength: nat, c: Context): Observation {
    Observation(c.capturedAt, c.monotonicAt, c.sensorId, c.sourceGeneration, c.capturePoint, c.interface, c.direction,
                wireLength, None, None, None, None, None, None, None, None, None, {}, Undecodable, None, false)
  }

  function Network(f: seq<byte>, datalink: nat, base: Observation): Parse<Observation> {
    var (link, hi) :- Link(f, datalink, 0);
    if link.1 == ETHERTYPE_IPV4 then Ipv4(f, link.0, base, hi)
    else if link.1 == ETHERTYPE_IPV6 then Ipv6(f, link.0, base, hi)
    else Failed(UnsupportedEthertype(link.1), hi)
  }

  /** The observation of a frame. */
  function Decoded(f: seq<byte>, wireLength: nat, datalink: nat, c: Context): Observation {
    var base := Base(wireLength, c);
    match Network(f, datalink, base)
    case Done(o, _) => o
    case Failed(reason, _) => base.(decodeReason := Some(reason))
  }

  /** The longest prefix the decoder requests of a frame. */
  function Reach(f: seq<byte>, wireLength: nat, datalink: nat, c: Context): nat {
    Network(f, datalink, Base(wireLength, c)).reach
  }
}
