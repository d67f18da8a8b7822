/** Packet builders in the manner of the test suite's, generalised to every header the decoder
    supports, and where the built fields stand in the frame. */
module PacketBuilders {
  import opened Models
  import opened Bytes
  import opened Decode

  // ---------------------------------------------------------------- placement

  predicate Be16At(f: seq<byte>, at: nat, v: nat) {
    at + 2 <= |f| && f[at] as int * 256 + f[at + 1] == v
  }

  lemma HoldsSplit(s: seq<byte>, at: nat, a: seq<byte>, b: seq<byte>)
    requires Holds(s, at, a + b)
    ensures Holds(s, at, a) && Holds(s, at + |a|, b)
  {
    HoldsParts(s, at, a, b);
  }

  lemma PlacedBe16(f: seq<byte>, at: nat, v: nat)
    requires v < 0x1_0000 && Holds(f, at, PutBe16(v))
    ensures Be16At(f, at, v)
  {
    HoldsAt(f, at, PutBe16(v), 0);
    HoldsAt(f, at, PutBe16(v), 1);
  }

  lemma PlacedPair(f: seq<byte>, at: nat, a: byte, b: byte)
    requires Holds(f, at, [a, b])
    ensures at + 2 <= |f| && f[at] == a && f[at + 1] == b
  {
    HoldsAt(f, at, [a, b], 0);
    HoldsAt(f, at, [a, b], 1);
  }

  // ---------------------------------------------------------------- transport headers

  datatype TransportHeader =
    | TcpHeader(sourcePort: nat, destinationPort: nat, seqAck: seq<byte>, words: nat, reserved: nat, flags: byte,
      rest: seq<byte>)
    | UdpHeader(sourcePort: nat, destinationPort: nat, rest: seq<byte>)
    | IcmpHeader(icmpType: byte, icmpCode: byte)
    | OtherHeader(number: nat)

  predicate TransportValid(t: TransportHeader) {
    match t
    case TcpHeader(s, d, seqAck, words, reserved, _, rest) =>
      s < 0x1_0000 && d < 0x1_0000 && |seqAck| == 8 && 5 <= words <= 15 && reserved < 16 && |rest| == words * 4 - 14
    case UdpHeader(s, d, rest) => s < 0x1_0000 && d < 0x1_0000 && |rest| == 4
    case IcmpHeader(_, _) => true
    case OtherHeader(n) => n < 256
  }

  function TransportSize(t: TransportHeader): nat {
    match t
    case TcpHeader(_, _, _, words, _, _, _) => words * 4
    case UdpHeader(_, _, _) => 8
    case IcmpHeader(_, _) => 2
    case OtherHeader(_) => 0
  }

  function EncodeTransport(t: TransportHeader): (s: seq<byte>)
    requires TransportValid(t)
    ensures |s| == TransportSize(t)
  {
    match t
    case TcpHeader(s, d, seqAck, words, reserved, flags, rest) =>
      PutBe16(s) + (PutBe16(d) + (seqAck + ([words * 16 + reserved, flags] + rest)))
    case UdpHeader(s, d, rest) => PutBe16(s) + (PutBe16(d) + rest)
    case IcmpHeader(t, c) => [t, c]
    case OtherHeader(_) => []
  }

  predicate Carries(p: Proto, t: TransportHeader) {
    match t
    case TcpHeader(_, _, _, _, _, _, _) => p == Tcp
    case UdpHeader(_, _, _) => p == Udp
    case IcmpHeader(_, _) => p == Icmp
    case OtherHeader(_) => p.Ip?
  }

  /** The fields of the header stand at `at`. */
  predicate TransportAt(f: seq<byte>, at: nat, t: TransportHeader)
    requires TransportValid(t)
  {
    at + TransportSize(t) <= |f| &&
    match t
    case TcpHeader(s, d, _, words, reserved, flags, _) =>
      Be16At(f, at, s) && Be16At(f, at + 2, d) && f[at + 12] == words * 16 + reserved && f[at + 13] == flags
    case UdpHeader(s, d, _) => Be16At(f, at, s) && Be16At(f, at + 2, d)
    case IcmpHeader(t, c) => f[at] == t && f[at + 1] == c
    case OtherHeader(_) => true
  }

  /** Two ports in front of something. */
  lemma PortsPlaced(f: seq<byte>, at: nat, s: nat, d: nat, rest: seq<byte>)
    requires s < 0x1_0000 && d < 0x1_0000 && Holds(f, at, PutBe16(s) + (PutBe16(d) + rest))
    ensures Be16At(f, at, s) && Be16At(f, at + 2, d) && Holds(f, at + 4, rest)
  {
    HoldsSplit(f, at, PutBe16(s), PutBe16(d) + rest);
    HoldsSplit(f, at + 2, PutBe16(d), rest);
    PlacedBe16(f, at, s);
    PlacedBe16(f, at + 2, d);
  }

  /** Two bytes behind something and in front of something. */
  lemma InnerPair(f: seq<byte>, at: nat, before: seq<byte>, a: byte, b: byte, rest: seq<byte>)
    requires Holds(f, at, before + ([a, b] + rest))
    ensures at + |before| + 2 + |rest| <= |f| && f[at + |before|] == a && f[at + |before| + 1] == b
  {
    HoldsSplit(f, at, before, [a, b] + rest);
    HoldsSplit(f, at + |before|, [a, b], rest);
    PlacedPair(f, at + |before|, a, b);
  }

  lemma TcpPlaced(f: seq<byte>, at: nat, s: nat, d: nat, seqAck: seq<byte>, info: byte, flags: byte, rest: seq<byte>)
    requires s < 0x1_0000 && d < 0x1_0000 && |seqAck| == 8
    requires Holds(f, at, PutBe16(s) + (PutBe16(d) + (seqAck + ([info, flags] + rest))))
    ensures at + 14 + |rest| <= |f| && Be16At(f, at, s) && Be16At(f, at + 2, d)
    ensures f[at + 12] == info && f[at + 13] == flags
  {
    PortsPlaced(f, at, s, d, seqAck + ([info, flags] + rest));
    InnerPair(f, at + 4, seqAck, info, flags, rest);
  }

  /** The header is the concatenation of its fields. */
  lemma TcpFields(t: TransportHeader) returns (info: byte)
    requires t.TcpHeader? && TransportValid(t)
    ensures info == t.words * 16 + t.reserved
    ensures EncodeTransport(t)
      == PutBe16(t.sourcePort) + (PutBe16(t.destinationPort) + (t.seqAck + ([info, t.flags] + t.rest)))
  {
    info := t.words * 16 + t.reserved;
  }

  /** The fields of the header stand where `TransportAt` looks for them. */
  lemma TcpStands(f: seq<byte>, at: nat, t: TransportHeader, info: byte)
    requires t.TcpHeader? && TransportValid(t) && info == t.words * 16 + t.reserved
    requires at + 14 + |t.rest| <= |f| && Be16At(f, at, t.sourcePort) && Be16At(f, at + 2, t.destinationPort)
    requires f[at + 12] == info && f[at + 13] == t.flags
    ensures TransportAt(f, at, t) == true
  {
  }

  lemma TransportPlaced(f: seq<byte>, at: nat, t: TransportHeader, encoded: seq<byte>)
    requires TransportValid(t) && encoded == EncodeTransport(t) && Holds(f, at, encoded)
    ensures TransportAt(f, at, t) == true
  {
    if t.TcpHeader? {
      var info := TcpFields(t);
      TcpPlaced(f, at, t.sourcePort, t.destinationPort, t.seqAck, info, t.flags, t.rest);
      TcpStands(f, at, t, info);
    } else if t.UdpHeader? {
      PortsPlaced(f, at, t.sourcePort, t.destinationPort, t.rest);
    } else if t.IcmpHeader? {
      PlacedPair(f, at, t.icmpType, t.icmpCode);
    }
  }

  // ---------------------------------------------------------------- IPv4 (section 3.1 of RFC 791)

  datatype V4Header = V4Header(
    ihl: nat, tos: byte, totalLength: nat, id: seq<byte>, flags: nat, ttl: byte, number: byte,
    checksum: seq<byte>, source: seq<byte>, destination: seq<byte>, options: seq<byte>)

  /** Any valid header length, first fragment, declared length covering the header. */
  predicate V4Valid(h: V4Header) {
    && 5 <= h.ihl <= 15 && |h.options| == h.ihl * 4 - 20
    && h.ihl * 4 <= h.totalLength < 0x1_0000
    && |h.id| == 2 && h.flags < 8 && |h.checksum| == 2 && |h.source| == 4 && |h.destination| == 4
  }

  /** Time to live, protocol, checksum, addresses and options. */
  function EncodeV4Tail(h: V4Header): seq<byte> {
    [h.ttl, h.number] + (h.checksum + (h.source + (h.destination + h.options)))
  }

  function EncodeV4(h: V4Header): (s: seq<byte>)
    requires V4Valid(h)
    ensures |s| == h.ihl * 4
  {
    [64 + h.ihl, h.tos] + (PutBe16(h.totalLength) + (h.id + (PutBe16(h.flags * 0x2000) + EncodeV4Tail(h))))
  }

  predicate V4At(f: seq<byte>, at: nat, h: V4Header)
    requires V4Valid(h)
  {
    && at + h.ihl * 4 <= |f| && f[at] == 64 + h.ihl && f[at + 9] == h.number
    && Be16At(f, at + 2, h.totalLength) && Be16At(f, at + 6, h.flags * 0x2000)
    && f[at + 12..at + 16] == h.source && f[at + 16..at + 20] == h.destination
  }

  lemma V4TailPlaced(f: seq<byte>, at: nat, h: V4Header)
    requires V4Valid(h) && Holds(f, at, EncodeV4Tail(h))
    ensures at + h.ihl * 4 - 8 <= |f| && f[at + 1] == h.number
    ensures f[at + 4..at + 8] == h.source && f[at + 8..at + 12] == h.destination
  {
    HoldsSplit(f, at, [h.ttl, h.number], h.checksum + (h.source + (h.destination + h.options)));
    HoldsSplit(f, at + 2, h.checksum, h.source + (h.destination + h.options));
    HoldsSplit(f, at + 4, h.source, h.destination + h.options);
    HoldsSplit(f, at + 8, h.destination, h.options);
    PlacedPair(f, at, h.ttl, h.number);
  }

  lemma V4Placed(f: seq<byte>, at: nat, h: V4Header)
    requires V4Valid(h) && Holds(f, at, EncodeV4(h))
    ensures V4At(f, at, h) == true
  {
    var t6 := PutBe16(h.flags * 0x2000) + EncodeV4Tail(h);
    HoldsSplit(f, at, [64 + h.ihl, h.tos], PutBe16(h.totalLength) + (h.id + t6));
    HoldsSplit(f, at + 2, PutBe16(h.totalLength), h.id + t6);
    HoldsSplit(f, at + 4, h.id, t6);
    HoldsSplit(f, at + 6, PutBe16(h.flags * 0x2000), EncodeV4Tail(h));
    PlacedPair(f, at, 64 + h.ihl, h.tos);
    PlacedBe16(f, at + 2, h.totalLength);
    PlacedBe16(f, at + 6, h.flags * 0x2000);
    V4TailPlaced(f, at + 8, h);
  }

  // ---------------------------------------------------------------- IPv6 (sections 3 and 4 of RFC 8200)

  datatype V6Header = V6Header(
    trafficClass: nat, flow: seq<byte>, payloadLength: nat, hopLimit: byte, source: seq<byte>, destination: seq<byte>)

  predicate V6Valid(h: V6Header) {
    h.trafficClass < 16 && |h.flow| == 3 && 0 < h.payloadLength < 0x1_0000 && |h.source| == 16 && |h.destination| == 16
  }

  function EncodeV6(h: V6Header, next: byte): (s: seq<byte>)
    requires V6Valid(h)
    ensures |s| == 40
  {
    [96 + h.trafficClass] + (h.flow + (PutBe16(h.payloadLength) + ([next, h.hopLimit] + (h.source + h.destination))))
  }

  predicate V6At(f: seq<byte>, at: nat, h: V6Header, next: byte)
    requires V6Valid(h)
  {
    && at + 40 <= |f| && f[at] == 96 + h.trafficClass && f[at + 6] == next
    && Be16At(f, at + 4, h.payloadLength)
    && f[at + 8..at + 24] == h.source && f[at + 24..at + 40] == h.destination
  }

  lemma V6Placed(f: seq<byte>, at: nat, h: V6Header, next: byte)
    requires V6Valid(h) && Holds(f, at, EncodeV6(h, next))
    ensures V6At(f, at, h, next) == true
  {
    var t6 := [next, h.hopLimit] + (h.source + h.destination);
    HoldsSplit(f, at, [96 + h.trafficClass], h.flow + (PutBe16(h.payloadLength) + t6));
    HoldsSplit(f, at + 1, h.flow, PutBe16(h.payloadLength) + t6);
    HoldsSplit(f, at + 4, PutBe16(h.payloadLength), t6);
    HoldsSplit(f, at + 6, [next, h.hopLimit], h.source + h.destination);
    HoldsSplit(f, at + 8, h.source, h.destination);
    HoldsAt(f, at, [96 + h.trafficClass], 0);
    PlacedBe16(f, at + 4, h.payloadLength);
    PlacedPair(f, at + 6, next, h.hopLimit);
  }

  /** Option headers (hop-by-hop, routing, destination, mobility), AH (section 2.2 of RFC 4302), and
      a fragment header of a first fragment. */
  datatype ExtensionHeader =
    | OptionExt(kind: byte, content: seq<byte>)
    | AuthExt(content: seq<byte>)
    | FragmentExt(reserved: byte, flags: nat, id: seq<byte>)

  predicate ExtValid(e: ExtensionHeader) {
    match e
    case OptionExt(kind, content) => IsOptionHeader(kind) && (|content| + 2) % 8 == 0 && |content| + 2 <= 2048
    case AuthExt(content) => (|content| + 2) % 4 == 0 && 8 <= |content| + 2 <= 1028
    case FragmentExt(_, flags, id) => flags < 8 && |id| == 4
  }

  function ExtKind(e: ExtensionHeader): byte {
    match e case OptionExt(kind, _) => kind case AuthExt(_) => IPV6_AH case FragmentExt(_, _, _) => IPV6_FRAGMENT
  }

  function ExtSize(e: ExtensionHeader): nat {
    match e
    case OptionExt(_, content) => |content| + 2
    case AuthExt(content) => |content| + 2
    case FragmentExt(_, _, _) => 8
  }

  function EncodeExt(e: ExtensionHeader, next: byte): (s: seq<byte>)
    requires ExtValid(e)
    ensures |s| == ExtSize(e)
  {
    match e
    case OptionExt(_, content) => [next, (|content| + 2) / 8 - 1] + content
    case AuthExt(content) => [next, (|content| + 2) / 4 - 2] + content
    case FragmentExt(reserved, flags, id) => [next, reserved] + (PutBe16(flags) + id)
  }

  predicate ExtAt(f: seq<byte>, at: nat, e: ExtensionHeader, next: byte) {
    && at + ExtSize(e) <= |f| && ExtSize(e) >= 2 && f[at] == next
    && ExtensionLength(ExtKind(e), f[at + 1]) == ExtSize(e)
    && (e.FragmentExt? ==> Be16At(f, at + 2, e.flags))
  }

  /** The first two bytes of an extension header, and what follows. */
  lemma ExtStart(f: seq<byte>, at: nat, a: byte, b: byte, rest: seq<byte>)
    requires Holds(f, at, [a, b] + rest)
    ensures at + 2 + |rest| <= |f| && f[at] == a && f[at + 1] == b && Holds(f, at + 2, rest)
  {
    HoldsSplit(f, at, [a, b], rest);
    PlacedPair(f, at, a, b);
  }

  /** The length byte of an option header counts eight-byte units after the first, that of AH
      four-byte units after the second. */
  lemma LengthByte(size: nat, kind: byte)
    ensures IsOptionHeader(kind) && size % 8 == 0 && size >= 8 ==> ExtensionLength(kind, size / 8 - 1) == size
    ensures size % 4 == 0 && size >= 8 ==> ExtensionLength(IPV6_AH, size / 4 - 2) == size
  {
  }

  lemma OptionPlaced(f: seq<byte>, at: nat, e: ExtensionHeader, next: byte)
    requires e.OptionExt? && ExtValid(e) && Holds(f, at, EncodeExt(e, next))
    ensures ExtAt(f, at, e, next) == true
  {
    ExtStart(f, at, next, (|e.content| + 2) / 8 - 1, e.content);
    LengthByte(|e.content| + 2, e.kind);
  }

  lemma AuthPlaced(f: seq<byte>, at: nat, e: ExtensionHeader, next: byte)
    requires e.AuthExt? && ExtValid(e) && Holds(f, at, EncodeExt(e, next))
    ensures ExtAt(f, at, e, next) == true
  {
    ExtStart(f, at, next, (|e.content| + 2) / 4 - 2, e.content);
    LengthByte(|e.content| + 2, IPV6_AH);
  }

  lemma FragmentPlaced(f: seq<byte>, at: nat, e: ExtensionHeader, next: byte)
    requires e.FragmentExt? && ExtValid(e) && Holds(f, at, EncodeExt(e, next))
    ensures ExtAt(f, at, e, next) == true
  {
    ExtStart(f, at, next, e.reserved, PutBe16(e.flags) + e.id);
    HoldsSplit(f, at + 2, PutBe16(e.flags), e.id);
    PlacedBe16(f, at + 2, e.flags);
  }

  lemma ExtPlaced(f: seq<byte>, at: nat, e: ExtensionHeader, next: byte)
    requires ExtValid(e) && Holds(f, at, EncodeExt(e, next))
    ensures ExtAt(f, at, e, next) == true
  {
    match e
    case OptionExt(_, _) => OptionPlaced(f, at, e, next);
    case AuthExt(_) => AuthPlaced(f, at, e, next);
    case FragmentExt(_, _, _) => FragmentPlaced(f, at, e, next);
  }

  predicate ExtsValid(exts: seq<ExtensionHeader>) {
    forall i :: 0 <= i < |exts| ==> ExtValid(exts[i])
  }

  function FirstKind(exts: seq<ExtensionHeader>, final: byte): byte {
    if exts == [] then final else ExtKind(exts[0])
  }

  function ExtsSize(exts: seq<ExtensionHeader>): nat {
    if exts == [] then 0 else ExtSize(exts[0]) + ExtsSize(exts[1..])
  }

  function EncodeExts(exts: seq<ExtensionHeader>, final: byte): (s: seq<byte>)
    requires ExtsValid(exts)
    ensures |s| == ExtsSize(exts)
  {
    if exts == [] then [] else EncodeExt(exts[0], FirstKind(exts[1..], final)) + EncodeExts(exts[1..], final)
  }

  predicate ExtsAt(f: seq<byte>, at: nat, exts: seq<ExtensionHeader>, final: byte)
    decreases |exts|
  {
    exts == [] ||
    (ExtAt(f, at, exts[0], FirstKind(exts[1..], final)) && ExtsAt(f, at + ExtSize(exts[0]), exts[1..], final))
  }

  lemma ExtsUnfold(exts: seq<ExtensionHeader>, final: byte)
    requires ExtsValid(exts) && exts != []
    ensures ExtsValid(exts[1..])
    ensures EncodeExts(exts, final) == EncodeExt(exts[0], FirstKind(exts[1..], final)) + EncodeExts(exts[1..], final)
  {
  }

  /** A header at the front of a longer part. */
  lemma ExtInFront(f: seq<byte>, at: nat, e: ExtensionHeader, next: byte, rest: seq<byte>)
    requires ExtValid(e) && Holds(f, at, EncodeExt(e, next) + rest)
    ensures ExtAt(f, at, e, next) == true
    ensures Holds(f, at + ExtSize(e), rest)
  {
    HoldsSplit(f, at, EncodeExt(e, next), rest);
    ExtPlaced(f, at, e, next);
  }

  /** The first header of a chain, the others, and the others' encoding. */
  lemma FirstExtPlaced(f: seq<byte>, at: nat, exts: seq<ExtensionHeader>, final: byte, encoded: seq<byte>)
    returns (e: ExtensionHeader, others: seq<ExtensionHeader>, next: byte, rest: seq<byte>)
    requires ExtsValid(exts) && exts != [] && encoded == EncodeExts(exts, final) && Holds(f, at, encoded)
    ensures e == exts[0] && others == exts[1..] && next == FirstKind(others, final)
    ensures ExtsValid(others) && rest == EncodeExts(others, final) && Holds(f, at + ExtSize(e), rest)
    ensures ExtAt(f, at, e, next) == true
  {
    ExtsUnfold(exts, final);
    e, others := exts[0], exts[1..];
    next, rest := FirstKind(others, final), EncodeExts(others, final);
    ExtInFront(f, at, e, next, rest);
  }

  lemma {:induction false} ExtsPlaced(f: seq<byte>, at: nat, exts: seq<ExtensionHeader>, final: byte,
      encoded: seq<byte>)
    requires ExtsValid(exts) && encoded == EncodeExts(exts, final) && Holds(f, at, encoded)
    ensures ExtsAt(f, at, exts, final)
    decreases |exts|
  {
    if exts != [] {
      var e, others, next, rest := FirstExtPlaced(f, at, exts, final, encoded);
      var end := at + ExtSize(e);
      ExtsPlaced(f, end, others, final, rest);
      ExtsAtCons(f, at, exts, final, e, others, next, end);
    }
  }

  lemma ExtsAtCons(f: seq<byte>, at: nat, exts: seq<ExtensionHeader>, final: byte,
      e: ExtensionHeader, others: seq<ExtensionHeader>, next: byte, end: nat)
    requires exts != [] && e == exts[0] && others == exts[1..] && next == FirstKind(others, final)
    requires ExtAt(f, at, e, next) == true
    requires end == at + ExtSize(e) && ExtsAt(f, end, others, final)
    ensures ExtsAt(f, at, exts, final)
  {
  }

  // ---------------------------------------------------------------- frames

  datatype Tag = Tag(tpid: nat, tci: nat)

  datatype IpPacket =
    | V4Packet(v4: V4Header)
    | V6Packet(v6: V6Header, exts: seq<ExtensionHeader>, upper: byte)

  /** An Ethernet frame: addresses, up to two VLAN tags, an IP packet with a transport header, and
      whatever follows the headers. */
  datatype Frame = Frame(macs: seq<byte>, tags: seq<Tag>, ip: IpPacket, transport: TransportHeader, payload: seq<byte>)

  predicate TagsValid(tags: seq<Tag>) {
    forall i :: 0 <= i < |tags| ==> IsVlan(tags[i].tpid) && tags[i].tci < 0x1_0000
  }

  predicate IpValid(p: IpPacket) {
    match p
    case V4Packet(h) => V4Valid(h)
    case V6Packet(h, exts, upper) =>
      V6Valid(h) && |exts| <= MAX_IPV6_EXTENSIONS && ExtsValid(exts) && !IsExtension(upper)
  }

  function IpSize(p: IpPacket): nat {
    match p case V4Packet(h) => h.ihl * 4 case V6Packet(_, exts, _) => 40 + ExtsSize(exts)
  }

  function EncodeIp(p: IpPacket): (s: seq<byte>)
    requires IpValid(p)
    ensures |s| == IpSize(p)
  {
    match p
    case V4Packet(h) => EncodeV4(h)
    case V6Packet(h, exts, upper) => EncodeV6(h, FirstKind(exts, upper)) + EncodeExts(exts, upper)
  }

  predicate IpAt(f: seq<byte>, at: nat, p: IpPacket)
    requires IpValid(p)
  {
    match p
    case V4Packet(h) => V4At(f, at, h)
    case V6Packet(h, exts, upper) => V6At(f, at, h, FirstKind(exts, upper)) && ExtsAt(f, at + 40, exts, upper)
  }

  lemma IpPlaced(f: seq<byte>, at: nat, p: IpPacket, encoded: seq<byte>)
    requires IpValid(p) && encoded == EncodeIp(p) && Holds(f, at, encoded)
    ensures IpAt(f, at, p) == true
  {
    match p
    case V4Packet(h) => V4Placed(f, at, h);
    case V6Packet(h, exts, upper) =>
      HoldsSplit(f, at, EncodeV6(h, FirstKind(exts, upper)), EncodeExts(exts, upper));
      V6Placed(f, at, h, FirstKind(exts, upper));
      ExtsPlaced(f, at + 40, exts, upper, EncodeExts(exts, upper));
  }

  function IpProtocol(p: IpPacket): Proto {
    match p case V4Packet(h) => Protocol4(h.number) case V6Packet(_, _, upper) => Protocol6(upper)
  }

  /** Length of the packet that the IP header declares. */
  function DeclaredLength(p: IpPacket): nat {
    match p case V4Packet(h) => h.totalLength case V6Packet(h, _, _) => 40 + h.payloadLength
  }

  function EncodeTags(tags: seq<Tag>): (s: seq<byte>)
    requires TagsValid(tags)
    ensures |s| == 4 * |tags|
  {
    if tags == [] then [] else PutBe16(tags[0].tpid) + (PutBe16(tags[0].tci) + EncodeTags(tags[1..]))
  }

  function Ethertype(p: IpPacket): nat {
    if p.V4Packet? then ETHERTYPE_IPV4 else ETHERTYPE_IPV6
  }

  function IpOffset(fr: Frame): nat {
    14 + 4 * |fr.tags|
  }

  predicate FrameValid(fr: Frame) {
    && |fr.macs| == 12 && |fr.tags| <= 2 && TagsValid(fr.tags)
    && IpValid(fr.ip) && TransportValid(fr.transport) && Carries(IpProtocol(fr.ip), fr.transport)
    // all headers within the first 512 bytes and inside the declared IP length
    && var headers := IpSize(fr.ip) + TransportSize(fr.transport);
       IpOffset(fr) + headers <= MAX_HEADER_BYTES && headers <= DeclaredLength(fr.ip)
  }

  function Joined(a: seq<byte>, b: seq<byte>, c: seq<byte>, d: seq<byte>, e: seq<byte>, rest: seq<byte>): seq<byte> {
    a + (b + (c + (d + (e + rest))))
  }

  function Build(fr: Frame): seq<byte>
    requires FrameValid(fr)
  {
    Joined(fr.macs, EncodeTags(fr.tags), PutBe16(Ethertype(fr.ip)), EncodeIp(fr.ip), EncodeTransport(fr.transport),
      fr.payload)
  }

  function TypeOf(tags: seq<Tag>, ethertype: nat): nat {
    if tags == [] then ethertype else tags[0].tpid
  }

  /** The types at `at` and every four bytes after it: one a tag, then the packet's. */
  predicate TagsAt(f: seq<byte>, at: nat, tags: seq<Tag>, ethertype: nat)
    decreases |tags|
  {
    Be16At(f, at, TypeOf(tags, ethertype)) && (tags != [] ==> TagsAt(f, at + 4, tags[1..], ethertype))
  }

  lemma {:induction false} TagsPlaced(f: seq<byte>, at: nat, tags: seq<Tag>, encoded: seq<byte>, ethertype: nat)
    requires TagsValid(tags) && ethertype < 0x1_0000 && encoded == EncodeTags(tags)
    requires Holds(f, at, encoded) && Holds(f, at + 4 * |tags|, PutBe16(ethertype))
    ensures TagsAt(f, at, tags, ethertype)
    decreases |tags|
  {
    if tags == [] {
      PlacedBe16(f, at, ethertype);
    } else {
      var tail := EncodeTags(tags[1..]);
      HoldsSplit(f, at, PutBe16(tags[0].tpid), PutBe16(tags[0].tci) + tail);
      HoldsSplit(f, at + 2, PutBe16(tags[0].tci), tail);
      PlacedBe16(f, at, tags[0].tpid);
      TagsPlaced(f, at + 4, tags[1..], tail, ethertype);
    }
  }

  lemma FiveParts(f: seq<byte>, a: seq<byte>, b: seq<byte>, c: seq<byte>, d: seq<byte>, e: seq<byte>, rest: seq<byte>)
    requires f == Joined(a, b, c, d, e, rest)
    ensures Holds(f, |a|, b) && Holds(f, |a| + |b|, c)
    ensures Holds(f, |a| + |b| + |c|, d) && Holds(f, |a| + |b| + |c| + |d|, e)
  {
    assert Holds(f, 0, f);
    HoldsSplit(f, 0, a, b + (c + (d + (e + rest))));
    HoldsSplit(f, |a|, b, c + (d + (e + rest)));
    HoldsSplit(f, |a| + |b|, c, d + (e + rest));
    HoldsSplit(f, |a| + |b| + |c|, d, e + rest);
    HoldsSplit(f, |a| + |b| + |c| + |d|, e, rest);
  }

  /** Where the parts of a frame stand, whatever is in them. */
  lemma PartsStand(f: seq<byte>, macs: seq<byte>, tags: seq<byte>, kind: seq<byte>, ip: seq<byte>,
      transport: seq<byte>, payload: seq<byte>)
    requires f == Joined(macs, tags, kind, ip, transport, payload) && |macs| == 12 && |kind| == 2
    ensures Holds(f, 12, tags) && Holds(f, 12 + |tags|, kind)
    ensures Holds(f, 14 + |tags|, ip) && Holds(f, 14 + |tags| + |ip|, transport)
  {
    FiveParts(f, macs, tags, kind, ip, transport, payload);
  }

  lemma BuiltTags(fr: Frame, f: seq<byte>)
    requires FrameValid(fr) && f == Build(fr)
    ensures TagsAt(f, 12, fr.tags, Ethertype(fr.ip))
  {
    var tags, kind := EncodeTags(fr.tags), PutBe16(Ethertype(fr.ip));
    PartsStand(f, fr.macs, tags, kind, EncodeIp(fr.ip), EncodeTransport(fr.transport), fr.payload);
    TagsPlaced(f, 12, fr.tags, tags, Ethertype(fr.ip));
  }

  lemma BuiltIp(fr: Frame, f: seq<byte>)
    requires FrameValid(fr) && f == Build(fr)
    ensures IpAt(f, IpOffset(fr), fr.ip) == true
  {
    var tags, ip := EncodeTags(fr.tags), EncodeIp(fr.ip);
    PartsStand(f, fr.macs, tags, PutBe16(Ethertype(fr.ip)), ip, EncodeTransport(fr.transport), fr.payload);
    IpPlaced(f, 14 + |tags|, fr.ip, ip);
  }

  lemma UpperPart(fr: Frame, f: seq<byte>, transport: seq<byte>) returns (at: nat)
    requires FrameValid(fr) && f == Build(fr) && transport == EncodeTransport(fr.transport)
    ensures at == IpOffset(fr) + IpSize(fr.ip) && Holds(f, at, transport)
  {
    var tags, ip := EncodeTags(fr.tags), EncodeIp(fr.ip);
    PartsStand(f, fr.macs, tags, PutBe16(Ethertype(fr.ip)), ip, transport, fr.payload);
    at := 14 + |tags| + |ip|;
  }

  lemma BuiltTransport(fr: Frame, f: seq<byte>)
    requires FrameValid(fr) && f == Build(fr)
    ensures TransportAt(f, IpOffset(fr) + IpSize(fr.ip), fr.transport) == true
  {
    var transport := EncodeTransport(fr.transport);
    var at := UpperPart(fr, f, transport);
    TransportPlaced(f, at, fr.transport, transport);
  }

  /** Every field of the frame stands where the headers before it put it. */
  lemma FramePlaced(fr: Frame, f: seq<byte>)
    requires FrameValid(fr) && f == Build(fr)
    ensures TagsAt(f, 12, fr.tags, Ethertype(fr.ip))
    ensures IpAt(f, IpOffset(fr), fr.ip) == true
    ensures TransportAt(f, IpOffset(fr) + IpSize(fr.ip), fr.transport) == true
  {
    BuiltTags(fr, f);
    BuiltIp(fr, f);
    BuiltTransport(fr, f);
  }
}
