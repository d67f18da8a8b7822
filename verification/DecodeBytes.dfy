/** The decoder read off the bytes: for every frame of every link type, which bytes lead to which
    observation, with all numbers written out. */
module DecodeBytes {
  import opened Basics
  import opened Models
  import opened Bytes
  import opened Decode

  /** Two bytes as a number; zero where the frame ends before them. */
  function Word(f: seq<byte>, i: nat): nat { if i + 2 <= |f| then f[i] as int * 256 + f[i + 1] else 0 }

  // ---------------------------------------------------------------- the link header

  predicate Tagged(f: seq<byte>, i: nat) { Word(f, i) == 0x8100 || Word(f, i) == 0x88A8 || Word(f, i) == 0x9100 }

  /** An Ethernet header with `tags` VLAN tags and then another type. */
  predicate EtherEnds(f: seq<byte>, tags: nat) {
    && |f| >= 14 + 4 * tags && !Tagged(f, 12 + 4 * tags)
    && (tags >= 1 ==> Tagged(f, 12)) && (tags >= 2 ==> Tagged(f, 16))
  }

  /** The link header is complete; the packet starts at `at` and is of type `ethertype`. */
  predicate LinkEnds(f: seq<byte>, datalink: nat, at: nat, ethertype: nat) {
    || (datalink == 101 && at == 0 && |f| >= 1 && ethertype == if f[0] / 16 == 4 then 0x0800 else 0x86DD)
    || (datalink == 113 && at == 16 && |f| >= 16 && ethertype == Word(f, 14))
    || (datalink == 276 && at == 20 && |f| >= 20 && ethertype == Word(f, 0))
    || (datalink == 1 && at == 14 && EtherEnds(f, 0) && ethertype == Word(f, 12))
    || (datalink == 1 && at == 18 && EtherEnds(f, 1) && ethertype == Word(f, 16))
    || (datalink == 1 && at == 22 && EtherEnds(f, 2) && ethertype == Word(f, 20))
  }

  /** Why there is no complete link header. */
  predicate LinkFails(f: seq<byte>, datalink: nat, reason: Reason) {
    if datalink == 101 then |f| < 1 && reason == TruncatedHeader
    else if datalink == 113 then |f| < 16 && reason == TruncatedHeader
    else if datalink == 276 then |f| < 20 && reason == TruncatedHeader
    else if datalink != 1 then reason == UnsupportedDatalink
    else
      || (|f| < 14 && reason == TruncatedHeader)
      || (14 <= |f| < 18 && Tagged(f, 12) && reason == TruncatedHeader)
      || (18 <= |f| < 22 && Tagged(f, 12) && Tagged(f, 16) && reason == TruncatedHeader)
      || (22 <= |f| && Tagged(f, 12) && Tagged(f, 16) && Tagged(f, 20) && reason == VlanDepthLimit)
  }

  lemma VlansOnBytes(f: seq<byte>, tags: nat, hi: nat) returns (higher: nat)
    requires tags <= 2 && |f| >= 14 + 4 * tags
    ensures var r := Vlans(f, 14 + 4 * tags, Word(f, 12 + 4 * tags), tags, hi);
      if !Tagged(f, 12 + 4 * tags) then r.Done? && r.value == (14 + 4 * tags, Word(f, 12 + 4 * tags))
      else if tags == 2 then r.Failed? && r.reason == VlanDepthLimit
      else if |f| < 18 + 4 * tags then r.Failed? && r.reason == TruncatedHeader
      else r == Vlans(f, 18 + 4 * tags, Word(f, 16 + 4 * tags), tags + 1, higher)
  {
    higher := Max(hi, 18 + 4 * tags);
    if Tagged(f, 12 + 4 * tags) && tags < 2 && |f| >= 18 + 4 * tags {
      assert f[..18 + 4 * tags][16 + 4 * tags] == f[16 + 4 * tags];
    }
  }

  lemma EtherOnBytes(f: seq<byte>)
    requires |f| >= 14
    ensures var r := Link(f, 1, 0);
      && (forall at: nat, ethertype: nat :: LinkEnds(f, 1, at, ethertype) <==> r.Done? && r.value == (at, ethertype))
      && (forall reason :: LinkFails(f, 1, reason) <==> r.Failed? && r.reason == reason)
  {
    var second := VlansOnBytes(f, 0, 14);
    if |f| >= 18 && Tagged(f, 12) {
      var third := VlansOnBytes(f, 1, second);
      if |f| >= 22 && Tagged(f, 16) {
        var last := VlansOnBytes(f, 2, third);
      }
    }
  }

  /** The link layer, exactly: where the packet starts and of which type it is, or why not. */
  lemma LinkOnBytes(f: seq<byte>, datalink: nat)
    ensures var r := Link(f, datalink, 0);
      && (forall at: nat, ethertype: nat ::
            LinkEnds(f, datalink, at, ethertype) <==> r.Done? && r.value == (at, ethertype))
      && (forall reason :: LinkFails(f, datalink, reason) <==> r.Failed? && r.reason == reason)
  {
    if datalink == 1 && |f| >= 14 {
      EtherOnBytes(f);
    }
  }

  // ---------------------------------------------------------------- headers behind the link header

  /** The bytes up to `length` can be read: they are inside the packet, the limit and the capture. */
  predicate Has(f: seq<byte>, length: nat, end: nat) { length <= end && length <= 512 && length <= |f| }

  /** Why they cannot. */
  function Lacks(f: seq<byte>, length: nat, end: nat): Reason {
    if length > end then HeaderExceedsIpLength else if length > 512 then HeaderByteLimit else TruncatedHeader
  }

  function Stopped(o: Observation, reason: Reason): Observation {
    o.(outcome := Outcome.Partial, decodeReason := Some(reason))
  }

  /** What the transport header at `t` adds to the complete observation `layer` of the IP header. */
  predicate FitsTransport(f: seq<byte>, t: nat, end: nat, name: Proto, layer: Observation, o: Observation) {
    match name
    case Tcp =>
      if !Has(f, t + 20, end) then o == Stopped(layer, Lacks(f, t + 20, end))
      else
        var words := f[t + 12] / 16;
        if words < 5 then o == Stopped(layer, InvalidTcpDataOffset)
        else if !Has(f, t + 4 * words, end) then o == Stopped(layer, Lacks(f, t + 4 * words, end))
        else o == layer.(sourcePort := Some(Word(f, t)), destinationPort := Some(Word(f, t + 2)),
                         tcpFlags := Some(f[t + 13]),
                         fields := layer.fields + {SOURCE_PORT, DESTINATION_PORT, TCP_FLAGS})
    case Udp =>
      if !Has(f, t + 8, end) then o == Stopped(layer, Lacks(f, t + 8, end))
      else o == layer.(sourcePort := Some(Word(f, t)), destinationPort := Some(Word(f, t + 2)),
                       fields := layer.fields + {SOURCE_PORT, DESTINATION_PORT})
    case Icmp =>
      if !Has(f, t + 2, end) then o == Stopped(layer, Lacks(f, t + 2, end))
      else o == layer.(icmpType := Some(f[t]), icmpCode := Some(f[t + 1]), fields := layer.fields + {ICMP})
    case Ip(_) => o == layer
  }

  lemma TransportOnBytes(f: seq<byte>, t: nat, end: nat, name: Proto, layer: Observation, hi: nat)
    ensures FitsTransport(f, t, end, name, layer, TransportOr(f, t, end, name, layer, hi).value)
  {
  }

  /** A frame without a readable IP header. */
  function Unread(base: Observation, reason: Reason): Observation { base.(decodeReason := Some(reason)) }

  function Name4(number: nat): Proto {
    if number == 1 then Icmp else if number == 6 then Tcp else if number == 17 then Udp else Ip(number)
  }

  function Name6(number: nat): Proto {
    if number == 58 then Icmp else if number == 6 then Tcp else if number == 17 then Udp else Ip(number)
  }

  /** What an acceptable IPv4 header at `at` says by itself. */
  function Layer4(f: seq<byte>, at: nat, base: Observation): Observation
    requires at + 20 <= |f|
  {
    base.(ipVersion := Some(V4), source := Some(Address(V4, BigEndian(f[at + 12..at + 16]))),
          destination := Some(Address(V4, BigEndian(f[at + 16..at + 20]))), protocol := Some(Name4(f[at + 9])),
          fields := {IP_VERSION, SOURCE, DESTINATION, PROTOCOL}, outcome := Outcome.Complete)
  }

  /** The fragment offset, the low 13 bits of its field, is not zero. */
  predicate LaterFragment4(f: seq<byte>, at: nat) { Word(f, at + 6) % 0x2000 != 0 }

  /** Version 4, a header length of at least five words that the capture covers, and a total length that
      covers the header. */
  predicate Header4Ok(f: seq<byte>, at: nat) {
    && |f| >= at + 20 && f[at] / 16 == 4 && f[at] % 16 >= 5
    && |f| >= at + f[at] % 16 * 4 && Word(f, at + 2) >= f[at] % 16 * 4
  }

  /** Why an IPv4 header at `at` is not acceptable. */
  function Flaw4(f: seq<byte>, at: nat): Reason {
    if |f| < at + 20 then TruncatedHeader
    else if f[at] / 16 != 4 then InvalidIpv4Version
    else if f[at] % 16 < 5 then InvalidIpv4Ihl
    else if |f| < at + f[at] % 16 * 4 then TruncatedHeader
    else InvalidIpv4TotalLength
  }

  predicate FitsV4(f: seq<byte>, at: nat, base: Observation, o: Observation) {
    if !Header4Ok(f, at) then o == Unread(base, Flaw4(f, at))
    else if LaterFragment4(f, at) then o == Stopped(Layer4(f, at, base), NonInitialFragment)
    else FitsTransport(f, at + f[at] % 16 * 4, at + Word(f, at + 2), Name4(f[at + 9]), Layer4(f, at, base), o)
  }

  /** The observation of the frame, from the outcome of its IP packet. */
  function Outcome4(f: seq<byte>, at: nat, base: Observation, hi: nat): Observation {
    match Ipv4(f, at, base, hi)
    case Done(o, _) => o
    case Failed(reason, _) => base.(decodeReason := Some(reason))
  }

  lemma V4OnBytes(f: seq<byte>, at: nat, base: Observation, hi: nat)
    requires at <= 22
    ensures FitsV4(f, at, base, Outcome4(f, at, base, hi))
  {
    if Header4Ok(f, at) {
      PayloadOnBytes4(f, at, base, hi);
    } else {
      BadHeaderOnBytes4(f, at, hi);
    }
  }

  lemma BadHeaderOnBytes4(f: seq<byte>, at: nat, hi: nat)
    requires at <= 22 && !Header4Ok(f, at)
    ensures var r := Ipv4Header(f, at, hi); r.Failed? && r.reason == Flaw4(f, at)
  {
  }

  lemma PayloadOnBytes4(f: seq<byte>, at: nat, base: Observation, hi: nat)
    requires at <= 22 && Header4Ok(f, at)
    ensures FitsV4(f, at, base, Outcome4(f, at, base, hi))
  {
    HeaderOnBytes4(f, at, hi);
    var r := Ipv4Header(f, at, hi);
    assert Ipv4Layer(base, r.value) == Layer4(f, at, base);
    RestOnBytes4(f, at, base, r.value, r.reach, Layer4(f, at, base));
  }

  lemma RestOnBytes4(f: seq<byte>, at: nat, base: Observation, h: Header4, hi: nat, layer: Observation)
    requires layer == Ipv4Layer(base, h)
    ensures var r := Ipv4Rest(f, at, base, Done(h, hi));
      && r.Done?
      && (h.fragment % 0x2000 != 0 ==> r.value == Stopped(layer, NonInitialFragment))
      && (h.fragment % 0x2000 == 0 ==>
            FitsTransport(f, at + h.ihl, at + h.totalLength, Name4(h.number), layer, r.value))
  {
    TransportOnBytes(f, at + h.ihl, at + h.totalLength, Name4(h.number), layer, hi);
  }

  lemma HeaderOnBytes4(f: seq<byte>, at: nat, hi: nat)
    requires at <= 22 && Header4Ok(f, at)
    ensures var r := Ipv4Header(f, at, hi);
      r.Done? && r.value == Header4(f[at] % 16 * 4, Word(f, at + 2), Word(f, at + 6), f[at + 9],
                                    BigEndian(f[at + 12..at + 16]), BigEndian(f[at + 16..at + 20]))
  {
    var data := f[..at + f[at] % 16 * 4];
    assert Slice(data, at + 12, 4) == f[at + 12..at + 16] && Slice(data, at + 16, 4) == f[at + 16..at + 20];
  }

  // ---------------------------------------------------------------- IPv6 and its extension headers

  predicate Extends(next: nat) {
    next == 0 || next == 43 || next == 44 || next == 50 || next == 51 || next == 60 || next == 135
  }

  /** Bytes of the extension header of kind `next` at `at`. */
  function ExtendedBy(f: seq<byte>, at: nat, next: nat): nat
    requires at + 2 <= |f|
  {
    if next == 44 then 8 else if next == 51 then (f[at + 1] as int + 2) * 4 else (f[at + 1] as int + 1) * 8
  }

  /** A whole extension header of kind `next` can be stepped over at `at`; ESP and later fragments cannot. */
  predicate StepsOver(f: seq<byte>, at: nat, next: nat, end: nat) {
    && Extends(next) && next != 50 && Has(f, at + 2, end) && Has(f, at + ExtendedBy(f, at, next), end)
    && (next == 44 ==> Word(f, at + 2) / 8 == 0)
  }

  /** Stepping over `n` extension headers from the one of kind `first` at `start` leads to `at`, where a
      header of kind `next` stands. */
  predicate Reaches(f: seq<byte>, end: nat, start: nat, first: nat, n: nat, at: nat, next: nat)
    decreases n
  {
    if n == 0 then at == start && next == first
    else StepsOver(f, start, first, end)
         && Reaches(f, end, start + ExtendedBy(f, start, first), f[start], n - 1, at, next)
  }

  /** What the header of kind `next` at `at`, the `n`-th, adds when the chain ends there. */
  predicate FitsChainEnd(f: seq<byte>, end: nat, n: nat, at: nat, next: nat, layer: Observation, o: Observation) {
    var complete := layer.(protocol := Some(Name6(next)), fields := layer.fields + {PROTOCOL},
                           outcome := Outcome.Complete, decodeReason := None);
    if next == 59 then o == complete
    else if !Extends(next) then FitsTransport(f, at, end, Name6(next), complete, o)
    else if n == 8 then o == Stopped(layer, Ipv6ExtensionCountLimit)
    else if next == 50 then o == Stopped(layer, EncryptedEsp)
    else if !Has(f, at + 2, end) then o == Stopped(layer, Lacks(f, at + 2, end))
    else if !Has(f, at + ExtendedBy(f, at, next), end)
    then o == Stopped(layer, Lacks(f, at + ExtendedBy(f, at, next), end))
    else if next == 44 && Word(f, at + 2) / 8 != 0
    then o == Stopped(layer.(protocol := Some(Name6(f[at])), fields := layer.fields + {PROTOCOL}), NonInitialFragment)
    else true
  }

  lemma OneOnBytes(f: seq<byte>, at: nat, next: nat, end: nat, hi: nat)
    requires Extends(next) && next != 50
    ensures var r := OneExtension(f, at, next, end, hi);
      if !Has(f, at + 2, end) then r.Failed? && r.reason == Lacks(f, at + 2, end)
      else if !Has(f, at + ExtendedBy(f, at, next), end)
      then r.Failed? && r.reason == Lacks(f, at + ExtendedBy(f, at, next), end)
      else if next == 44 && Word(f, at + 2) / 8 != 0 then r.Done? && r.value == LaterFragment(f[at])
      else r.Done? && r.value == Skip(ExtendedBy(f, at, next), f[at])
  {
  }

  function ChainOutcome(f: seq<byte>, at: nat, next: nat, count: nat, end: nat, layer: Observation,
      hi: nat): Observation
    requires count <= MAX_IPV6_EXTENSIONS
  {
    AfterChain(f, end, layer, Extensions(f, at, next, count, end, layer, hi)).value
  }

  lemma ChainStops(f: seq<byte>, at: nat, next: nat, count: nat, end: nat, layer: Observation, hi: nat)
    requires count <= MAX_IPV6_EXTENSIONS
    ensures FitsChainEnd(f, end, count, at, next, layer, ChainOutcome(f, at, next, count, end, layer, hi))
  {
    if !Extends(next) {
      var complete := WithProtocol(layer, Protocol6(next)).(outcome := Outcome.Complete, decodeReason := None);
      TransportOnBytes(f, at, end, Name6(next), complete, hi);
    } else if count < 8 && next != 50 {
      OneOnBytes(f, at, next, end, hi);
      assert Extensions(f, at, next, count, end, layer, hi)
        == ExtensionsRest(f, at, count, end, layer, OneExtension(f, at, next, end, hi));
    }
  }

  lemma ChainSteps(f: seq<byte>, at: nat, next: nat, count: nat, end: nat, layer: Observation, hi: nat)
    requires count < MAX_IPV6_EXTENSIONS && StepsOver(f, at, next, end)
    ensures ChainOutcome(f, at, next, count, end, layer, hi)
      == ChainOutcome(f, at + ExtendedBy(f, at, next), f[at], count + 1, end, layer,
                      OneExtension(f, at, next, end, hi).reach)
  {
    OneOnBytes(f, at, next, end, hi);
    assert Extensions(f, at, next, count, end, layer, hi)
      == ExtensionsRest(f, at, count, end, layer, OneExtension(f, at, next, end, hi));
  }

  lemma {:induction false} ChainOnBytes(f: seq<byte>, start: nat, first: nat, count: nat, end: nat, layer: Observation,
      hi: nat, n: nat, at: nat, next: nat)
    requires count + n <= MAX_IPV6_EXTENSIONS && Reaches(f, end, start, first, n, at, next)
    ensures FitsChainEnd(f, end, count + n, at, next, layer, ChainOutcome(f, start, first, count, end, layer, hi))
    decreases n
  {
    if n == 0 {
      ChainStops(f, start, first, count, end, layer, hi);
    } else {
      ChainSteps(f, start, first, count, end, layer, hi);
      var one := OneExtension(f, start, first, end, hi);
      ChainOnBytes(f, start + ExtendedBy(f, start, first), f[start], count + 1, end, layer, one.reach, n - 1, at, next);
    }
  }

  /** Every chain ends: within eight headers it comes to one that is not stepped over, or to the ninth. */
  lemma {:induction false} ChainEnds(f: seq<byte>, end: nat, start: nat, first: nat, left: nat)
      returns (n: nat, at: nat, next: nat)
    ensures n <= left && Reaches(f, end, start, first, n, at, next)
    ensures n == left || !StepsOver(f, at, next, end)
    decreases left
  {
    if left == 0 || !StepsOver(f, start, first, end) {
      n, at, next := 0, start, first;
    } else {
      n, at, next := ChainEnds(f, end, start + ExtendedBy(f, start, first), f[start], left - 1);
      n := n + 1;
    }
  }

  function Layer6(f: seq<byte>, at: nat, base: Observation): Observation
    requires at + 40 <= |f|
  {
    base.(ipVersion := Some(V6), source := Some(Address(V6, BigEndian(f[at + 8..at + 24]))),
          destination := Some(Address(V6, BigEndian(f[at + 24..at + 40]))), fields := {IP_VERSION, SOURCE, DESTINATION},
          outcome := Outcome.Partial)
  }

  /** `o` is what the chain from the header of kind `first` at `start` leads to. */
  ghost predicate FitsChain(f: seq<byte>, end: nat, start: nat, first: nat, layer: Observation, o: Observation) {
    forall n: nat, at: nat, next: nat :: n <= 8 && Reaches(f, end, start, first, n, at, next) ==>
      FitsChainEnd(f, end, n, at, next, layer, o)
  }

  ghost predicate FitsV6(f: seq<byte>, at: nat, base: Observation, o: Observation) {
    if |f| < at + 40 then o == Unread(base, TruncatedHeader)
    else if f[at] / 16 != 6 then o == Unread(base, InvalidIpv6Version)
    else if Word(f, at + 4) == 0 && f[at + 6] != 59 then o == Stopped(Layer6(f, at, base), Ipv6JumbogramUnsupported)
    else FitsChain(f, at + 40 + Word(f, at + 4), at + 40, f[at + 6], Layer6(f, at, base), o)
  }

  function Outcome6(f: seq<byte>, at: nat, base: Observation, hi: nat): Observation {
    match Ipv6(f, at, base, hi)
    case Done(o, _) => o
    case Failed(reason, _) => base.(decodeReason := Some(reason))
  }

  lemma HeaderOnBytes6(f: seq<byte>, at: nat, hi: nat)
    requires at <= 22 && |f| >= at + 40 && f[at] / 16 == 6
    ensures var r := Ipv6Header(f, at, hi);
      r.Done? && r.value == Header6(Word(f, at + 4), f[at + 6], BigEndian(f[at + 8..at + 24]),
                                    BigEndian(f[at + 24..at + 40]))
  {
    var data := f[..at + 40];
    assert Slice(data, at + 8, 16) == f[at + 8..at + 24] && Slice(data, at + 24, 16) == f[at + 24..at + 40];
  }

  lemma V6OnBytes(f: seq<byte>, at: nat, base: Observation, hi: nat)
    requires at <= 22
    ensures FitsV6(f, at, base, Outcome6(f, at, base, hi))
  {
    if |f| >= at + 40 && f[at] / 16 == 6 {
      HeaderOnBytes6(f, at, hi);
      var h, layer := Ipv6Header(f, at, hi), Layer6(f, at, base);
      var end := at + 40 + Word(f, at + 4);
      assert Ipv6Layer(base, h.value) == layer;
      if Word(f, at + 4) != 0 || f[at + 6] == 59 {
        assert Outcome6(f, at, base, hi) == ChainOutcome(f, at + 40, f[at + 6], 0, end, layer, h.reach);
        forall n: nat, cursor: nat, next: nat | n <= 8 && Reaches(f, end, at + 40, f[at + 6], n, cursor, next)
          ensures FitsChainEnd(f, end, n, cursor, next, layer, Outcome6(f, at, base, hi)) {
          ChainOnBytes(f, at + 40, f[at + 6], 0, end, layer, h.reach, n, cursor, next);
        }
      }
    }
  }

  // ---------------------------------------------------------------- the whole frame

  /** An observation about which nothing is known but how the frame was captured. */
  function Blank(wireLength: nat, c: Context): Observation {
    Observation(c.capturedAt, c.monotonicAt, c.sensorId, c.sourceGeneration, c.capturePoint, c.interface, c.direction,
                wireLength, None, None, None, None, None, None, None, None, None, {}, Undecodable, None, false)
  }

  /** `o` is what the bytes of the frame say. */
  ghost predicate Fits(f: seq<byte>, wireLength: nat, datalink: nat, c: Context, o: Observation) {
    var base := Blank(wireLength, c);
    && (forall reason :: LinkFails(f, datalink, reason) ==> o == Unread(base, reason))
    && (forall at: nat, ethertype: nat :: LinkEnds(f, datalink, at, ethertype) ==>
          if ethertype == 0x0800 then FitsV4(f, at, base, o)
          else if ethertype == 0x86DD then FitsV6(f, at, base, o)
          else o == Unread(base, UnsupportedEthertype(ethertype)))
  }

  /** Every frame of every link type is decoded to what its bytes say. */
  lemma DecodedFitsBytes(f: seq<byte>, wireLength: nat, datalink: nat, c: Context)
    ensures Fits(f, wireLength, datalink, c, Decoded(f, wireLength, datalink, c))
  {
    LinkOnBytes(f, datalink);
    var r, base := Link(f, datalink, 0), Blank(wireLength, c);
    if r.Done? {
      assert LinkEnds(f, datalink, r.value.0, r.value.1) && r.value.0 <= 22;
      V4OnBytes(f, r.value.0, base, r.reach);
      V6OnBytes(f, r.value.0, base, r.reach);
    }
  }

  // ---------------------------------------------------------------- later fragments

  /** The packet at `at` is a later fragment of an IPv4 packet. */
  predicate Fragment4(f: seq<byte>, at: nat) { Header4Ok(f, at) && LaterFragment4(f, at) }

  /** Behind `n` extension headers stands, at `at`, the fragment header of a later fragment. */
  predicate LaterFragmentAt(f: seq<byte>, end: nat, start: nat, first: nat, n: nat, at: nat) {
    n < 8 && Reaches(f, end, start, first, n, at, 44) && Has(f, at + 8, end) && Word(f, at + 2) / 8 != 0
  }

  ghost predicate ChainFragment(f: seq<byte>, end: nat, start: nat, first: nat) {
    exists n: nat, at: nat :: LaterFragmentAt(f, end, start, first, n, at)
  }

  /** The packet at `at` is a later fragment of an IPv6 packet. */
  ghost predicate Fragment6(f: seq<byte>, at: nat) {
    && |f| >= at + 40 && f[at] / 16 == 6 && Word(f, at + 4) != 0
    && ChainFragment(f, at + 40 + Word(f, at + 4), at + 40, f[at + 6])
  }

  /** The frame holds a later fragment. */
  ghost predicate HoldsFragment(f: seq<byte>, datalink: nat) {
    exists at: nat, ethertype: nat :: LinkEnds(f, datalink, at, ethertype)
      && ((ethertype == 0x0800 && Fragment4(f, at)) || (ethertype == 0x86DD && Fragment6(f, at)))
  }

  /** Addresses and protocol, and nothing of what follows the IP header. */
  predicate NothingBehind(o: Observation) {
    && o.outcome.Partial? && o.fields == {IP_VERSION, SOURCE, DESTINATION, PROTOCOL}
    && o.sourcePort.None? && o.destinationPort.None? && o.tcpFlags.None? && o.icmpType.None? && o.icmpCode.None?
  }

  predicate Bare(base: Observation) {
    && base.decodeReason.None? && base.sourcePort.None? && base.destinationPort.None?
    && base.tcpFlags.None? && base.icmpType.None? && base.icmpCode.None?
  }

  lemma Fragment4Fits(f: seq<byte>, at: nat, base: Observation, o: Observation)
    requires FitsV4(f, at, base, o) && Bare(base)
    ensures o.decodeReason == Some(NonInitialFragment) <==> Fragment4(f, at)
    ensures Fragment4(f, at) ==> NothingBehind(o)
  {
  }

  lemma Fragment6Fits(f: seq<byte>, at: nat, base: Observation, o: Observation)
    requires FitsV6(f, at, base, o) && Bare(base)
    ensures o.decodeReason == Some(NonInitialFragment) <==> Fragment6(f, at)
    ensures Fragment6(f, at) ==> NothingBehind(o)
  {
    if |f| >= at + 40 && f[at] / 16 == 6 && (Word(f, at + 4) != 0 || f[at + 6] == 59) {
      ChainFragmentFits(f, at + 40 + Word(f, at + 4), at + 40, f[at + 6], Layer6(f, at, base), o);
    }
  }

  lemma ChainFragmentFits(f: seq<byte>, end: nat, start: nat, first: nat, layer: Observation, o: Observation)
    requires FitsChain(f, end, start, first, layer, o) && Bare(layer)
      && layer.fields == {IP_VERSION, SOURCE, DESTINATION}
    ensures o.decodeReason == Some(NonInitialFragment) <==> ChainFragment(f, end, start, first)
    ensures ChainFragment(f, end, start, first) ==> NothingBehind(o) && first != 59
  {
    if o.decodeReason == Some(NonInitialFragment) {
      var n, at, next := ChainEnds(f, end, start, first, 8);
      EndIsFragment(f, end, n, at, next, layer, o);
      assert LaterFragmentAt(f, end, start, first, n, at);
    }
    if ChainFragment(f, end, start, first) {
      var n: nat, at: nat :| LaterFragmentAt(f, end, start, first, n, at);
      assert FitsChainEnd(f, end, n, at, 44, layer, o);
    }
  }

  lemma EndIsFragment(f: seq<byte>, end: nat, n: nat, at: nat, next: nat, layer: Observation, o: Observation)
    requires FitsChainEnd(f, end, n, at, next, layer, o) && Bare(layer) && n <= 8
    requires n == 8 || !StepsOver(f, at, next, end)
    requires o.decodeReason == Some(NonInitialFragment)
    ensures n < 8 && next == 44 && Has(f, at + 8, end) && Word(f, at + 2) / 8 != 0
  {
  }

  /** A frame is reported as a later fragment exactly when its bytes are one; it then shows no ports, no
      flags and no ICMP fields, whatever its payload looks like. */
  lemma LaterFragmentExactly(f: seq<byte>, wireLength: nat, datalink: nat, c: Context)
    ensures var o := Decoded(f, wireLength, datalink, c);
      && (o.decodeReason == Some(NonInitialFragment) <==> HoldsFragment(f, datalink))
      && (HoldsFragment(f, datalink) ==> NothingBehind(o))
  {
    DecodedFitsBytes(f, wireLength, datalink, c);
    LinkOnBytes(f, datalink);
    var r, o, base := Link(f, datalink, 0), Decoded(f, wireLength, datalink, c), Blank(wireLength, c);
    if r.Done? {
      var at, ethertype := r.value.0, r.value.1;
      assert LinkEnds(f, datalink, at, ethertype);
      if ethertype == 0x0800 {
        Fragment4Fits(f, at, base, o);
      } else if ethertype == 0x86DD {
        Fragment6Fits(f, at, base, o);
      }
    } else {
      assert LinkFails(f, datalink, r.reason);
    }
  }
}
