/** What holds of the decoder on every frame: bounded requests, no dependence on bytes it did not
    request, consistent field flags and outcomes, and no read past the declared IP length. */
module DecodeProperties {
  import opened Basics
  import opened Models
  import opened Bytes
  import opened Decode

  // ---------------------------------------------------------------- requests are bounded

  lemma LinkReach(f: seq<byte>, datalink: nat, hi: nat)
    requires hi <= MAX_HEADER_BYTES
    ensures hi <= Link(f, datalink, hi).reach <= MAX_HEADER_BYTES
  {
    if datalink == DLT_EN10MB {
      var r := Need(f, 14, hi);
      if r.Done? {
        VlansReach(f, 14, Be16(r.value, 12), 0, r.reach);
      }
    }
  }

  lemma {:induction false} VlansReach(f: seq<byte>, offset: nat, ethertype: nat, depth: nat, hi: nat)
    requires depth <= 2 && hi <= MAX_HEADER_BYTES
    ensures hi <= Vlans(f, offset, ethertype, depth, hi).reach <= MAX_HEADER_BYTES
    decreases 2 - depth
  {
    if IsVlan(ethertype) && depth < 2 {
      var r := Need(f, offset + 4, hi);
      if r.Done? {
        VlansReach(f, offset + 4, Be16(r.value, offset + 2), depth + 1, r.reach);
      }
    }
  }

  lemma TransportReach(f: seq<byte>, offset: nat, packetEnd: nat, protocol: Proto, o: Observation, hi: nat)
    requires hi <= MAX_HEADER_BYTES
    ensures hi <= Transport(f, offset, packetEnd, protocol, o, hi).reach <= Max(hi, Min(MAX_HEADER_BYTES, packetEnd))
  {
  }

  lemma OneExtensionReach(f: seq<byte>, cursor: nat, next: nat, packetEnd: nat, hi: nat)
    requires hi <= MAX_HEADER_BYTES
    ensures hi <= OneExtension(f, cursor, next, packetEnd, hi).reach <= Max(hi, Min(MAX_HEADER_BYTES, packetEnd))
  {
  }

  lemma {:induction false} ExtensionsReach(f: seq<byte>, cursor: nat, next: nat, count: nat, packetEnd: nat,
      layer: Observation, hi: nat)
    requires count <= MAX_IPV6_EXTENSIONS && hi <= MAX_HEADER_BYTES
    ensures hi <= Extensions(f, cursor, next, count, packetEnd, layer, hi).reach
      <= Max(hi, Min(MAX_HEADER_BYTES, packetEnd))
    decreases MAX_IPV6_EXTENSIONS - count
  {
    if IsExtension(next) && count < MAX_IPV6_EXTENSIONS && next != IPV6_ESP {
      var e := OneExtension(f, cursor, next, packetEnd, hi);
      OneExtensionReach(f, cursor, next, packetEnd, hi);
      if e.Done? && e.value.Skip? {
        ExtensionsReach(f, cursor + e.value.length, e.value.following, count + 1, packetEnd, layer, e.reach);
      }
    }
  }

  /** Where the IP layer of a frame starts, if its link layer decodes to IP. */
  function IpStart(f: seq<byte>, datalink: nat): Option<(nat, nat)> {
    match Link(f, datalink, 0)
    case Done(link, _) => if link.1 == ETHERTYPE_IPV4 || link.1 == ETHERTYPE_IPV6 then Some(link) else None
    case Failed(_, _) => None
  }

  /** The end of the packet that a valid IP header at `offset` declares. */
  function DeclaredEnd(f: seq<byte>, offset: nat, ethertype: nat): nat {
    if ethertype == ETHERTYPE_IPV4 then
      if offset + 4 <= |f| then offset + Be16(f, offset + 2) else 0
    else
      if offset + 6 <= |f| then offset + 40 + Be16(f, offset + 4) else 0
  }

  lemma {:induction false} VlansRequested(f: seq<byte>, offset: nat, ethertype: nat, depth: nat, hi: nat)
    requires depth <= 2 && offset <= hi <= MAX_HEADER_BYTES
    ensures var r := Vlans(f, offset, ethertype, depth, hi);
      r.Done? ==> r.reach <= Max(hi, r.value.0) && offset <= r.value.0
    decreases 2 - depth
  {
    if IsVlan(ethertype) && depth < 2 {
      var r := Need(f, offset + 4, hi);
      if r.Done? {
        VlansRequested(f, offset + 4, Be16(r.value, offset + 2), depth + 1, r.reach);
      }
    }
  }

  /** The link layer requests no more than the IP layer's start, or one byte to sniff the version. */
  lemma LinkRequested(f: seq<byte>, datalink: nat)
    ensures var r := Link(f, datalink, 0); r.Done? ==> r.reach <= Max(r.value.0, 1)
  {
    if datalink == DLT_EN10MB {
      var r := Need(f, 14, 0);
      if r.Done? {
        VlansRequested(f, 14, Be16(r.value, 12), 0, r.reach);
      }
    }
  }

  lemma Ipv4HeaderReach(f: seq<byte>, offset: nat, hi: nat)
    requires hi <= MAX_HEADER_BYTES
    ensures hi <= Ipv4Header(f, offset, hi).reach <= MAX_HEADER_BYTES
    ensures var r := Ipv4Header(f, offset, hi);
      r.Done? && hi <= offset + 20 ==>
        r.reach <= offset + r.value.ihl <= offset + r.value.totalLength == DeclaredEnd(f, offset, ETHERTYPE_IPV4)
  {
  }

  /** The requests of a step stay in range, and within the packet's end if it succeeds. */
  predicate Within(r: Parse<Observation>, hi: nat, end: nat) {
    match r
    case Done(_, reach) => hi <= reach <= Min(MAX_HEADER_BYTES, Max(hi, end))
    case Failed(_, reach) => hi <= reach <= MAX_HEADER_BYTES
  }

  lemma Layer4Reach(f: seq<byte>, offset: nat, h: Header4, o: Observation, hi: nat)
    requires hi <= MAX_HEADER_BYTES
    ensures Within(TransportOr(f, offset + h.ihl, offset + h.totalLength, Protocol4(h.number), o, hi), hi,
      offset + h.totalLength)
  {
    TransportReach(f, offset + h.ihl, offset + h.totalLength, Protocol4(h.number), o, hi);
  }

  lemma Ipv4RestReach(f: seq<byte>, offset: nat, base: Observation, r: Parse<Header4>, end: nat)
    requires r.reach <= MAX_HEADER_BYTES
    requires r.Done? ==> r.reach <= offset + r.value.totalLength == end
    ensures Within(Ipv4Rest(f, offset, base, r), r.reach, end)
  {
    if r.Done? {
      Layer4Reach(f, offset, r.value, Ipv4Layer(base, r.value), r.reach);
    }
  }

  lemma Ipv4Reach(f: seq<byte>, offset: nat, base: Observation, hi: nat)
    requires hi <= Min(offset + 20, MAX_HEADER_BYTES)
    ensures Within(Ipv4(f, offset, base, hi), hi, DeclaredEnd(f, offset, ETHERTYPE_IPV4))
  {
    Ipv4HeaderReach(f, offset, hi);
    Ipv4RestReach(f, offset, base, Ipv4Header(f, offset, hi), DeclaredEnd(f, offset, ETHERTYPE_IPV4));
  }

  lemma Ipv6UpperReach(f: seq<byte>, cursor: nat, next: nat, packetEnd: nat, layer: Observation, hi: nat)
    requires hi <= MAX_HEADER_BYTES
    ensures hi <= Ipv6Upper(f, cursor, next, packetEnd, layer, hi).reach <= Max(hi, Min(MAX_HEADER_BYTES, packetEnd))
  {
    TransportReach(f, cursor, packetEnd, Protocol6(next),
      WithProtocol(layer, Protocol6(next)).(outcome := Outcome.Complete, decodeReason := None), hi);
  }

  lemma Ipv6PayloadReach(f: seq<byte>, offset: nat, h: Header6, layer: Observation, hi: nat)
    requires hi <= MAX_HEADER_BYTES
    ensures Within(Ipv6Payload(f, offset, h, layer, hi), hi, offset + 40 + h.payloadLength)
  {
    var packetEnd := offset + 40 + h.payloadLength;
    ExtensionsReach(f, offset + 40, h.next, 0, packetEnd, layer, hi);
    var chain := Extensions(f, offset + 40, h.next, 0, packetEnd, layer, hi);
    if chain.Done? && chain.value.Upper? {
      Ipv6UpperReach(f, chain.value.cursor, chain.value.next, packetEnd, layer, chain.reach);
    }
  }

  lemma Ipv6HeaderReach(f: seq<byte>, offset: nat, hi: nat)
    requires hi <= MAX_HEADER_BYTES
    ensures hi <= Ipv6Header(f, offset, hi).reach <= MAX_HEADER_BYTES
    ensures var r := Ipv6Header(f, offset, hi);
      r.Done? && hi <= offset + 40 ==>
        r.reach <= offset + 40 + r.value.payloadLength == DeclaredEnd(f, offset, ETHERTYPE_IPV6)
  {
  }

  lemma Ipv6Reach(f: seq<byte>, offset: nat, base: Observation, hi: nat)
    requires hi <= Min(offset + 40, MAX_HEADER_BYTES)
    ensures Within(Ipv6(f, offset, base, hi), hi, DeclaredEnd(f, offset, ETHERTYPE_IPV6))
  {
    var r := Ipv6Header(f, offset, hi);
    Ipv6HeaderReach(f, offset, hi);
    if r.Done? {
      Ipv6PayloadReach(f, offset, r.value, Ipv6Layer(base, r.value), r.reach);
    }
  }

  /** No request exceeds 512 bytes, and when an IP header is accepted no request goes past the end
      of the packet that this header declares. */
  lemma RequestsBounded(f: seq<byte>, wireLength: nat, datalink: nat, c: Context)
    ensures Reach(f, wireLength, datalink, c) <= MAX_HEADER_BYTES
    ensures var start, o := IpStart(f, datalink), Decoded(f, wireLength, datalink, c);
      !o.outcome.Undecodable? ==>
        start.Some? && Reach(f, wireLength, datalink, c) <= DeclaredEnd(f, start.value.0, start.value.1)
  {
    LinkReach(f, datalink, 0);
    LinkRequested(f, datalink);
    var base, link := Base(wireLength, c), Link(f, datalink, 0);
    if link.Done? {
      Ipv4Reach(f, link.value.0, base, link.reach);
      Ipv6Reach(f, link.value.0, base, link.reach);
    }
  }

  // ---------------------------------------------------------------- only requested bytes matter

  /** The two readers answer every request up to `n` bytes alike. */
  predicate Agree(f: seq<byte>, g: seq<byte>, n: nat) {
    f[..Min(n, |f|)] == g[..Min(n, |g|)]
  }

  lemma NeedAgrees(f: seq<byte>, g: seq<byte>, n: nat, length: nat, hi: nat)
    requires Agree(f, g, n) && Need(f, length, hi).reach <= n
    ensures Need(g, length, hi) == Need(f, length, hi)
  {
    if length <= MAX_HEADER_BYTES && length <= |f| {
      assert f[..length] == f[..Min(n, |f|)][..length];
      assert g[..length] == g[..Min(n, |g|)][..length];
    }
  }

  lemma NeedWithinAgrees(f: seq<byte>, g: seq<byte>, n: nat, length: nat, packetEnd: nat, hi: nat)
    requires Agree(f, g, n) && NeedWithin(f, length, packetEnd, hi).reach <= n
    ensures NeedWithin(g, length, packetEnd, hi) == NeedWithin(f, length, packetEnd, hi)
  {
    if length <= packetEnd {
      NeedAgrees(f, g, n, length, hi);
    }
  }

  lemma {:induction false} VlansAgrees(f: seq<byte>, g: seq<byte>, n: nat, offset: nat, ethertype: nat, depth: nat,
      hi: nat)
    requires depth <= 2 && hi <= MAX_HEADER_BYTES && Agree(f, g, n) && Vlans(f, offset, ethertype, depth, hi).reach <= n
    ensures Vlans(g, offset, ethertype, depth, hi) == Vlans(f, offset, ethertype, depth, hi)
    decreases 2 - depth
  {
    if IsVlan(ethertype) && depth < 2 {
      var r := Need(f, offset + 4, hi);
      if r.Done? {
        VlansReach(f, offset + 4, Be16(r.value, offset + 2), depth + 1, r.reach);
        VlansAgrees(f, g, n, offset + 4, Be16(r.value, offset + 2), depth + 1, r.reach);
      }
      NeedAgrees(f, g, n, offset + 4, hi);
    }
  }

  lemma LinkAgrees(f: seq<byte>, g: seq<byte>, n: nat, datalink: nat)
    requires Agree(f, g, n) && Link(f, datalink, 0).reach <= n
    ensures Link(g, datalink, 0) == Link(f, datalink, 0)
  {
    if datalink == DLT_RAW {
      NeedAgrees(f, g, n, 1, 0);
    } else if datalink == DLT_LINUX_SLL {
      NeedAgrees(f, g, n, 16, 0);
    } else if datalink == DLT_LINUX_SLL2 {
      NeedAgrees(f, g, n, 20, 0);
    } else if datalink == DLT_EN10MB {
      var r := Need(f, 14, 0);
      if r.Done? {
        VlansReach(f, 14, Be16(r.value, 12), 0, r.reach);
        VlansAgrees(f, g, n, 14, Be16(r.value, 12), 0, r.reach);
      }
      NeedAgrees(f, g, n, 14, 0);
    }
  }

  lemma TransportAgrees(f: seq<byte>, g: seq<byte>, n: nat, offset: nat, packetEnd: nat, protocol: Proto,
      o: Observation, hi: nat)
    requires Agree(f, g, n) && Transport(f, offset, packetEnd, protocol, o, hi).reach <= n
    ensures Transport(g, offset, packetEnd, protocol, o, hi) == Transport(f, offset, packetEnd, protocol, o, hi)
  {
    match protocol
    case Tcp =>
      var r := NeedWithin(f, offset + 20, packetEnd, hi);
      if r.Done? && r.value[offset + 12] / 16 >= 5 {
        NeedWithinAgrees(f, g, n, offset + r.value[offset + 12] / 16 * 4, packetEnd, r.reach);
      }
      NeedWithinAgrees(f, g, n, offset + 20, packetEnd, hi);
    case Udp => NeedWithinAgrees(f, g, n, offset + 8, packetEnd, hi);
    case Icmp => NeedWithinAgrees(f, g, n, offset + 2, packetEnd, hi);
    case Ip(_) =>
  }

  lemma OneExtensionAgrees(f: seq<byte>, g: seq<byte>, n: nat, cursor: nat, next: nat, packetEnd: nat, hi: nat)
    requires hi <= MAX_HEADER_BYTES && Agree(f, g, n) && OneExtension(f, cursor, next, packetEnd, hi).reach <= n
    ensures OneExtension(g, cursor, next, packetEnd, hi) == OneExtension(f, cursor, next, packetEnd, hi)
  {
    var r := NeedWithin(f, cursor + 2, packetEnd, hi);
    if r.Done? {
      var second := if next == IPV6_FRAGMENT then cursor + 8 else cursor + 2;
      var t := NeedWithin(f, second, packetEnd, r.reach);
      if t.Done? && !(next == IPV6_FRAGMENT && Be16(t.value, cursor + 2) / 8 != 0) {
        NeedWithinAgrees(f, g, n, cursor + ExtensionLength(next, r.value[cursor + 1]), packetEnd, t.reach);
      }
      NeedWithinAgrees(f, g, n, second, packetEnd, r.reach);
    }
    NeedWithinAgrees(f, g, n, cursor + 2, packetEnd, hi);
  }

  lemma {:induction false} ExtensionsAgrees(f: seq<byte>, g: seq<byte>, n: nat, cursor: nat, next: nat, count: nat,
      packetEnd: nat, layer: Observation, hi: nat)
    requires count <= MAX_IPV6_EXTENSIONS && hi <= MAX_HEADER_BYTES
    requires Agree(f, g, n) && Extensions(f, cursor, next, count, packetEnd, layer, hi).reach <= n
    ensures Extensions(g, cursor, next, count, packetEnd, layer, hi)
      == Extensions(f, cursor, next, count, packetEnd, layer, hi)
    decreases MAX_IPV6_EXTENSIONS - count, 1
  {
    if IsExtension(next) && count < MAX_IPV6_EXTENSIONS && next != IPV6_ESP {
      var e := OneExtension(f, cursor, next, packetEnd, hi);
      OneExtensionReach(f, cursor, next, packetEnd, hi);
      RestAgrees(f, g, n, cursor, count, packetEnd, layer, e);
      OneExtensionAgrees(f, g, n, cursor, next, packetEnd, hi);
    }
  }

  lemma {:induction false} RestAgrees(f: seq<byte>, g: seq<byte>, n: nat, cursor: nat, count: nat, packetEnd: nat,
      layer: Observation, e: Parse<Extension>)
    requires count < MAX_IPV6_EXTENSIONS && e.reach <= MAX_HEADER_BYTES
    requires Agree(f, g, n) && ExtensionsRest(f, cursor, count, packetEnd, layer, e).reach <= n
    ensures ExtensionsRest(g, cursor, count, packetEnd, layer, e)
      == ExtensionsRest(f, cursor, count, packetEnd, layer, e)
    ensures e.reach <= n
    decreases MAX_IPV6_EXTENSIONS - count, 0
  {
    if e.Done? && e.value.Skip? {
      ExtensionsReach(f, cursor + e.value.length, e.value.following, count + 1, packetEnd, layer, e.reach);
      ExtensionsAgrees(f, g, n, cursor + e.value.length, e.value.following, count + 1, packetEnd, layer, e.reach);
    }
  }

  lemma Ipv4HeaderAgrees(f: seq<byte>, g: seq<byte>, n: nat, offset: nat, hi: nat)
    requires hi <= MAX_HEADER_BYTES && Agree(f, g, n) && Ipv4Header(f, offset, hi).reach <= n
    ensures Ipv4Header(g, offset, hi) == Ipv4Header(f, offset, hi)
  {
    var r := Need(f, offset + 20, hi);
    if r.Done? && r.value[offset] / 16 == 4 && r.value[offset] % 16 * 4 >= 20 {
      NeedAgrees(f, g, n, offset + r.value[offset] % 16 * 4, r.reach);
    }
    NeedAgrees(f, g, n, offset + 20, hi);
  }

  lemma TransportOrAgrees(f: seq<byte>, g: seq<byte>, n: nat, offset: nat, packetEnd: nat, protocol: Proto,
      o: Observation, hi: nat)
    requires Agree(f, g, n) && TransportOr(f, offset, packetEnd, protocol, o, hi).reach <= n
    ensures TransportOr(g, offset, packetEnd, protocol, o, hi) == TransportOr(f, offset, packetEnd, protocol, o, hi)
  {
    TransportAgrees(f, g, n, offset, packetEnd, protocol, o, hi);
  }

  lemma Ipv4RestMonotone(f: seq<byte>, offset: nat, base: Observation, r: Parse<Header4>)
    requires r.reach <= MAX_HEADER_BYTES
    ensures r.reach <= Ipv4Rest(f, offset, base, r).reach
  {
    if r.Done? {
      Layer4Reach(f, offset, r.value, Ipv4Layer(base, r.value), r.reach);
    }
  }

  lemma Ipv4RestAgrees(f: seq<byte>, g: seq<byte>, n: nat, offset: nat, base: Observation, r: Parse<Header4>)
    requires Agree(f, g, n) && Ipv4Rest(f, offset, base, r).reach <= n
    ensures Ipv4Rest(g, offset, base, r) == Ipv4Rest(f, offset, base, r)
  {
    if r.Done? && r.value.fragment % 0x2000 == 0 {
      var start, end, p, layer :=
        offset + r.value.ihl, offset + r.value.totalLength, Protocol4(r.value.number), Ipv4Layer(base, r.value);
      Ipv4RestIs(f, offset, base, r, start, end, p, layer);
      TransportOrAgrees(f, g, n, start, end, p, layer, r.reach);
      Ipv4RestIs(g, offset, base, r, start, end, p, layer);
    }
  }

  lemma Ipv4RestIs(f: seq<byte>, offset: nat, base: Observation, r: Parse<Header4>, start: nat, end: nat, p: Proto,
      layer: Observation)
    requires r.Done? && r.value.fragment % 0x2000 == 0
    requires start == offset + r.value.ihl && end == offset + r.value.totalLength
    requires p == Protocol4(r.value.number) && layer == Ipv4Layer(base, r.value)
    ensures Ipv4Rest(f, offset, base, r) == TransportOr(f, start, end, p, layer, r.reach)
  {
  }

  lemma Ipv4Agrees(f: seq<byte>, g: seq<byte>, n: nat, offset: nat, base: Observation, hi: nat)
    requires hi <= MAX_HEADER_BYTES && Agree(f, g, n) && Ipv4(f, offset, base, hi).reach <= n
    ensures Ipv4(g, offset, base, hi) == Ipv4(f, offset, base, hi)
  {
    Ipv4HeaderReach(f, offset, hi);
    Ipv4RestMonotone(f, offset, base, Ipv4Header(f, offset, hi));
    Ipv4RestAgrees(f, g, n, offset, base, Ipv4Header(f, offset, hi));
    Ipv4HeaderAgrees(f, g, n, offset, hi);
  }

  lemma Ipv6UpperAgrees(f: seq<byte>, g: seq<byte>, n: nat, cursor: nat, next: nat, packetEnd: nat, layer: Observation,
      hi: nat)
    requires Agree(f, g, n) && Ipv6Upper(f, cursor, next, packetEnd, layer, hi).reach <= n
    ensures Ipv6Upper(g, cursor, next, packetEnd, layer, hi) == Ipv6Upper(f, cursor, next, packetEnd, layer, hi)
  {
    if next != IPV6_NO_NEXT {
      TransportAgrees(f, g, n, cursor, packetEnd, Protocol6(next),
        WithProtocol(layer, Protocol6(next)).(outcome := Outcome.Complete, decodeReason := None), hi);
    }
  }

  lemma Ipv6PayloadAgrees(f: seq<byte>, g: seq<byte>, n: nat, offset: nat, h: Header6, layer: Observation, hi: nat)
    requires hi <= MAX_HEADER_BYTES && Agree(f, g, n) && Ipv6Payload(f, offset, h, layer, hi).reach <= n
    ensures Ipv6Payload(g, offset, h, layer, hi) == Ipv6Payload(f, offset, h, layer, hi)
  {
    var packetEnd := offset + 40 + h.payloadLength;
    var chain := Extensions(f, offset + 40, h.next, 0, packetEnd, layer, hi);
    ExtensionsReach(f, offset + 40, h.next, 0, packetEnd, layer, hi);
    if chain.Done? && chain.value.Upper? {
      Ipv6UpperReach(f, chain.value.cursor, chain.value.next, packetEnd, layer, chain.reach);
      Ipv6UpperAgrees(f, g, n, chain.value.cursor, chain.value.next, packetEnd, layer, chain.reach);
    }
    ExtensionsAgrees(f, g, n, offset + 40, h.next, 0, packetEnd, layer, hi);
  }

  lemma Ipv6Agrees(f: seq<byte>, g: seq<byte>, n: nat, offset: nat, base: Observation, hi: nat)
    requires hi <= MAX_HEADER_BYTES && Agree(f, g, n) && Ipv6(f, offset, base, hi).reach <= n
    ensures Ipv6(g, offset, base, hi) == Ipv6(f, offset, base, hi)
  {
    var r := Ipv6Header(f, offset, hi);
    Ipv6HeaderReach(f, offset, hi);
    if r.Done? {
      Ipv6PayloadReach(f, offset, r.value, Ipv6Layer(base, r.value), r.reach);
      if !(r.value.payloadLength == 0 && r.value.next != IPV6_NO_NEXT) {
        Ipv6PayloadAgrees(f, g, n, offset, r.value, Ipv6Layer(base, r.value), r.reach);
      }
    }
    NeedAgrees(f, g, n, offset + 40, hi);
  }

  /** Payload independence: frames of equal wire length that agree on the longest prefix requested
      of one of them give the same observation, and the same prefix is requested of both. */
  lemma OnlyRequestedBytesMatter(f: seq<byte>, g: seq<byte>, wireLength: nat, datalink: nat, c: Context)
    requires Agree(f, g, Reach(f, wireLength, datalink, c))
    ensures Decoded(g, wireLength, datalink, c) == Decoded(f, wireLength, datalink, c)
    ensures Reach(g, wireLength, datalink, c) == Reach(f, wireLength, datalink, c)
  {
    var base, link, n := Base(wireLength, c), Link(f, datalink, 0), Reach(f, wireLength, datalink, c);
    LinkReach(f, datalink, 0);
    LinkRequested(f, datalink);
    if link.Done? {
      Ipv4Reach(f, link.value.0, base, link.reach);
      Ipv6Reach(f, link.value.0, base, link.reach);
      if link.value.1 == ETHERTYPE_IPV4 {
        Ipv4Agrees(f, g, n, link.value.0, base, link.reach);
      } else if link.value.1 == ETHERTYPE_IPV6 {
        Ipv6Agrees(f, g, n, link.value.0, base, link.reach);
      }
    }
    LinkAgrees(f, g, n, datalink);
  }

  // ---------------------------------------------------------------- flags and outcomes

  /** Each flag is set exactly when its value is present. */
  predicate FlagsExact(o: Observation) {
    && (IP_VERSION in o.fields <==> o.ipVersion.Some?)
    && (SOURCE in o.fields <==> o.source.Some?)
    && (DESTINATION in o.fields <==> o.destination.Some?)
    && (PROTOCOL in o.fields <==> o.protocol.Some?)
    && (SOURCE_PORT in o.fields <==> o.sourcePort.Some?)
    && (DESTINATION_PORT in o.fields <==> o.destinationPort.Some?)
    && (TCP_FLAGS in o.fields <==> o.tcpFlags.Some?)
    && (ICMP in o.fields <==> o.icmpType.Some?) && (o.icmpType.Some? <==> o.icmpCode.Some?)
  }

  /** Complete means no reason and a known protocol, partial both endpoints and a reason,
      undecodable a reason and no fields at all. */
  predicate OutcomeExact(o: Observation) {
    && (o.outcome.Complete? ==> o.decodeReason.None? && {IP_VERSION, SOURCE, DESTINATION, PROTOCOL} <= o.fields)
    && (o.outcome.Partial? ==> o.decodeReason.Some? && {IP_VERSION, SOURCE, DESTINATION} <= o.fields)
    && (o.outcome.Undecodable? ==> o.decodeReason.Some? && o.fields == {})
  }

  /** The endpoints are of the observation's own IP version. */
  predicate EndpointsExact(o: Observation) {
    && (o.source.Some? ==> o.ipVersion == Some(o.source.value.version))
    && (o.destination.Some? ==> o.ipVersion == Some(o.destination.value.version))
  }

  predicate Exact(o: Observation) {
    FlagsExact(o) && OutcomeExact(o) && EndpointsExact(o) && !o.late
  }

  /** A step that succeeds gives a consistent observation with at least its IP layer. */
  predicate Sound(r: Parse<Observation>) {
    match r
    case Done(o, _) => Exact(o) && !o.outcome.Undecodable?
    case Failed(_, _) => true
  }

  /** An observation of the IP layer alone. */
  predicate LayerOnly(o: Observation) {
    && o.sourcePort.None? && o.destinationPort.None? && o.tcpFlags.None? && o.icmpType.None? && o.icmpCode.None?
    && o.source.Some? && o.destination.Some? && o.ipVersion.Some? && !o.late
    && o.source.value.version == o.ipVersion.value && o.destination.value.version == o.ipVersion.value
  }

  lemma TransportExact(f: seq<byte>, offset: nat, packetEnd: nat, p: Proto, o: Observation, hi: nat)
    requires LayerOnly(o) && o.outcome.Complete? && o.decodeReason.None? && o.protocol.Some?
    requires o.fields == {IP_VERSION, SOURCE, DESTINATION, PROTOCOL}
    ensures Sound(TransportOr(f, offset, packetEnd, p, o, hi))
  {
  }

  lemma PartialExact(o: Observation, reason: Reason, hi: nat)
    requires LayerOnly(o)
    requires o.fields == {IP_VERSION, SOURCE, DESTINATION} + (if o.protocol.Some? then {PROTOCOL} else {})
    ensures Sound(Done(PartialFor(o, reason), hi))
  {
  }

  lemma {:induction false} ExtensionsExact(f: seq<byte>, cursor: nat, next: nat, count: nat, packetEnd: nat,
      layer: Observation, hi: nat)
    requires count <= MAX_IPV6_EXTENSIONS
    requires LayerOnly(layer) && layer.protocol.None? && layer.fields == {IP_VERSION, SOURCE, DESTINATION}
    ensures var r := Extensions(f, cursor, next, count, packetEnd, layer, hi);
      r.Done? && r.value.Early? ==> Sound(Done(r.value.observation, r.reach))
    decreases MAX_IPV6_EXTENSIONS - count
  {
    PartialExact(layer, Ipv6ExtensionCountLimit, hi);
    PartialExact(layer, EncryptedEsp, hi);
    if IsExtension(next) && count < MAX_IPV6_EXTENSIONS && next != IPV6_ESP {
      var e := OneExtension(f, cursor, next, packetEnd, hi);
      if e.Done? {
        if e.value.Skip? {
          ExtensionsExact(f, cursor + e.value.length, e.value.following, count + 1, packetEnd, layer, e.reach);
        } else {
          PartialExact(WithProtocol(layer, Protocol6(e.value.following)), NonInitialFragment, e.reach);
        }
      }
    }
  }

  lemma Ipv4Exact(f: seq<byte>, offset: nat, wireLength: nat, c: Context, hi: nat)
    ensures Sound(Ipv4(f, offset, Base(wireLength, c), hi))
  {
    var r := Ipv4Header(f, offset, hi);
    if r.Done? {
      Layer4Exact(f, offset, r.value, wireLength, c, r.reach);
    }
  }

  lemma Layer4Exact(f: seq<byte>, offset: nat, h: Header4, wireLength: nat, c: Context, hi: nat)
    ensures var o := Ipv4Layer(Base(wireLength, c), h);
      && Sound(Done(PartialFor(o, NonInitialFragment), hi))
      && Sound(TransportOr(f, offset + h.ihl, offset + h.totalLength, Protocol4(h.number), o, hi))
  {
    var o := Ipv4Layer(Base(wireLength, c), h);
    PartialExact(o, NonInitialFragment, hi);
    TransportExact(f, offset + h.ihl, offset + h.totalLength, Protocol4(h.number), o, hi);
  }

  lemma Ipv6Exact(f: seq<byte>, offset: nat, wireLength: nat, c: Context, hi: nat)
    ensures Sound(Ipv6(f, offset, Base(wireLength, c), hi))
  {
    var r := Ipv6Header(f, offset, hi);
    if r.Done? {
      PartialExact(Ipv6Layer(Base(wireLength, c), r.value), Ipv6JumbogramUnsupported, r.reach);
      Ipv6PayloadExact(f, offset, r.value, wireLength, c, r.reach);
    }
  }

  lemma Ipv6PayloadExact(f: seq<byte>, offset: nat, h: Header6, wireLength: nat, c: Context, hi: nat)
    ensures Sound(Ipv6Payload(f, offset, h, Ipv6Layer(Base(wireLength, c), h), hi))
  {
    var layer := Ipv6Layer(Base(wireLength, c), h);
    assert LayerOnly(layer) && layer.protocol.None? && layer.fields == {IP_VERSION, SOURCE, DESTINATION};
    PayloadExact(f, offset, h, layer, hi);
  }

  lemma PayloadExact(f: seq<byte>, offset: nat, h: Header6, layer: Observation, hi: nat)
    requires LayerOnly(layer) && layer.protocol.None? && layer.fields == {IP_VERSION, SOURCE, DESTINATION}
    ensures Sound(Ipv6Payload(f, offset, h, layer, hi))
  {
    var packetEnd := offset + 40 + h.payloadLength;
    ExtensionsExact(f, offset + 40, h.next, 0, packetEnd, layer, hi);
    ChainExact(f, packetEnd, layer, Extensions(f, offset + 40, h.next, 0, packetEnd, layer, hi));
  }

  lemma ChainExact(f: seq<byte>, packetEnd: nat, layer: Observation, chain: Parse<Chain>)
    requires LayerOnly(layer) && layer.protocol.None? && layer.fields == {IP_VERSION, SOURCE, DESTINATION}
    requires chain.Done? && chain.value.Early? ==> Sound(Done(chain.value.observation, chain.reach))
    ensures Sound(AfterChain(f, packetEnd, layer, chain))
  {
    if chain.Failed? {
      PartialExact(layer, chain.reason, chain.reach);
    } else if chain.value.Upper? {
      UpperExact(f, chain.value.cursor, chain.value.next, packetEnd, layer, chain.reach);
    }
  }

  lemma UpperExact(f: seq<byte>, cursor: nat, next: nat, packetEnd: nat, layer: Observation, hi: nat)
    requires LayerOnly(layer) && layer.fields == {IP_VERSION, SOURCE, DESTINATION}
    ensures Sound(Ipv6Upper(f, cursor, next, packetEnd, layer, hi))
  {
    TransportExact(f, cursor, packetEnd, Protocol6(next),
      WithProtocol(layer, Protocol6(next)).(outcome := Outcome.Complete, decodeReason := None), hi);
  }

  /** Every frame whatsoever decodes to an observation whose flags, outcome and endpoints are consistent. */
  lemma DecodedExact(f: seq<byte>, wireLength: nat, datalink: nat, c: Context)
    ensures Exact(Decoded(f, wireLength, datalink, c))
  {
    var link := Link(f, datalink, 0);
    if link.Done? {
      Ipv4Exact(f, link.value.0, wireLength, c, link.reach);
      Ipv6Exact(f, link.value.0, wireLength, c, link.reach);
    }
  }

  // ---------------------------------------------------------------- where a packet was captured

  /** When, where and how large: what the decoder takes over from its context. */
  predicate SameCapture(a: Observation, b: Observation) {
    && b.capturedAt == a.capturedAt && b.monotonicAt == a.monotonicAt && b.sensorId == a.sensorId
    && b.sourceGeneration == a.sourceGeneration && b.capturePoint == a.capturePoint && b.interface == a.interface
    && b.direction == a.direction && b.wireLength == a.wireLength && b.late == a.late
  }

  predicate Keeps(base: Observation, r: Parse<Observation>) { r.Done? ==> SameCapture(base, r.value) }

  lemma TransportKeeps(f: seq<byte>, offset: nat, packetEnd: nat, p: Proto, o: Observation, hi: nat)
    ensures Keeps(o, TransportOr(f, offset, packetEnd, p, o, hi))
  {
  }

  lemma {:induction false} ExtensionsKeep(f: seq<byte>, cursor: nat, next: nat, count: nat, packetEnd: nat,
      layer: Observation, hi: nat)
    requires count <= MAX_IPV6_EXTENSIONS
    ensures var r := Extensions(f, cursor, next, count, packetEnd, layer, hi);
      r.Done? && r.value.Early? ==> SameCapture(layer, r.value.observation)
    decreases MAX_IPV6_EXTENSIONS - count
  {
    if IsExtension(next) && count < MAX_IPV6_EXTENSIONS && next != IPV6_ESP {
      var e := OneExtension(f, cursor, next, packetEnd, hi);
      if e.Done? && e.value.Skip? {
        ExtensionsKeep(f, cursor + e.value.length, e.value.following, count + 1, packetEnd, layer, e.reach);
      }
    }
  }

  lemma Ipv4Keeps(f: seq<byte>, offset: nat, base: Observation, hi: nat)
    ensures Keeps(base, Ipv4(f, offset, base, hi))
  {
    var r := Ipv4Header(f, offset, hi);
    if r.Done? {
      var h := r.value;
      TransportKeeps(f, offset + h.ihl, offset + h.totalLength, Protocol4(h.number), Ipv4Layer(base, h), r.reach);
    }
  }

  lemma Ipv6Keeps(f: seq<byte>, offset: nat, base: Observation, hi: nat)
    ensures Keeps(base, Ipv6(f, offset, base, hi))
  {
    var r := Ipv6Header(f, offset, hi);
    if r.Done? {
      PayloadKeeps(f, offset, r.value, Ipv6Layer(base, r.value), r.reach);
    }
  }

  lemma PayloadKeeps(f: seq<byte>, offset: nat, h: Header6, layer: Observation, hi: nat)
    ensures Keeps(layer, Ipv6Payload(f, offset, h, layer, hi))
  {
    var packetEnd := offset + 40 + h.payloadLength;
    ExtensionsKeep(f, offset + 40, h.next, 0, packetEnd, layer, hi);
    ChainKeeps(f, packetEnd, layer, Extensions(f, offset + 40, h.next, 0, packetEnd, layer, hi));
  }

  lemma ChainKeeps(f: seq<byte>, packetEnd: nat, layer: Observation, chain: Parse<Chain>)
    requires chain.Done? && chain.value.Early? ==> SameCapture(layer, chain.value.observation)
    ensures Keeps(layer, AfterChain(f, packetEnd, layer, chain))
  {
    if chain.Done? && chain.value.Upper? {
      var next := chain.value.next;
      TransportKeeps(f, chain.value.cursor, packetEnd, Protocol6(next),
        WithProtocol(layer, Protocol6(next)).(outcome := Outcome.Complete, decodeReason := None), chain.reach);
    }
  }

  /** Whatever the frame, the observation carries the time, place and length it was captured with. */
  lemma DecodedKeepsCapture(f: seq<byte>, wireLength: nat, datalink: nat, c: Context)
    ensures SameCapture(Base(wireLength, c), Decoded(f, wireLength, datalink, c))
  {
    var base, link := Base(wireLength, c), Link(f, datalink, 0);
    if link.Done? {
      Ipv4Keeps(f, link.value.0, base, link.reach);
      Ipv6Keeps(f, link.value.0, base, link.reach);
    }
  }
}
