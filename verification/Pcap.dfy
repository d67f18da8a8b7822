/** The classic PCAP reader (pcap.py) over a seekable byte stream, with its lazy record reader, and
    the header decoder as it runs on that reader (decode.py). */
module Pcap {
  import opened Basics
  import opened Models
  import opened Bytes
  import opened Decode

  datatype PcapError =
    | TruncatedGlobalHeader | PcapngUnsupported | UnknownMagic | UnsupportedVersion | InvalidSnaplen
    | BadDatalink | TruncatedRecordHeader | LengthExceedsSnaplen | WireShorterThanCapture
    | RecordBeyondEndOfFile | TruncatedPacketRecord

  const MAX_SNAPLEN: nat := 0x100_0000

  // ---------------------------------------------------------------- streams and readers

  class ByteStream {
    const data: seq<byte>
    var pos: nat

    constructor (data: seq<byte>)
      ensures this.data == data && pos == 0
    {
      this.data := data;
      pos := 0;
    }

    method Read(n: nat) returns (r: seq<byte>)
      modifies this
      ensures var from := Min(old(pos), |data|);
        r == data[from..Min(from + n, |data|)] && pos == old(pos) + |r|
    {
      var from := Min(pos, |data|);
      r := data[from..Min(from + n, |data|)];
      pos := pos + |r|;
    }
  }

  lemma Adjacent(data: seq<byte>, start: nat, n: nat, m: nat)
    requires n <= m && start + m <= |data|
    ensures data[start..start + n] + data[start + n..start + m] == data[start..start + m]
  {
  }

  /** A prefix of what has been read is a prefix of the record, if that lies inside the file. */
  lemma Shorter(data: seq<byte>, start: nat, n: nat, captured: nat, target: nat)
    requires target <= n && target <= captured && start + n <= |data|
    ensures data[start..start + n][..target] == data[start..start + target]
    ensures start + captured <= |data| ==> data[start..start + captured][..target] == data[start..start + target]
  {
  }

  /** One record's bytes, read from the stream only as far as they are requested. */
  class RecordReader {
    const stream: ByteStream
    const captured: nat
    const wireLength: nat
    var cache: seq<byte>
    ghost const start: nat
    ghost var reach: nat   // the longest prefix requested so far

    ghost predicate Valid()
      reads this, stream
    {
      && stream.pos == start + |cache|
      && start + |cache| <= |stream.data| && cache == stream.data[start..start + |cache|]
      && reach <= MAX_HEADER_BYTES && |cache| == Min(reach, captured)
    }

    /** The record lies inside the file. */
    ghost predicate Whole()
      reads this
    {
      start + captured <= |stream.data|
    }

    ghost function Frame(): seq<byte>
      requires Whole()
      reads this
    {
      stream.data[start..start + captured]
    }

    constructor (stream: ByteStream, captured: nat, wireLength: nat)
      requires stream.pos <= |stream.data|
      ensures Valid() && reach == 0 && start == stream.pos
      ensures this.stream == stream && this.captured == captured && this.wireLength == wireLength
    {
      this.stream, this.captured, this.wireLength := stream, captured, wireLength;
      cache := [];
      start := stream.pos;
      reach := 0;
    }

    /** At most `length` bytes from the record's start.  It fails only on a record that runs past the
        end of the file. */
    method Prefix(length: nat) returns (r: Result<seq<byte>, PcapError>)
      requires Valid()
      modifies this, stream
      ensures r.Ok? ==> Valid() && reach == Max(old(reach), Min(length, MAX_HEADER_BYTES))
      ensures Whole() ==> r.Ok? && r.value == Frame()[..Min(length, Min(captured, MAX_HEADER_BYTES))]
      ensures r.Err? ==> r.error == TruncatedPacketRecord && !Whole()
    {
      var target := Min(length, Min(captured, MAX_HEADER_BYTES));
      if target > |cache| {
        var missing := target - |cache|;
        var more := stream.Read(missing);
        if |more| != missing {
          return Err(TruncatedPacketRecord);
        }
        Adjacent(stream.data, start, |cache|, target);
        cache := cache + more;
      }
      Shorter(stream.data, start, |cache|, captured, target);
      reach := Max(reach, Min(length, MAX_HEADER_BYTES));
      return Ok(cache[..target]);
    }

    /** Skip what was not read: the stream is left exactly behind the record. */
    method Finish()
      requires Valid() && Whole()
      modifies stream
      ensures stream.pos == start + captured
    {
      if |cache| != captured {
        stream.pos := stream.pos + (captured - |cache|);
      }
    }
  }

  // ---------------------------------------------------------------- the decoder on a reader

  /** The outcome of a step on a reader that has now requested `reach` bytes. */
  function Reply<T>(r: Result<T, Reason>, reach: nat): Parse<T> {
    match r case Ok(value) => Done(value, reach) case Err(reason) => Failed(reason, reach)
  }

  method NeedBytes(reader: RecordReader, length: nat) returns (r: Result<seq<byte>, Reason>)
    requires reader.Valid() && reader.Whole()
    modifies reader, reader.stream
    ensures reader.Valid()
    ensures Reply(r, reader.reach) == Need(reader.Frame(), length, old(reader.reach))
  {
    if length > MAX_HEADER_BYTES {
      return Err(HeaderByteLimit);
    }
    var data := reader.Prefix(length);
    if |data.value| < length {
      return Err(TruncatedHeader);
    }
    return Ok(data.value);
  }

  method NeedBytesWithin(reader: RecordReader, length: nat, packetEnd: nat) returns (r: Result<seq<byte>, Reason>)
    requires reader.Valid() && reader.Whole()
    modifies reader, reader.stream
    ensures reader.Valid()
    ensures Reply(r, reader.reach) == NeedWithin(reader.Frame(), length, packetEnd, old(reader.reach))
  {
    if length > packetEnd {
      return Err(HeaderExceedsIpLength);
    }
    r := NeedBytes(reader, length);
  }

  method DecodeLink(reader: RecordReader, datalink: nat) returns (r: Result<(nat, nat), Reason>)
    requires reader.Valid() && reader.Whole()
    modifies reader, reader.stream
    ensures reader.Valid()
    ensures Reply(r, reader.reach) == Link(reader.Frame(), datalink, old(reader.reach))
  {
    var data;
    if datalink == DLT_RAW {
      data := NeedBytes(reader, 1);
      if data.Err? { return Err(data.error); }
      return Ok((0, if data.value[0] / 16 == 4 then ETHERTYPE_IPV4 else ETHERTYPE_IPV6));
    }
    if datalink == DLT_LINUX_SLL {
      data := NeedBytes(reader, 16);
      if data.Err? { return Err(data.error); }
      return Ok((16, Be16(data.value, 14)));
    }
    if datalink == DLT_LINUX_SLL2 {
      data := NeedBytes(reader, 20);
      if data.Err? { return Err(data.error); }
      return Ok((20, Be16(data.value, 0)));
    }
    if datalink != DLT_EN10MB {
      return Err(UnsupportedDatalink);
    }
    data := NeedBytes(reader, 14);
    if data.Err? { return Err(data.error); }
    r := SkipVlans(reader, Be16(data.value, 12));
  }

  method SkipVlans(reader: RecordReader, first: nat) returns (r: Result<(nat, nat), Reason>)
    requires reader.Valid() && reader.Whole()
    modifies reader, reader.stream
    ensures reader.Valid()
    ensures Reply(r, reader.reach) == Vlans(reader.Frame(), 14, first, 0, old(reader.reach))
  {
    var offset, ethertype, depth := 14, first, 0;
    while IsVlan(ethertype)
      invariant reader.Valid() && depth <= 2
      invariant Vlans(reader.Frame(), offset, ethertype, depth, reader.reach)
        == Vlans(reader.Frame(), 14, first, 0, old(reader.reach))
      decreases 2 - depth
    {
      if depth + 1 > 2 {
        return Err(VlanDepthLimit);
      }
      depth := depth + 1;
      var data := NeedBytes(reader, offset + 4);
      if data.Err? { return Err(data.error); }
      ethertype := Be16(data.value, offset + 2);
      offset := offset + 4;
    }
    return Ok((offset, ethertype));
  }

  method DecodeTransport(reader: RecordReader, offset: nat, packetEnd: nat, protocol: Proto, o: Observation)
      returns (r: Result<Observation, Reason>)
    requires reader.Valid() && reader.Whole()
    modifies reader, reader.stream
    ensures reader.Valid()
    ensures Reply(r, reader.reach) == Transport(reader.Frame(), offset, packetEnd, protocol, o, old(reader.reach))
  {
    match protocol
    case Tcp =>
      var data := NeedBytesWithin(reader, offset + 20, packetEnd);
      if data.Err? { return Err(data.error); }
      var headerLength := data.value[offset + 12] / 16 * 4;
      if !(20 <= headerLength <= 60) { return Err(InvalidTcpDataOffset); }
      data := NeedBytesWithin(reader, offset + headerLength, packetEnd);
      if data.Err? { return Err(data.error); }
      return Ok(o.(sourcePort := Some(Be16(data.value, offset)), destinationPort := Some(Be16(data.value, offset + 2)),
                   tcpFlags := Some(data.value[offset + 13]),
                   fields := o.fields + {SOURCE_PORT, DESTINATION_PORT, TCP_FLAGS}));
    case Udp =>
      var data := NeedBytesWithin(reader, offset + 8, packetEnd);
      if data.Err? { return Err(data.error); }
      return Ok(o.(sourcePort := Some(Be16(data.value, offset)), destinationPort := Some(Be16(data.value, offset + 2)),
                   fields := o.fields + {SOURCE_PORT, DESTINATION_PORT}));
    case Icmp =>
      var data := NeedBytesWithin(reader, offset + 2, packetEnd);
      if data.Err? { return Err(data.error); }
      return Ok(o.(icmpType := Some(data.value[offset]), icmpCode := Some(data.value[offset + 1]),
        fields := o.fields + {ICMP}));
    case Ip(_) => return Ok(o);
  }

  /** The transport, or the IP layer alone with the reason it stops there. */
  method TryTransport(reader: RecordReader, offset: nat, packetEnd: nat, protocol: Proto, o: Observation)
      returns (r: Observation)
    requires reader.Valid() && reader.Whole()
    modifies reader, reader.stream
    ensures reader.Valid()
    ensures Done(r, reader.reach) == TransportOr(reader.Frame(), offset, packetEnd, protocol, o, old(reader.reach))
  {
    var t := DecodeTransport(reader, offset, packetEnd, protocol, o);
    r := if t.Ok? then t.value else PartialFor(o, t.error);
  }

  method DecodeIpv4Header(reader: RecordReader, offset: nat) returns (r: Result<Header4, Reason>)
    requires reader.Valid() && reader.Whole()
    modifies reader, reader.stream
    ensures reader.Valid()
    ensures Reply(r, reader.reach) == Ipv4Header(reader.Frame(), offset, old(reader.reach))
  {
    var data := NeedBytes(reader, offset + 20);
    if data.Err? { return Err(data.error); }
    var versionIhl := data.value[offset];
    if versionIhl / 16 != 4 { return Err(InvalidIpv4Version); }
    var ihl := versionIhl % 16 * 4;
    if ihl < 20 { return Err(InvalidIpv4Ihl); }
    data := NeedBytes(reader, offset + ihl);
    if data.Err? { return Err(data.error); }
    var h := Fields4(data.value, offset, ihl);
    if h.totalLength < ihl { return Err(InvalidIpv4TotalLength); }
    return Ok(h);
  }

  method DecodeIpv4(reader: RecordReader, offset: nat, base: Observation) returns (r: Result<Observation, Reason>)
    requires reader.Valid() && reader.Whole()
    modifies reader, reader.stream
    ensures reader.Valid()
    ensures Reply(r, reader.reach) == Ipv4(reader.Frame(), offset, base, old(reader.reach))
  {
    ghost var f := reader.Frame();
    var header := DecodeIpv4Header(reader, offset);
    ghost var parsed := Reply(header, reader.reach);
    assert Ipv4(f, offset, base, old(reader.reach)) == Ipv4Rest(f, offset, base, parsed);
    if header.Err? { return Err(header.error); }
    r := DecodeIpv4Payload(reader, offset, base, header.value);
  }

  method DecodeIpv4Payload(reader: RecordReader, offset: nat, base: Observation, h: Header4)
      returns (r: Result<Observation, Reason>)
    requires reader.Valid() && reader.Whole()
    modifies reader, reader.stream
    ensures reader.Valid()
    ensures Reply(r, reader.reach) == Ipv4Rest(reader.Frame(), offset, base, Done(h, old(reader.reach)))
  {
    var layer := Ipv4Layer(base, h);
    if h.fragment % 0x2000 != 0 {
      return Ok(PartialFor(layer, NonInitialFragment));
    }
    var o := TryTransport(reader, offset + h.ihl, offset + h.totalLength, Protocol4(h.number), layer);
    return Ok(o);
  }

  method DecodeExtension(reader: RecordReader, cursor: nat, next: nat, packetEnd: nat)
      returns (r: Result<Extension, Reason>)
    requires reader.Valid() && reader.Whole()
    modifies reader, reader.stream
    ensures reader.Valid()
    ensures Reply(r, reader.reach) == OneExtension(reader.Frame(), cursor, next, packetEnd, old(reader.reach))
  {
    var data := NeedBytesWithin(reader, cursor + 2, packetEnd);
    if data.Err? { return Err(data.error); }
    var following, length := data.value[cursor], ExtensionLength(next, data.value[cursor + 1]);
    if next == IPV6_FRAGMENT {
      data := NeedBytesWithin(reader, cursor + 8, packetEnd);
      if data.Err? { return Err(data.error); }
      var fragment := Be16(data.value, cursor + 2);
      if fragment / 8 != 0 { return Ok(LaterFragment(following)); }
    }
    var rest := NeedBytesWithin(reader, cursor + length, packetEnd);
    if rest.Err? { return Err(rest.error); }
    return Ok(Skip(length, following));
  }

  method DecodeExtensions(reader: RecordReader, start: nat, first: nat, packetEnd: nat, layer: Observation)
      returns (r: Result<Chain, Reason>)
    requires reader.Valid() && reader.Whole()
    modifies reader, reader.stream
    ensures reader.Valid()
    ensures Reply(r, reader.reach) == Extensions(reader.Frame(), start, first, 0, packetEnd, layer, old(reader.reach))
  {
    var cursor: nat, next: nat, count: nat := start, first, 0;
    ghost var f := reader.Frame();
    while IsExtension(next)
      invariant reader.Valid() && count <= MAX_IPV6_EXTENSIONS
      invariant Extensions(f, cursor, next, count, packetEnd, layer, reader.reach)
             == Extensions(f, start, first, 0, packetEnd, layer, old(reader.reach))
      decreases MAX_IPV6_EXTENSIONS - count
    {
      if count + 1 > MAX_IPV6_EXTENSIONS { return Ok(Early(PartialFor(layer, Ipv6ExtensionCountLimit))); }
      if next == IPV6_ESP { return Ok(Early(PartialFor(layer, EncryptedEsp))); }
      var e := DecodeExtension(reader, cursor, next, packetEnd);
      if e.Err? { return Err(e.error); }
      if e.value.LaterFragment? {
        return Ok(Early(PartialFor(WithProtocol(layer, Protocol6(e.value.following)), NonInitialFragment)));
      }
      cursor, next, count := cursor + e.value.length, e.value.following, count + 1;
    }
    return Ok(Upper(cursor, next));
  }

  method DecodeIpv6(reader: RecordReader, offset: nat, base: Observation) returns (r: Result<Observation, Reason>)
    requires reader.Valid() && reader.Whole()
    modifies reader, reader.stream
    ensures reader.Valid()
    ensures Reply(r, reader.reach) == Ipv6(reader.Frame(), offset, base, old(reader.reach))
  {
    var data := NeedBytes(reader, offset + 40);
    if data.Err? { return Err(data.error); }
    if data.value[offset] / 16 != 6 { return Err(InvalidIpv6Version); }
    var h := Header6(Be16(data.value, offset + 4), data.value[offset + 6],
                     BigEndian(Slice(data.value, offset + 8, 16)), BigEndian(Slice(data.value, offset + 24, 16)));
    if h.payloadLength == 0 && h.next != IPV6_NO_NEXT {
      return Ok(PartialFor(Ipv6Layer(base, h), Ipv6JumbogramUnsupported));
    }
    var o := DecodeIpv6Payload(reader, offset, h, Ipv6Layer(base, h));
    return Ok(o);
  }

  method DecodeIpv6Payload(reader: RecordReader, offset: nat, h: Header6, layer: Observation) returns (o: Observation)
    requires reader.Valid() && reader.Whole()
    modifies reader, reader.stream
    ensures reader.Valid()
    ensures Done(o, reader.reach) == Ipv6Payload(reader.Frame(), offset, h, layer, old(reader.reach))
  {
    var packetEnd := offset + 40 + h.payloadLength;
    var chain := DecodeExtensions(reader, offset + 40, h.next, packetEnd, layer);
    if chain.Err? { return PartialFor(layer, chain.error); }
    if chain.value.Early? { return chain.value.observation; }
    var next := chain.value.next;
    var complete := WithProtocol(layer, Protocol6(next)).(outcome := Outcome.Complete, decodeReason := None);
    if next == IPV6_NO_NEXT { return complete; }
    o := TryTransport(reader, chain.value.cursor, packetEnd, Protocol6(next), complete);
  }

  method DecodeObservation(reader: RecordReader, datalink: nat, c: Context) returns (o: Observation)
    requires reader.Valid() && reader.Whole() && reader.reach == 0
    modifies reader, reader.stream
    ensures reader.Valid()
    ensures o == Decoded(reader.Frame(), reader.wireLength, datalink, c)
    ensures reader.reach == Reach(reader.Frame(), reader.wireLength, datalink, c)
  {
    var base := Base(reader.wireLength, c);
    var link := DecodeLink(reader, datalink);
    if link.Err? { return base.(decodeReason := Some(link.error)); }
    var (offset, ethertype) := link.value;
    var r: Result<Observation, Reason> := Err(UnsupportedEthertype(ethertype));
    if ethertype == ETHERTYPE_IPV4 {
      r := DecodeIpv4(reader, offset, base);
    } else if ethertype == ETHERTYPE_IPV6 {
      r := DecodeIpv6(reader, offset, base);
    }
    o := if r.Ok? then r.value else base.(decodeReason := Some(r.error));
  }

  // ---------------------------------------------------------------- the file as a value

  datatype Format = Format(endian: Endian, nanoseconds: bool)

  function Magic(f: Format): seq<byte> {
    match f
    case Format(Little, false) => [0xD4, 0xC3, 0xB2, 0xA1]
    case Format(Big, false) => [0xA1, 0xB2, 0xC3, 0xD4]
    case Format(Little, true) => [0x4D, 0x3C, 0xB2, 0xA1]
    case Format(Big, true) => [0xA1, 0xB2, 0x3C, 0x4D]
  }

  function FormatOf(magic: seq<byte>): Option<Format> {
    if magic == Magic(Format(Little, false)) then Some(Format(Little, false))
    else if magic == Magic(Format(Big, false)) then Some(Format(Big, false))
    else if magic == Magic(Format(Little, true)) then Some(Format(Little, true))
    else if magic == Magic(Format(Big, true)) then Some(Format(Big, true))
    else None
  }

  predicate SupportedDatalink(d: nat) {
    d == 1 || d == 101 || d == 113 || d == 276
  }

  datatype Global = Global(format: Format, snaplen: nat, datalink: nat)

  function ParseGlobal(header: seq<byte>): Result<Global, PcapError> {
    if |header| != 24 then Err(TruncatedGlobalHeader)
    else if header[..4] == [0x0A, 0x0D, 0x0D, 0x0A] then Err(PcapngUnsupported)
    else match FormatOf(header[..4])
      case None => Err(UnknownMagic)
      case Some(f) =>
        var snaplen, datalink := Get32(f.endian, header, 16), Get32(f.endian, header, 20);
        if Get16(f.endian, header, 4) != 2 || Get16(f.endian, header, 6) != 4 then Err(UnsupportedVersion)
        else if snaplen == 0 || snaplen > MAX_SNAPLEN then Err(InvalidSnaplen)
        else if !SupportedDatalink(datalink) then Err(BadDatalink)
        else Ok(Global(f, snaplen, datalink))
  }

  datatype Record = Record(seconds: nat, fraction: nat, captured: nat, wire: nat)

  /** The 16-byte header of a record whose data would start at `offset` in a file of `size` bytes. */
  function ParseRecord(g: Global, header: seq<byte>, offset: nat, size: nat): Result<Record, PcapError> {
    if |header| != 16 then Err(TruncatedRecordHeader)
    else
      var e := g.format.endian;
      var r := Record(Get32(e, header, 0), Get32(e, header, 4), Get32(e, header, 8), Get32(e, header, 12));
      if r.captured > g.snaplen then Err(LengthExceedsSnaplen)
      else if r.wire < r.captured then Err(WireShorterThanCapture)
      else if offset + r.captured > size then Err(RecordBeyondEndOfFile)
      else Ok(r)
  }

  /** Capture time in microseconds. */
  function TimeOf(f: Format, seconds: nat, fraction: nat): int {
    seconds * 1_000_000 + (if f.nanoseconds then fraction / 1000 else fraction)
  }

  function ContextAt(c: Context, t: int): Context {
    c.(capturedAt := t)
  }

  datatype Reading = Reading(observations: seq<Observation>, error: Option<PcapError>)

  /** The observation of one record with the bytes `frame`. */
  function RecordOf(g: Global, r: Record, frame: seq<byte>, c: Context): Observation {
    Decoded(frame, r.wire, g.datalink, ContextAt(c, TimeOf(g.format, r.seconds, r.fraction)))
  }

  function HeaderAt(data: seq<byte>, pos: nat): seq<byte>
    requires pos <= |data|
  {
    data[pos..Min(pos + 16, |data|)]
  }

  function RecordAt(g: Global, data: seq<byte>, pos: nat): Result<Record, PcapError>
    requires pos <= |data|
  {
    ParseRecord(g, HeaderAt(data, pos), pos + |HeaderAt(data, pos)|, |data|)
  }

  /** The records from `pos` to the end of the file, each decoded from its own bytes alone. */
  function ReadRecords(data: seq<byte>, pos: nat, g: Global, c: Context): Reading
    requires pos <= |data|
    decreases |data| - pos
  {
    if pos == |data| then Reading([], None) else
      match RecordAt(g, data, pos)
      case Err(error) => Reading([], Some(error))
      case Ok(r) =>
        var end := pos + 16 + r.captured;
        Prepend([RecordOf(g, r, data[pos + 16..end], c)], ReadRecords(data, end, g, c))
  }

  /** A record that parses lies within the file. */
  lemma RecordFits(data: seq<byte>, pos: nat, g: Global, r: Record)
    requires pos < |data| && RecordAt(g, data, pos) == Ok(r)
    ensures pos + 16 + r.captured <= |data|
  {
  }

  lemma ReadStep(data: seq<byte>, pos: nat, g: Global, c: Context, r: Record, frame: seq<byte>, end: nat)
    requires pos < |data| && RecordAt(g, data, pos) == Ok(r)
    requires end == pos + 16 + r.captured <= |data| && frame == data[pos + 16..end]
    ensures ReadRecords(data, pos, g, c) == Prepend([RecordOf(g, r, frame, c)], ReadRecords(data, end, g, c))
  {
  }

  lemma ReadStops(data: seq<byte>, pos: nat, g: Global, c: Context)
    requires pos <= |data| && (pos == |data| || RecordAt(g, data, pos).Err?)
    ensures ReadRecords(data, pos, g, c)
      == Reading([], if pos == |data| then None else Some(RecordAt(g, data, pos).error))
  {
  }

  function ReadFile(data: seq<byte>, c: Context): Reading {
    match ParseGlobal(data[..Min(24, |data|)])
    case Err(error) => Reading([], Some(error))
    case Ok(g) => ReadRecords(data, 24, g, c)
  }

  // ---------------------------------------------------------------- the reader

  /** The observations yielded before the end or the first error; a packet record is never found
      truncated while it is decoded. */
  method IterPcapStream(stream: ByteStream, c: Context)
      returns (observations: seq<Observation>, error: Option<PcapError>)
    requires stream.pos == 0
    modifies stream
    ensures Reading(observations, error) == ReadFile(stream.data, c)
    ensures error != Some(TruncatedPacketRecord)
  {
    observations := [];
    var header := stream.Read(24);
    assert header == stream.data[..Min(24, |stream.data|)];
    var parsed := ParseGlobal(header);
    if parsed.Err? {
      return [], Some(parsed.error);
    }
    observations, error := IterRecords(stream, parsed.value, c);
  }

  function Prepend(os: seq<Observation>, r: Reading): Reading {
    Reading(os + r.observations, r.error)
  }

  lemma PrependOne(os: seq<Observation>, o: Observation, r: Reading)
    ensures Prepend(os, Prepend([o], r)) == Prepend(os + [o], r)
  {
    assert os + ([o] + r.observations) == os + [o] + r.observations;
  }

  lemma PrependEnd(os: seq<Observation>, error: Option<PcapError>)
    ensures Prepend(os, Reading([], error)) == Reading(os, error)
  {
    NothingAfter(os);
  }

  method IterRecords(stream: ByteStream, g: Global, c: Context)
      returns (observations: seq<Observation>, error: Option<PcapError>)
    requires stream.pos <= |stream.data|
    modifies stream
    ensures Reading(observations, error) == ReadRecords(stream.data, old(stream.pos), g, c)
    ensures error != Some(TruncatedPacketRecord)
  {
    observations := [];
    PrependNothing(ReadRecords(stream.data, stream.pos, g, c));
    while true
      invariant stream.pos <= |stream.data|
      invariant Prepend(observations, ReadRecords(stream.data, stream.pos, g, c))
        == ReadRecords(stream.data, old(stream.pos), g, c)
      decreases |stream.data| - stream.pos
    {
      var o;
      o, error := NextRecord(stream, g, c);
      if o.None? {
        PrependEnd(observations, error);
        return observations, error;
      }
      PrependOne(observations, o.value, ReadRecords(stream.data, stream.pos, g, c));
      observations := observations + [o.value];
    }
  }

  lemma PrependNothing(r: Reading)
    ensures Prepend([], r) == r
  {
  }

  /** Read and decode the record at the stream's position, or report the end or an error. */
  method NextRecord(stream: ByteStream, g: Global, c: Context)
      returns (o: Option<Observation>, error: Option<PcapError>)
    requires stream.pos <= |stream.data|
    modifies stream
    ensures o.Some? ==> old(stream.pos) < stream.pos <= |stream.data|
    ensures ReadRecords(stream.data, old(stream.pos), g, c) ==
      if o.Some? then Prepend([o.value], ReadRecords(stream.data, stream.pos, g, c)) else Reading([], error)
    ensures error != Some(TruncatedPacketRecord)
  {
    ghost var pos := stream.pos;
    var recordHeader := stream.Read(16);
    assert recordHeader == HeaderAt(stream.data, pos);
    if recordHeader == [] {
      ReadStops(stream.data, pos, g, c);
      return None, None;
    }
    var record := ParseRecord(g, recordHeader, stream.pos, |stream.data|);
    assert record == RecordAt(g, stream.data, pos);
    if record.Err? {
      ReadStops(stream.data, pos, g, c);
      return None, Some(record.error);
    }
    RecordFits(stream.data, pos, g, record.value);
    ghost var frame := stream.data[pos + 16..pos + 16 + record.value.captured];
    var decoded := DecodeRecord(stream, g, record.value, c, frame);
    ReadStep(stream.data, pos, g, c, record.value, frame, stream.pos);
    return Some(decoded), None;
  }

  /** Decode one record and land exactly on the next record header. */
  method DecodeRecord(stream: ByteStream, g: Global, r: Record, c: Context, ghost frame: seq<byte>)
      returns (o: Observation)
    requires stream.pos + r.captured <= |stream.data|
    requires frame == stream.data[stream.pos..stream.pos + r.captured]
    modifies stream
    ensures stream.pos == old(stream.pos) + r.captured
    ensures o == RecordOf(g, r, frame, c)
  {
    var reader := new RecordReader(stream, r.captured, r.wire);
    assert reader.Frame() == frame;
    o := DecodeObservation(reader, g.datalink, ContextAt(c, TimeOf(g.format, r.seconds, r.fraction)));
    reader.Finish();
  }
}
