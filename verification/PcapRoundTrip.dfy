/** The PCAP writer of the test suite, and the proof that the reader inverts it. */
module PcapRoundTrip {
  import opened Basics
  import opened Models
  import opened Bytes
  import opened Decode
  import opened Pcap

  datatype Packet = Packet(seconds: nat, fraction: nat, frame: seq<byte>, wire: nat)

  /** Fields fit 32 bits, the capture is no longer than the wire length or the snap length. */
  predicate PacketValid(p: Packet) {
    && p.seconds < 0x1_0000_0000 && p.fraction < 0x1_0000_0000
    && |p.frame| <= p.wire < 0x1_0000_0000 && |p.frame| <= 65535
  }

  predicate PacketsValid(ps: seq<Packet>) {
    forall i :: 0 <= i < |ps| ==> PacketValid(ps[i])
  }

  function RecordHeader(e: Endian, p: Packet): (s: seq<byte>)
    requires PacketValid(p)
    ensures |s| == 16
  {
    Put32(e, p.seconds) + Put32(e, p.fraction) + Put32(e, |p.frame|) + Put32(e, p.wire)
  }

  function WriteRecords(e: Endian, ps: seq<Packet>): seq<byte>
    requires PacketsValid(ps)
  {
    if ps == [] then [] else RecordHeader(e, ps[0]) + ps[0].frame + WriteRecords(e, ps[1..])
  }

  function GlobalHeader(f: Format, datalink: nat): (s: seq<byte>)
    requires datalink < 0x1_0000_0000
    ensures |s| == 24
  {
    Magic(f) + Put16(f.endian, 2) + Put16(f.endian, 4) + Put32(f.endian, 0) + Put32(f.endian, 0)
    + Put32(f.endian, 65535) + Put32(f.endian, datalink)
  }

  function ClassicPcap(f: Format, datalink: nat, ps: seq<Packet>): seq<byte>
    requires SupportedDatalink(datalink) && PacketsValid(ps)
  {
    GlobalHeader(f, datalink) + WriteRecords(f.endian, ps)
  }

  /** One observation per packet, each the decoding of its own frame at its own time. */
  function ExpectedObservations(f: Format, datalink: nat, ps: seq<Packet>, c: Context): seq<Observation> {
    if ps == [] then [] else
      [ObservationOf(f, datalink, ps[0], c)] + ExpectedObservations(f, datalink, ps[1..], c)
  }

  lemma Get16At(e: Endian, s: seq<byte>, offset: nat, v: nat)
    requires v < 0x1_0000 && offset + 2 <= |s| && s[offset..offset + 2] == Put16(e, v)
    ensures Get16(e, s, offset) == v
  {
    var part := s[offset..offset + 2];
    assert s[offset] == part[0] && s[offset + 1] == part[1];
  }

  lemma Get32At(e: Endian, s: seq<byte>, offset: nat, v: nat)
    requires v < 0x1_0000_0000 && offset + 4 <= |s| && s[offset..offset + 4] == Put32(e, v)
    ensures Get32(e, s, offset) == v
  {
    var part := s[offset..offset + 4];
    assert s[offset] == part[0] && s[offset + 1] == part[1] && s[offset + 2] == part[2] && s[offset + 3] == part[3];
    assert Get32(e, part, 0) == v;
  }

  lemma GlobalInverse(f: Format, datalink: nat)
    requires SupportedDatalink(datalink)
    ensures ParseGlobal(GlobalHeader(f, datalink)) == Ok(Global(f, 65535, datalink))
  {
    var s, e := GlobalHeader(f, datalink), f.endian;
    assert s[..4] == Magic(f);
    assert s[4..6] == Put16(e, 2) && s[6..8] == Put16(e, 4);
    assert s[16..20] == Put32(e, 65535) && s[20..24] == Put32(e, datalink);
    Get16At(e, s, 4, 2);
    Get16At(e, s, 6, 4);
    Get32At(e, s, 16, 65535);
    Get32At(e, s, 20, datalink);
    MagicInverse(f, s[..4]);
  }

  lemma MagicInverse(f: Format, magic: seq<byte>)
    requires magic == Magic(f)
    ensures FormatOf(magic) == Some(f) && magic != [0x0A, 0x0D, 0x0D, 0x0A]
  {
    var m := Magic(f);
    assert Magic(Format(Little, false))[0] == 0xD4 && Magic(Format(Big, false))[0] == 0xA1;
    assert Magic(Format(Little, true))[0] == 0x4D && Magic(Format(Big, true))[2] == 0x3C
      && Magic(Format(Big, false))[2] == 0xC3;
    assert m[0] != 0x0A;
  }

  lemma RecordInverse(g: Global, p: Packet, offset: nat, size: nat)
    requires PacketValid(p) && g.snaplen == 65535 && offset + |p.frame| <= size
    ensures ParseRecord(g, RecordHeader(g.format.endian, p), offset, size)
      == Ok(Record(p.seconds, p.fraction, |p.frame|, p.wire))
  {
    var e := g.format.endian;
    var s := RecordHeader(e, p);
    assert s[0..4] == Put32(e, p.seconds) && s[4..8] == Put32(e, p.fraction);
    assert s[8..12] == Put32(e, |p.frame|) && s[12..16] == Put32(e, p.wire);
    Get32At(e, s, 0, p.seconds);
    Get32At(e, s, 4, p.fraction);
    Get32At(e, s, 8, |p.frame|);
    Get32At(e, s, 12, p.wire);
  }

  lemma Placed(before: seq<byte>, h: seq<byte>, body: seq<byte>, rest: seq<byte>)
    ensures var data, pos := before + (h + body + rest), |before|;
      && data[pos..pos + |h|] == h
      && data[pos + |h|..pos + |h| + |body|] == body
      && data == before + (h + body) + rest
  {
  }

  /** The file from `before` on, and what the reader is to yield from there. */
  ghost predicate ReadsBack(before: seq<byte>, f: Format, datalink: nat, ps: seq<Packet>, c: Context)
    requires PacketsValid(ps)
  {
    ReadRecords(before + WriteRecords(f.endian, ps), |before|, Global(f, 65535, datalink), c)
      == Reading(ExpectedObservations(f, datalink, ps, c), None)
  }

  function ObservationOf(f: Format, datalink: nat, p: Packet, c: Context): Observation {
    Decoded(p.frame, p.wire, datalink, ContextAt(c, TimeOf(f, p.seconds, p.fraction)))
  }

  lemma ReadFirst(data: seq<byte>, pos: nat, next: nat, h: seq<byte>, body: seq<byte>, g: Global, c: Context, r: Record)
    requires |h| == 16 && r.captured == |body| && next == pos + 16 + |body| <= |data|
    requires data[pos..pos + 16] == h && data[pos + 16..pos + 16 + |body|] == body
    requires ParseRecord(g, h, pos + 16, |data|) == Ok(r)
    ensures ReadRecords(data, pos, g, c) == Prepend([RecordOf(g, r, body, c)], ReadRecords(data, next, g, c))
  {
    assert HeaderAt(data, pos) == h;
    ReadStep(data, pos, g, c, r, body, next);
  }

  lemma ReadWritten(data: seq<byte>, before: seq<byte>, f: Format, datalink: nat, p: Packet, rest: seq<byte>,
      c: Context)
    requires PacketValid(p) && data == before + (RecordHeader(f.endian, p) + p.frame + rest)
    ensures var next, g := |before + (RecordHeader(f.endian, p) + p.frame)|, Global(f, 65535, datalink);
      && data == before + (RecordHeader(f.endian, p) + p.frame) + rest
      && ReadRecords(data, |before|, g, c) == Prepend([ObservationOf(f, datalink, p, c)], ReadRecords(data, next, g, c))
  {
    var h, g := RecordHeader(f.endian, p), Global(f, 65535, datalink);
    Placed(before, h, p.frame, rest);
    RecordInverse(g, p, |before| + 16, |data|);
    ReadFirst(data, |before|, |before + (h + p.frame)|, h, p.frame, g, c,
      Record(p.seconds, p.fraction, |p.frame|, p.wire));
  }

  lemma {:induction false} RecordsInverse(before: seq<byte>, f: Format, datalink: nat, ps: seq<Packet>, c: Context)
    requires PacketsValid(ps)
    ensures ReadsBack(before, f, datalink, ps, c)
    decreases |ps|
  {
    if ps == [] {
      assert before + [] == before;
    } else {
      RecordsInverse(before + (RecordHeader(f.endian, ps[0]) + ps[0].frame), f, datalink, ps[1..], c);
      ReadWritten(before + WriteRecords(f.endian, ps), before, f, datalink, ps[0], WriteRecords(f.endian, ps[1..]), c);
    }
  }

  /** Reading what the writer wrote, in either byte order and either resolution, yields exactly one
      observation per packet and no error. */
  lemma ReaderInvertsWriter(f: Format, datalink: nat, ps: seq<Packet>, c: Context)
    requires SupportedDatalink(datalink) && PacketsValid(ps)
    ensures ReadFile(ClassicPcap(f, datalink, ps), c) == Reading(ExpectedObservations(f, datalink, ps, c), None)
  {
    var header, data := GlobalHeader(f, datalink), ClassicPcap(f, datalink, ps);
    assert data[..Min(24, |data|)] == header;
    GlobalInverse(f, datalink);
    RecordsInverse(header, f, datalink, ps, c);
  }
}
