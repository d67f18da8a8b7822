/** The PCAP reader read off the bytes: which header bytes give which error, and where in the file the
    reader stops, with all numbers written out. */
module PcapErrors {
  import opened Basics
  import opened Models
  import opened Bytes
  import opened Decode
  import opened DecodeProperties
  import opened Pcap

  // ---------------------------------------------------------------- numbers in the file's byte order

  function Num16(big: bool, s: seq<byte>, i: nat): nat
    requires i + 2 <= |s|
  {
    if big then s[i] as int * 256 + s[i + 1] else s[i + 1] as int * 256 + s[i]
  }

  function Num32(big: bool, s: seq<byte>, i: nat): nat
    requires i + 4 <= |s|
  {
    if big then ((s[i] as int * 256 + s[i + 1]) * 256 + s[i + 2]) * 256 + s[i + 3]
    else ((s[i + 3] as int * 256 + s[i + 2]) * 256 + s[i + 1]) * 256 + s[i]
  }

  lemma Numbers(e: Endian, s: seq<byte>, i: nat)
    ensures i + 2 <= |s| ==> Get16(e, s, i) == Num16(e == Big, s, i)
    ensures i + 4 <= |s| ==> Get32(e, s, i) == Num32(e == Big, s, i)
  {
  }

  // ---------------------------------------------------------------- the file header

  /** The first four bytes are the magic number, for microseconds or nanoseconds, in that byte order. */
  predicate HasMagic(s: seq<byte>, big: bool, nanoseconds: bool)
    requires |s| >= 4
  {
    Num32(big, s, 0) == if nanoseconds then 0xA1B23C4D else 0xA1B2C3D4
  }

  lemma MagicOnBytes(s: seq<byte>, big: bool, nanoseconds: bool)
    requires |s| >= 4
    ensures HasMagic(s, big, nanoseconds) <==>
      FormatOf(s[..4]) == Some(Format(if big then Big else Little, nanoseconds))
  {
    var m := s[..4];
    if HasMagic(s, big, nanoseconds) {
      FourBytes(big, s, m, Magic(Format(if big then Big else Little, nanoseconds)));
    }
    if FormatOf(m).Some? {
      assert m == Magic(FormatOf(m).value);
      assert m[0] == s[0] && m[1] == s[1] && m[2] == s[2] && m[3] == s[3];
    }
  }

  /** A 32-bit number determines its bytes. */
  lemma FourBytes(big: bool, s: seq<byte>, m: seq<byte>, n: seq<byte>)
    requires |s| >= 4 && m == s[..4] && |n| == 4 && Num32(big, s, 0) == Num32(big, n, 0)
    ensures m == n
  {
    if big {
      Digits(s[0] as int, s[1], s[2], s[3], n[0] as int, n[1], n[2], n[3]);
    } else {
      Digits(s[3] as int, s[2], s[1], s[0], n[3] as int, n[2], n[1], n[0]);
    }
    assert m == [s[0], s[1], s[2], s[3]] && n == [n[0], n[1], n[2], n[3]];
  }

  lemma Digits(a: int, b: byte, c: byte, d: byte, w: int, x: byte, y: byte, z: byte)
    requires ((a * 256 + b) * 256 + c) * 256 + d == ((w * 256 + x) * 256 + y) * 256 + z
    ensures a == w && b == x && c == y && d == z
  {
    LastDigit((a * 256 + b) * 256 + c, d, (w * 256 + x) * 256 + y, z);
    LastDigit(a * 256 + b, c, w * 256 + x, y);
    LastDigit(a, b, w, x);
  }

  lemma LastDigit(p: int, d: byte, q: int, e: byte)
    requires p * 256 + d == q * 256 + e
    ensures p == q && d == e
  {
  }

  /** Why the file header, the first 24 bytes of the file, is refused, if it is. */
  function HeaderFlaw(data: seq<byte>, big: bool): Option<PcapError> {
    if |data| < 24 then Some(TruncatedGlobalHeader)
    else if data[0] == 0x0A && data[1] == 0x0D && data[2] == 0x0D && data[3] == 0x0A then Some(PcapngUnsupported)
    else if !HasMagic(data, big, false) && !HasMagic(data, big, true) then Some(UnknownMagic)
    else if Num16(big, data, 4) != 2 || Num16(big, data, 6) != 4 then Some(UnsupportedVersion)
    else if Num32(big, data, 16) == 0 || Num32(big, data, 16) > 0x100_0000 then Some(InvalidSnaplen)
    else if Num32(big, data, 20) !in {1, 101, 113, 276} then Some(BadDatalink)
    else None
  }

  /** The byte order in which the magic number makes sense; big where it does in neither. */
  predicate IsBig(data: seq<byte>) {
    |data| < 4 || !(HasMagic(data, false, false) || HasMagic(data, false, true))
  }

  lemma OrderOfMagic(data: seq<byte>)
    requires |data| >= 4
    ensures var f := FormatOf(data[..4]);
      && (f.None? <==> !HasMagic(data, IsBig(data), false) && !HasMagic(data, IsBig(data), true))
      && (f.Some? ==> (f.value.endian == Big <==> IsBig(data))
                      && (f.value.nanoseconds <==> HasMagic(data, IsBig(data), true)))
  {
    MagicOnBytes(data, false, false);
    MagicOnBytes(data, false, true);
    MagicOnBytes(data, true, false);
    MagicOnBytes(data, true, true);
  }

  /** The file header, exactly: the error its bytes cause, or the format, snap length and link type. */
  lemma HeaderOnBytes(data: seq<byte>)
    ensures var r, big := ParseGlobal(data[..Min(24, |data|)]), IsBig(data);
      match HeaderFlaw(data, big)
      case Some(error) => r == Err(error)
      case None =>
        r == Ok(Global(Format(if big then Big else Little, HasMagic(data, big, true)), Num32(big, data, 16),
                       Num32(big, data, 20)))
  {
    if |data| >= 24 {
      var h := data[..24];
      assert h[..4] == data[..4];
      OrderOfMagic(data);
      var f := FormatOf(data[..4]);
      if f.Some? {
        HeaderNumbers(f.value.endian, data, h);
      }
      assert (h[..4] == [0x0A, 0x0D, 0x0D, 0x0A]) <==>
        (data[0] == 0x0A && data[1] == 0x0D && data[2] == 0x0D && data[3] == 0x0A);
    }
  }

  lemma HeaderNumbers(e: Endian, data: seq<byte>, h: seq<byte>)
    requires |data| >= 24 && h == data[..24]
    ensures Get16(e, h, 4) == Num16(e == Big, data, 4) && Get16(e, h, 6) == Num16(e == Big, data, 6)
    ensures Get32(e, h, 16) == Num32(e == Big, data, 16) && Get32(e, h, 20) == Num32(e == Big, data, 20)
  {
    Numbers(e, h, 4);
    Numbers(e, h, 6);
    Numbers(e, h, 16);
    Numbers(e, h, 20);
  }

  // ---------------------------------------------------------------- records

  /** Why the record whose header starts at `pos` is refused, if it is. */
  function RecordFlaw(data: seq<byte>, pos: nat, big: bool, snaplen: nat): Option<PcapError>
    requires pos <= |data|
  {
    if |data| < pos + 16 then Some(TruncatedRecordHeader)
    else if Num32(big, data, pos + 8) > snaplen then Some(LengthExceedsSnaplen)
    else if Num32(big, data, pos + 12) < Num32(big, data, pos + 8) then Some(WireShorterThanCapture)
    else if pos + 16 + Num32(big, data, pos + 8) > |data| then Some(RecordBeyondEndOfFile)
    else None
  }

  lemma RecordOnBytes(data: seq<byte>, pos: nat, g: Global)
    requires pos <= |data|
    ensures var r, big := RecordAt(g, data, pos), g.format.endian == Big;
      match RecordFlaw(data, pos, big, g.snaplen)
      case Some(error) => r == Err(error)
      case None => r == Ok(Record(Num32(big, data, pos), Num32(big, data, pos + 4), Num32(big, data, pos + 8),
                                  Num32(big, data, pos + 12)))
  {
    if |data| >= pos + 16 {
      RecordNumbers(g.format.endian, data, pos, HeaderAt(data, pos));
    }
  }

  lemma RecordNumbers(e: Endian, data: seq<byte>, pos: nat, h: seq<byte>)
    requires |data| >= pos + 16 && h == data[pos..pos + 16]
    ensures Get32(e, h, 0) == Num32(e == Big, data, pos) && Get32(e, h, 4) == Num32(e == Big, data, pos + 4)
    ensures Get32(e, h, 8) == Num32(e == Big, data, pos + 8) && Get32(e, h, 12) == Num32(e == Big, data, pos + 12)
  {
    Numbers(e, h, 0);
    Numbers(e, h, 4);
    Numbers(e, h, 8);
    Numbers(e, h, 12);
  }

  /** From `pos`, over `n` whole records, to `end`. */
  predicate Steps(data: seq<byte>, big: bool, snaplen: nat, pos: nat, n: nat, end: nat)
    requires pos <= |data|
    decreases n
  {
    if n == 0 then end == pos
    else RecordFlaw(data, pos, big, snaplen).None?
         && Steps(data, big, snaplen, pos + 16 + Num32(big, data, pos + 8), n - 1, end)
  }

  /** From `pos` a record is yielded for every whole one; then the reader stops at `end`: the end of the
      file, or the record whose bytes cause the error. */
  predicate StopsAt(data: seq<byte>, big: bool, snaplen: nat, pos: nat, r: Reading, end: nat)
    requires pos <= |data|
  {
    && end <= |data| && Steps(data, big, snaplen, pos, |r.observations|, end)
    && r.error == (if end == |data| then None else RecordFlaw(data, end, big, snaplen))
    && (end < |data| ==> r.error.Some?)
  }

  lemma {:induction false} RecordsStop(data: seq<byte>, pos: nat, g: Global, c: Context) returns (end: nat)
    requires pos <= |data|
    ensures StopsAt(data, g.format.endian == Big, g.snaplen, pos, ReadRecords(data, pos, g, c), end)
    decreases |data| - pos
  {
    RecordOnBytes(data, pos, g);
    if pos == |data| || RecordAt(g, data, pos).Err? {
      ReadStops(data, pos, g, c);
      end := pos;
    } else {
      var r := RecordAt(g, data, pos).value;
      var next := pos + 16 + r.captured;
      RecordFits(data, pos, g, r);
      end := RecordsStop(data, next, g, c);
      OneMore(data, pos, g, c, r, next, ReadRecords(data, next, g, c), end);
    }
  }

  lemma OneMore(data: seq<byte>, pos: nat, g: Global, c: Context, r: Record, next: nat, rest: Reading, end: nat)
    requires pos < |data| && RecordAt(g, data, pos) == Ok(r) && next == pos + 16 + r.captured <= |data|
    requires rest == ReadRecords(data, next, g, c) && StopsAt(data, g.format.endian == Big, g.snaplen, next, rest, end)
    ensures StopsAt(data, g.format.endian == Big, g.snaplen, pos, ReadRecords(data, pos, g, c), end)
  {
    var frame := data[pos + 16..next];
    Flawless(data, pos, g, r);
    ReadStep(data, pos, g, c, r, frame, next);
    FirstStops(data, g.format.endian == Big, g.snaplen, pos, RecordOf(g, r, frame, c), next, rest, end);
  }

  lemma Flawless(data: seq<byte>, pos: nat, g: Global, r: Record)
    requires pos < |data| && RecordAt(g, data, pos) == Ok(r)
    ensures RecordFlaw(data, pos, g.format.endian == Big, g.snaplen).None?
    ensures r.captured == Num32(g.format.endian == Big, data, pos + 8)
  {
    RecordOnBytes(data, pos, g);
  }

  lemma FirstStops(data: seq<byte>, big: bool, snaplen: nat, pos: nat, o: Observation, next: nat, rest: Reading,
      end: nat)
    requires pos <= |data| && RecordFlaw(data, pos, big, snaplen).None?
    requires next == pos + 16 + Num32(big, data, pos + 8) && next <= |data|
    requires StopsAt(data, big, snaplen, next, rest, end)
    ensures StopsAt(data, big, snaplen, pos, Prepend([o], rest), end)
  {
    var n := |rest.observations|;
    assert |Prepend([o], rest).observations| == n + 1;
    assert Steps(data, big, snaplen, pos, n + 1, end) == Steps(data, big, snaplen, next, n, end);
  }

  /** A whole file: the error of its header, or one observation a whole record and then the end or the error
      of the first record that is not. */
  lemma FileStopsExactly(data: seq<byte>, c: Context) returns (end: nat)
    ensures var r, big := ReadFile(data, c), IsBig(data);
      match HeaderFlaw(data, big)
      case Some(error) => r == Reading([], Some(error))
      case None =>
        var snaplen := Num32(big, data, 16);
        24 <= end && StopsAt(data, big, snaplen, 24, r, end)
  {
    HeaderOnBytes(data);
    end := 24;
    if HeaderFlaw(data, IsBig(data)).None? {
      var g := ParseGlobal(data[..Min(24, |data|)]).value;
      end := RecordsStop(data, 24, g, c);
      StepsForward(data, IsBig(data), g.snaplen, 24, |ReadFile(data, c).observations|, end);
    }
  }

  lemma {:induction false} StepsForward(data: seq<byte>, big: bool, snaplen: nat, pos: nat, n: nat, end: nat)
    requires pos <= |data| && Steps(data, big, snaplen, pos, n, end)
    ensures pos <= end
    decreases n
  {
    if n > 0 {
      StepsForward(data, big, snaplen, pos + 16 + Num32(big, data, pos + 8), n - 1, end);
    }
  }

  // ---------------------------------------------------------------- times

  /** A record's time: seconds and microseconds, nanoseconds cut off. */
  lemma RecordTime(g: Global, r: Record, frame: seq<byte>, c: Context)
    ensures var o := RecordOf(g, r, frame, c);
      && o.capturedAt == r.seconds * 1_000_000 + (if g.format.nanoseconds then r.fraction / 1000 else r.fraction)
      && o.wireLength == r.wire && o.monotonicAt == c.monotonicAt && o.sensorId == c.sensorId
      && o.sourceGeneration == c.sourceGeneration && o.capturePoint == c.capturePoint && o.interface == c.interface
      && o.direction == c.direction && !o.late
  {
    DecodedKeepsCapture(frame, r.wire, g.datalink, ContextAt(c, TimeOf(g.format, r.seconds, r.fraction)));
  }
}
