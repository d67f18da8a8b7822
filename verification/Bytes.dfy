/** Bytes and fixed-width integers in both byte orders. */
module Bytes {

  type byte = x: int | 0 <= x < 256

  /** Value of a byte string, most significant byte first. */
  function BigEndian(s: seq<byte>): nat {
    if s == [] then 0 else BigEndian(s[..|s| - 1]) * 256 + s[|s| - 1]
  }

  /** The bytes at `offset`, as many as `count`. */
  function Slice(s: seq<byte>, offset: nat, count: nat): seq<byte>
    requires offset + count <= |s|
  {
    s[offset..offset + count]
  }

  function Be16(s: seq<byte>, offset: nat): (r: nat)
    requires offset + 2 <= |s|
    ensures r < 0x1_0000
  {
    s[offset] as int * 256 + s[offset + 1]
  }

  function PutBe16(v: nat): (s: seq<byte>)
    requires v < 0x1_0000
    ensures |s| == 2
    ensures Be16(s, 0) == v
  {
    [v / 256, v % 256]
  }

  datatype Endian = Little | Big

  function Get16(e: Endian, s: seq<byte>, offset: nat): (r: nat)
    requires offset + 2 <= |s|
    ensures r < 0x1_0000
  {
    if e == Big then s[offset] as int * 256 + s[offset + 1] else s[offset] + s[offset + 1] as int * 256
  }

  function Get32(e: Endian, s: seq<byte>, offset: nat): (r: nat)
    requires offset + 4 <= |s|
    ensures r < 0x1_0000_0000
  {
    var first, second := Get16(e, s, offset), Get16(e, s, offset + 2);
    if e == Big then first * 0x1_0000 + second else first + second * 0x1_0000
  }

  function Put16(e: Endian, v: nat): (s: seq<byte>)
    requires v < 0x1_0000
    ensures |s| == 2 && Get16(e, s, 0) == v
  {
    if e == Big then [v / 256, v % 256] else [v % 256, v / 256]
  }

  function Put32(e: Endian, v: nat): (s: seq<byte>)
    requires v < 0x1_0000_0000
    ensures |s| == 4 && Get32(e, s, 0) == v
  {
    var high, low := Put16(e, v / 0x1_0000), Put16(e, v % 0x1_0000);
    if e == Big then high + low else low + high
  }

  /** The bytes `part` stand at `offset` in `s`.  (The comparison with `true` keeps the condition in
      one piece for the verifier.) */
  ghost predicate Holds(s: seq<byte>, offset: nat, part: seq<byte>) {
    (offset + |part| <= |s| && s[offset..offset + |part|] == part) == true
  }

  lemma HoldsAt(s: seq<byte>, offset: nat, part: seq<byte>, i: nat)
    requires Holds(s, offset, part) && i < |part|
    ensures s[offset + i] == part[i]
  {
  }

  /** A part of a part. */
  lemma HoldsParts(s: seq<byte>, offset: nat, a: seq<byte>, b: seq<byte>)
    ensures Holds(s, offset, a + b) <==> Holds(s, offset, a) && Holds(s, offset + |a|, b)
  {
    if Holds(s, offset, a + b) {
      assert a == (a + b)[..|a|] && b == (a + b)[|a|..];
    }
    if Holds(s, offset, a) && Holds(s, offset + |a|, b) {
      assert s[offset..offset + |a + b|] == s[offset..offset + |a|] + s[offset + |a|..offset + |a| + |b|];
    }
  }

  /** Bytes of a character, and of a text, in UTF-8. */
  function CharBytes(c: char): (n: nat)
    ensures 1 <= n <= 4
  {
    var point := c as int;
    if point < 0x80 then 1 else if point < 0x800 then 2 else if point < 0x1_0000 then 3 else 4
  }

  function Utf8Length(text: string): (n: nat)
    ensures |text| <= n <= 4 * |text|
  {
    if text == [] then 0 else Utf8Length(text[..|text| - 1]) + CharBytes(text[|text| - 1])
  }
}
