/** The text of a system event's payload as JSON (RFC 8259) in UTF-8 (section 3 of RFC 3629), and the proof
    that the size check counts exactly its bytes. */
module EvidenceText {
  import opened Basics
  import opened Bytes
  import opened Models
  import opened Evidence

  // ---------------------------------------------------------------- the text

  function Hex(d: nat): char
    requires d < 16
  {
    if d < 10 then ('0' as int + d) as char else ('a' as int + d - 10) as char
  }

  /** A character inside a JSON string; everything but quotes, backslashes and controls stands for itself. */
  function Escaped(c: char): string {
    var point := c as int;
    if c == '"' then "\\\""
    else if c == '\\' then "\\\\"
    else if point == 8 then "\\b"
    else if point == 9 then "\\t"
    else if point == 10 then "\\n"
    else if point == 12 then "\\f"
    else if point == 13 then "\\r"
    else if point < 0x20 then "\\u00" + [Hex(point / 16), Hex(point % 16)]
    else [c]
  }

  function JsonText(text: string): string {
    if text == [] then [] else JsonText(text[..|text| - 1]) + Escaped(text[|text| - 1])
  }

  function Quoted(text: string): string { "\"" + JsonText(text) + "\"" }

  function JsonValue(v: Value): string {
    match v
    case Null => "null"
    case Text(text) => Quoted(text)
    case Number(digits) => digits
    case Flag(flag) => if flag then "true" else "false"
    case List(items) => "[" + JsonItems(items) + "]"
    case Other => []
  }

  function JsonItems(vs: seq<Value>): string {
    if vs == [] then []
    else if |vs| == 1 then JsonValue(vs[0])
    else JsonValue(vs[0]) + "," + JsonItems(vs[1..])
  }

  function JsonMember(m: Member): string { Quoted(m.key) + ":" + JsonValue(m.value) }

  function JsonMembers(ms: seq<Member>): string {
    if ms == [] then []
    else if |ms| == 1 then JsonMember(ms[0])
    else JsonMember(ms[0]) + "," + JsonMembers(ms[1..])
  }

  function JsonObject(ms: seq<Member>): string { "{" + JsonMembers(ms) + "}" }

  /** A character in UTF-8. */
  function Utf8(c: char): seq<byte> {
    var p := c as int;
    if p < 0x80 then [p]
    else if p < 0x800 then [0xC0 + p / 64, 0x80 + p % 64]
    else if p < 0x1_0000 then [0xE0 + p / 4096, 0x80 + p / 64 % 64, 0x80 + p % 64]
    else [0xF0 + p / 0x4_0000, 0x80 + p / 4096 % 64, 0x80 + p / 64 % 64, 0x80 + p % 64]
  }

  function Utf8Text(text: string): seq<byte> {
    if text == [] then [] else Utf8Text(text[..|text| - 1]) + Utf8(text[|text| - 1])
  }

  // ---------------------------------------------------------------- its bytes

  lemma {:induction false} Utf8Counts(text: string)
    ensures |Utf8Text(text)| == Utf8Length(text)
  {
    if text != [] {
      Utf8Counts(text[..|text| - 1]);
    }
  }

  lemma {:induction false} LengthAppend(a: string, b: string)
    ensures Utf8Length(a + b) == Utf8Length(a) + Utf8Length(b)
  {
    if b == [] {
      NothingAfter(a);
    } else {
      assert (a + b)[..|a + b| - 1] == a + b[..|b| - 1];
      LengthAppend(a, b[..|b| - 1]);
    }
  }

  predicate Ascii(text: string) { forall i :: 0 <= i < |text| ==> text[i] as int < 0x80 }

  lemma {:induction false} AsciiLength(text: string)
    requires Ascii(text)
    ensures Utf8Length(text) == |text|
  {
    if text != [] {
      AsciiLength(text[..|text| - 1]);
    }
  }

  lemma EscapedLength(c: char)
    ensures Utf8Length(Escaped(c)) == EscapedBytes(c)
  {
    if Escaped(c) == [c] {
      assert [c][..0] == [];
    } else {
      AsciiLength(Escaped(c));
    }
  }

  lemma {:induction false} TextLength(text: string)
    ensures Utf8Length(JsonText(text)) == TextBytes(text)
  {
    if text != [] {
      TextLength(text[..|text| - 1]);
      LengthAppend(JsonText(text[..|text| - 1]), Escaped(text[|text| - 1]));
      EscapedLength(text[|text| - 1]);
    }
  }

  lemma QuotedLength(text: string)
    ensures Utf8Length(Quoted(text)) == TextBytes(text) + 2
  {
    TextLength(text);
    Wrapped("\"", JsonText(text), "\"");
  }

  /** A text between two ASCII characters. */
  lemma Wrapped(open: string, text: string, close: string)
    requires |open| == |close| == 1 && Ascii(open) && Ascii(close)
    ensures Utf8Length(open + text + close) == Utf8Length(text) + 2
  {
    AsciiLength(open);
    AsciiLength(close);
    LengthAppend(open, text);
    LengthAppend(open + text, close);
  }

  lemma Joined(a: string, mid: string, b: string)
    requires |mid| == 1 && Ascii(mid)
    ensures Utf8Length(a + mid + b) == Utf8Length(a) + 1 + Utf8Length(b)
  {
    AsciiLength(mid);
    LengthAppend(a, mid);
    LengthAppend(a + mid, b);
  }

  lemma {:induction false} ValueLength(v: Value)
    ensures Utf8Length(JsonValue(v)) == ValueBytes(v)
  {
    match v
    case Null => AsciiLength("null");
    case Text(text) => QuotedLength(text);
    case Number(digits) =>
    case Flag(flag) => AsciiLength(if flag then "true" else "false");
    case List(items) =>
      ItemsLength(items);
      Wrapped("[", JsonItems(items), "]");
    case Other =>
  }

  lemma {:induction false} ItemsLength(vs: seq<Value>)
    ensures Utf8Length(JsonItems(vs)) == ItemsBytes(vs)
  {
    if vs != [] {
      ValueLength(vs[0]);
      if |vs| > 1 {
        ItemsLength(vs[1..]);
        Joined(JsonValue(vs[0]), ",", JsonItems(vs[1..]));
      }
    }
  }

  lemma MemberLength(m: Member)
    ensures Utf8Length(JsonMember(m)) == MemberBytes(m)
  {
    QuotedLength(m.key);
    ValueLength(m.value);
    Joined(Quoted(m.key), ":", JsonValue(m.value));
  }

  lemma {:induction false} MembersLength(ms: seq<Member>)
    ensures Utf8Length(JsonMembers(ms)) == MembersBytes(ms)
  {
    if ms != [] {
      MemberLength(ms[0]);
      if |ms| > 1 {
        MembersLength(ms[1..]);
        Joined(JsonMember(ms[0]), ",", JsonMembers(ms[1..]));
      }
    }
  }

  /** The size check counts the bytes of the line: of its payload's JSON text in UTF-8, and of the rest. */
  lemma LineIsCounted(name: SystemName, fields: seq<Member>, frame: nat)
    ensures LineBytes(name, fields, frame) == frame + |Utf8Text(JsonObject(PayloadMembers(name, fields)))|
  {
    var ms := PayloadMembers(name, fields);
    MembersLength(ms);
    Wrapped("{", JsonMembers(ms), "}");
    Utf8Counts(JsonObject(ms));
  }
}
