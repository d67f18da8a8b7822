/** The checks on a system event (evidence.py): which fields it may have, and the size of its line. */
module Evidence {
  import opened Basics
  import opened Bytes
  import opened Models

  // ---------------------------------------------------------------- fields

  const MAX_FIELDS: nat := 32
  const MAX_ITEMS: nat := 64

  predicate IsLetter(c: char) { 'a' <= c <= 'z' || 'A' <= c <= 'Z' }

  predicate IsWordChar(c: char) { IsLetter(c) || '0' <= c <= '9' || c == '_' }

  /** A letter, then letters, digits and underscores; the pattern's `$` also admits one final newline. */
  predicate KeyOk(key: string) {
    Worded(if key != [] && key[|key| - 1] == '\n' then key[..|key| - 1] else key)
  }

  predicate Worded(word: string) {
    word != [] && IsLetter(word[0]) && forall i :: 0 <= i < |word| ==> IsWordChar(word[i])
  }

  /** A scalar, or a list of at most 64 such values. */
  predicate IsScalar(v: Value) {
    match v
    case List(items) => |items| <= MAX_ITEMS && AllScalars(items)
    case Other => false
    case _ => true
  }

  predicate AllScalars(vs: seq<Value>) {
    vs == [] || (IsScalar(vs[0]) && AllScalars(vs[1..]))
  }

  predicate MemberOk(m: Member) { KeyOk(m.key) && IsScalar(m.value) }

  predicate AllMembersOk(ms: seq<Member>) {
    ms == [] || (AllMembersOk(ms[..|ms| - 1]) && MemberOk(ms[|ms| - 1]))
  }

  predicate FieldsOk(fields: seq<Member>) { |fields| <= MAX_FIELDS && AllMembersOk(fields) }

  /** One bad member is enough. */
  lemma {:induction false} AllMembersOkExactly(ms: seq<Member>)
    ensures AllMembersOk(ms) <==> forall i :: 0 <= i < |ms| ==> MemberOk(ms[i])
  {
    if ms != [] {
      AllMembersOkExactly(ms[..|ms| - 1]);
    }
  }

  /** What the checks on fields admit, in numbers: at most 32, each key a letter followed by letters, digits and
      underscores (and perhaps one newline at the end), each value a scalar or a list. */
  lemma FieldsOkExactly(fields: seq<Member>)
    ensures FieldsOk(fields) <==>
      |fields| <= 32 && forall i :: 0 <= i < |fields| ==> KeyOk(fields[i].key) && IsScalar(fields[i].value)
  {
    AllMembersOkExactly(fields);
    assert forall i :: 0 <= i < |fields| ==>
      (MemberOk(fields[i]) <==> KeyOk(fields[i].key) && IsScalar(fields[i].value));
  }

  /** Letters, and letters with digits and underscore, by their ASCII codes. */
  predicate Letter(c: int) { 65 <= c <= 90 || 97 <= c <= 122 }

  predicate WordCode(c: int) { Letter(c) || 48 <= c <= 57 || c == 95 }

  predicate IsWord(word: string) {
    word != [] && Letter(word[0] as int) && forall i :: 0 <= i < |word| ==> WordCode(word[i] as int)
  }

  lemma WordExactly(word: string)
    ensures IsWord(word) <==> Worded(word)
  {
    assert forall i :: 0 <= i < |word| ==> (WordCode(word[i] as int) <==> IsWordChar(word[i]));
  }

  lemma KeyOkExactly(key: string)
    ensures KeyOk(key) <==> IsWord(key) || (|key| > 0 && key[|key| - 1] == '\n' && IsWord(key[..|key| - 1]))
  {
    WordExactly(key);
    if key != [] && key[|key| - 1] == '\n' {
      NoWord(key);
      WordExactly(key[..|key| - 1]);
    }
  }

  /** A word has no newline. */
  lemma NoWord(key: string)
    requires key != [] && key[|key| - 1] == '\n'
    ensures !IsWord(key)
  {
    var i := |key| - 1;
    assert key[i] as int == 10;
  }

  lemma {:induction false} AllScalarsExactly(vs: seq<Value>)
    ensures AllScalars(vs) <==> forall i :: 0 <= i < |vs| ==> IsScalar(vs[i])
  {
    if vs != [] {
      AllScalarsExactly(vs[1..]);
      assert forall i :: 1 <= i < |vs| ==> vs[i] == vs[1..][i - 1];
    }
  }

  /** Which values are admitted: everything JSON can write, lists up to 64 long at every depth. */
  lemma IsScalarExactly(v: Value)
    ensures IsScalar(v) <==>
      !v.Other? && (v.List? ==> |v.items| <= 64 && forall i :: 0 <= i < |v.items| ==> IsScalar(v.items[i]))
  {
    if v.List? {
      AllScalarsExactly(v.items);
    }
  }

  /** Fields without a value are dropped before anything is checked. */
  function Cleaned(fields: seq<Member>): (r: seq<Member>)
    ensures forall m :: m in r <==> m in fields && !m.value.Null?
  {
    if fields == [] then [] else
      (if fields[0].value.Null? then [] else [fields[0]]) + Cleaned(fields[1..])
  }

  function FieldOf(fields: seq<Member>, key: string): Option<Value> {
    if fields == [] then None
    else if fields[0].key == key then Some(fields[0].value)
    else FieldOf(fields[1..], key)
  }

  /** The text of the field `key`, if there is one. */
  function TextAt(fields: seq<Member>, key: string, otherwise: string): string {
    var v := FieldOf(fields, key);
    if v.Some? && v.value.Text? then v.value.text else otherwise
  }

  // ---------------------------------------------------------------- bytes of the line

  /** Bytes of a character in a JSON text: quotes, backslashes and five control characters take an
      escape of two characters, other control characters one of six. */
  function EscapedBytes(c: char): (n: nat)
    ensures 1 <= n <= 6
  {
    var point := c as int;
    if c == '"' || c == '\\' || 8 <= point <= 10 || point == 12 || point == 13 then 2
    else if point < 0x20 then 6
    else CharBytes(c)
  }

  function TextBytes(text: string): (n: nat)
    ensures |text| <= n <= 6 * |text|
  {
    if text == [] then 0 else TextBytes(text[..|text| - 1]) + EscapedBytes(text[|text| - 1])
  }

  function ValueBytes(v: Value): nat {
    match v
    case Null => 4
    case Text(text) => TextBytes(text) + 2
    case Number(digits) => Utf8Length(digits)
    case Flag(flag) => if flag then 4 else 5
    case List(items) => ItemsBytes(items) + 2
    case Other => 0
  }

  /** Values with commas between them. */
  function ItemsBytes(vs: seq<Value>): nat {
    if vs == [] then 0
    else if |vs| == 1 then ValueBytes(vs[0])
    else ValueBytes(vs[0]) + 1 + ItemsBytes(vs[1..])
  }

  /** Quoted key, colon, value. */
  function MemberBytes(m: Member): nat { TextBytes(m.key) + 3 + ValueBytes(m.value) }

  function MembersBytes(ms: seq<Member>): nat {
    if ms == [] then 0
    else if |ms| == 1 then MemberBytes(ms[0])
    else MemberBytes(ms[0]) + 1 + MembersBytes(ms[1..])
  }

  function NameText(name: SystemName): (text: string)
    ensures |text| <= 32
  {
    match name
    case SensorStart => "sensor_start"
    case SensorStopping => "sensor_stopping"
    case SensorStop => "sensor_stop"
    case SourceEstablished => "source_established"
    case SourceFailed => "source_failed"
    case SourceRetrying => "source_retrying"
    case SourceRecovered => "source_recovered"
    case SourceStopped => "source_stopped"
    case PolicyReloadSuccess => "policy_reload_success"
    case PolicyReloadNoop => "policy_reload_noop"
    case PolicyReloadFailed => "policy_reload_failed"
    case CoverageGap => "coverage_gap"
    case KernelDropsObserved => "kernel_drops_observed"
  }

  /** The event's name, unless a field of that key replaces it, and its fields. */
  function PayloadMembers(name: SystemName, fields: seq<Member>): seq<Member> {
    (if FieldOf(fields, "name").Some? then [] else [Member("name", Text(NameText(name)))]) + fields
  }

  /** Bytes of the event's line; `frame` counts those outside the payload: the other members of the
      envelope and the newline. */
  function LineBytes(name: SystemName, fields: seq<Member>, frame: nat): nat {
    frame + 2 + MembersBytes(PayloadMembers(name, fields))
  }

  /** Fields are checked before a number is taken, the size after. */
  datatype Check = Accepted | Malformed | Oversized

  function CheckOf(name: SystemName, fields: seq<Member>, frame: nat): Check {
    if !FieldsOk(fields) then Malformed
    else if LineBytes(name, fields, frame) > MAX_EVIDENCE_LINE_BYTES then Oversized
    else Accepted
  }

  // ---------------------------------------------------------------- the processor's own events

  function RestartRequired(): seq<Member> {
    [Member("detail", Text("restart_required")), Member("code", Text("restart_required"))]
  }

  function SameRevision(revision: string): seq<Member> { [Member("policy_revision", Text(revision))] }

  function NewRevision(previous: string, revision: string): seq<Member> {
    [Member("old_revision", Text(previous)), Member("new_revision", Text(revision))]
  }

  /** A number as JSON writes it. */
  function Decimal(n: nat): string {
    (if n >= 10 then Decimal(n / 10) else "") + [('0' as int + n % 10) as char]
  }

  function LoadError(detail: string): seq<Member> {
    [Member("detail", Text(detail)), Member("code", Text("load_error"))]
  }

  lemma NewRevisionFound(previous: string, revision: string, otherwise: string)
    ensures TextAt(NewRevision(previous, revision), "new_revision", otherwise) == revision
  {
    var fields := NewRevision(previous, revision);
    assert fields[1..] == [Member("new_revision", Text(revision))];
    assert FieldOf(fields[1..], "new_revision") == Some(Text(revision));
    assert |fields[0].key| != |"new_revision"| || fields[0].key[0] != "new_revision"[0];
  }

  lemma WordOk(key: string)
    requires key != [] && IsLetter(key[0]) && forall c :: c in key ==> IsWordChar(c)
    ensures KeyOk(key)
  {
    assert key[|key| - 1] in key;
  }

  lemma OwnKeysOk()
    ensures KeyOk("detail") && KeyOk("code") && KeyOk("policy_revision")
    ensures KeyOk("old_revision") && KeyOk("new_revision")
  {
    WordOk("detail");
    WordOk("code");
    WordOk("policy_revision");
    WordOk("old_revision");
    WordOk("new_revision");
  }

  lemma OwnFieldsOk(a: string, b: string)
    ensures FieldsOk(LoadError(a)) && FieldsOk(RestartRequired())
    ensures FieldsOk(SameRevision(a)) && FieldsOk(NewRevision(a, b))
  {
    OwnKeysOk();
    AllMembersOkExactly(LoadError(a));
    AllMembersOkExactly(RestartRequired());
    AllMembersOkExactly(SameRevision(a));
    AllMembersOkExactly(NewRevision(a, b));
  }

  lemma TwoMembers(name: SystemName, a: Member, b: Member, frame: nat)
    requires a.key != "name" && b.key != "name"
    ensures LineBytes(name, [a, b], frame)
      == frame + 4 + MemberBytes(Member("name", Text(NameText(name)))) + MemberBytes(a) + MemberBytes(b)
  {
    var first := Member("name", Text(NameText(name)));
    assert [a, b][1..] == [b] && [b][1..] == [];
    assert FieldOf([b], "name") == None && FieldOf([a, b], "name") == None;
    assert PayloadMembers(name, [a, b]) == [first, a, b];
    assert [first, a, b][1..] == [a, b];
    assert MembersBytes([a, b]) == MemberBytes(a) + 1 + MemberBytes(b);
  }

  lemma OneMember(name: SystemName, a: Member, frame: nat)
    requires a.key != "name"
    ensures LineBytes(name, [a], frame)
      == frame + 3 + MemberBytes(Member("name", Text(NameText(name)))) + MemberBytes(a)
  {
    var first := Member("name", Text(NameText(name)));
    assert [a][1..] == [] && FieldOf([a], "name") == None;
    assert PayloadMembers(name, [a]) == [first, a] && [first, a][1..] == [a];
    assert MembersBytes([a]) == MemberBytes(a);
  }

  lemma TextMember(key: string, text: string)
    ensures MemberBytes(Member(key, Text(text))) == TextBytes(key) + 5 + TextBytes(text)
  {
  }

  lemma LoadErrorBytes(detail: string, frame: nat)
    ensures LineBytes(PolicyReloadFailed, LoadError(detail), frame)
         == LineBytes(PolicyReloadFailed, LoadError(""), frame) + TextBytes(detail)
  {
    var code := Member("code", Text("load_error"));
    TwoMembers(PolicyReloadFailed, Member("detail", Text(detail)), code, frame);
    TwoMembers(PolicyReloadFailed, Member("detail", Text("")), code, frame);
    TextMember("detail", detail);
    TextMember("detail", "");
  }

  /** A failed reload is never malformed, and it fits a line exactly while the bytes of its detail do
      not exceed what the rest of the line leaves. */
  lemma LoadErrorFitsExactly(detail: string, frame: nat)
    ensures CheckOf(PolicyReloadFailed, LoadError(detail), frame)
      == if LineBytes(PolicyReloadFailed, LoadError(""), frame) + TextBytes(detail) <= 262144
         then Accepted else Oversized
    ensures |detail| >= 262144 ==>
      CheckOf(PolicyReloadFailed, LoadError(detail), frame) == Oversized
  {
    OwnFieldsOk(detail, detail);
    LoadErrorBytes(detail, frame);
  }

  lemma SmallPair(name: SystemName, k: string, a: string, l: string, b: string, frame: nat)
    requires k != "name" && l != "name" && |k| <= 16 && |a| <= 64 && |l| <= 16 && |b| <= 64
    requires frame + 2000 <= MAX_EVIDENCE_LINE_BYTES
    ensures LineBytes(name, [Member(k, Text(a)), Member(l, Text(b))], frame) <= MAX_EVIDENCE_LINE_BYTES
  {
    TwoMembers(name, Member(k, Text(a)), Member(l, Text(b)), frame);
    TextMember(k, a);
    TextMember(l, b);
    TextMember("name", NameText(name));
  }

  /** The events a reload itself emits always fit a line: revisions are hashes of 64 hexadecimal
      digits, and the envelope around them is short. */
  lemma OwnEventsFit(previous: string, revision: string, frame: nat)
    requires |previous| <= 64 && |revision| <= 64 && frame + 2000 <= MAX_EVIDENCE_LINE_BYTES
    ensures CheckOf(PolicyReloadFailed, RestartRequired(), frame) == Accepted
    ensures CheckOf(PolicyReloadNoop, SameRevision(revision), frame) == Accepted
    ensures CheckOf(PolicyReloadSuccess, NewRevision(previous, revision), frame) == Accepted
  {
    OwnFieldsOk(previous, revision);
    OwnFieldsOk(revision, previous);
    SmallPair(PolicyReloadFailed, "detail", "restart_required", "code", "restart_required", frame);
    SmallPair(PolicyReloadSuccess, "old_revision", previous, "new_revision", revision, frame);
    OneMember(PolicyReloadNoop, Member("policy_revision", Text(revision)), frame);
    TextMember("policy_revision", revision);
    TextMember("name", NameText(PolicyReloadNoop));
  }

  /** An event without fields is accepted. */
  lemma BareEventFits(name: SystemName, frame: nat)
    requires frame + 500 <= MAX_EVIDENCE_LINE_BYTES
    ensures CheckOf(name, [], frame) == Accepted
  {
    assert PayloadMembers(name, []) == [Member("name", Text(NameText(name)))];
    TextMember("name", NameText(name));
  }
}
