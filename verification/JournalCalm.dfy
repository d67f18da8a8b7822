/** Runs of the journal without failures (journal.py): how much the files hold in them. */
module JournalCalm {
  import opened Basics
  import opened Journal
  import opened JournalOrder
  import opened JournalFiles

  /** How many more lines of at least one byte the live file may still take, the one that fills it
      included. */
  function Need(live: seq<Line>, maxBytes: nat): nat { Max(1, maxBytes - Size(live)) }

  ghost predicate Shorter(files: Files, top: nat, most: nat) {
    forall i :: 0 <= i <= top && i in files ==> |files[i]| <= most
  }

  /** No file up to `top` holds more than `most` lines, now or once the live file is full. */
  ghost predicate Short(files: Files, top: nat, most: nat, maxBytes: nat) {
    Shorter(files, top, most) && 0 in files && |files[0]| + Need(files[0], maxBytes) <= most
  }

  function Longest(files: Files, top: nat): (n: nat)
    ensures forall i :: 0 <= i <= top && i in files ==> |files[i]| <= n
  {
    Max(|SlotOf(files, top)|, if top == 0 then 0 else Longest(files, top - 1))
  }

  lemma {:induction false} ShortReading(files: Files, top: nat, most: nat)
    requires Shorter(files, top, most)
    ensures |Reading(files, top)| <= (top + 1) * most
    decreases top
  {
    if top > 0 {
      ShortReading(files, top - 1, most);
      assert (top + 1) * most == top * most + most;
    }
  }

  lemma {:induction false} CalmShift(d: Disk, index: nat, top: nat, most: nat)
    requires d.faults == [] && index < top && Shorter(d.files, top, most)
    ensures var r := ShiftAll(d, index);
      && r.ok && r.after == d.(files := r.after.files) && Shorter(r.after.files, top, most)
      && (0 in r.after.files <==> 0 in d.files) && (0 in d.files ==> r.after.files[0] == d.files[0])
    decreases index
  {
    if index > 0 {
      CalmShift(Rename(d, index, index + 1).after, index - 1, top, most);
    }
  }

  /** Without failures a rotation empties the live file and lengthens no other. */
  lemma CalmReshelve(d: Disk, backups: nat, most: nat)
    requires d.faults == [] && backups >= 1 && Shorter(d.files, backups, most) && 0 in d.files
    ensures var r := Reshelve(d, backups);
      && r.ok && r.after.faults == [] && r.after.spills == d.spills
      && Shorter(r.after.files, backups, most) && 0 in r.after.files && r.after.files[0] == []
  {
    CalmShift(d, backups - 1, backups, most);
  }

  /** No failures and no spills ahead; otherwise the same settings, buffer and health. */
  ghost predicate CalmAfter(s: State, t: State) {
    t.disk.faults == [] && t.disk.spills == s.disk.spills && Untouched(s, t)
  }

  lemma CalmSync(s: State, now: Option<int>)
    requires s.disk.faults == []
    ensures Sync(s, now).ok && CalmAfter(s, Sync(s, now).after)
    ensures Sync(s, now).after.disk.files == Settled(s.disk).files && Sync(s, now).after.disk.pending == []
    ensures Sync(s, now).after.history == Landed(s.history)
  {
  }

  lemma CalmFsync(s: State)
    requires s.disk.faults == []
    ensures var r := MaybeFsync(s);
      && r.ok && CalmAfter(s, r.after)
      && Settled(r.after.disk).files == Settled(s.disk).files && Landed(r.after.history) == Landed(s.history)
  {
    var t := s.(disk := Ticked(s.disk));
    CalmSync(t, Some(Clock(s.disk)));
    assert Landed(Landed(s.history)) == Landed(s.history);
  }

  lemma CalmRoll(s: State, most: nat)
    requires s.settings.backups >= 1 && s.disk.faults == [] && s.disk.pending == [] && s.history.handed == []
    requires 0 in s.disk.files && Shorter(s.disk.files, s.settings.backups, most)
    ensures var r := Roll(s);
      && r.ok && CalmAfter(s, r.after) && r.after.history == s.history.(overwritten := r.after.history.overwritten)
      && Shorter(r.after.disk.files, s.settings.backups, most)
      && 0 in r.after.disk.files && r.after.disk.files[0] == []
  {
    assert Landed(s.history) == s.history;
    CalmReshelve(CloseHandle(s).after.disk, s.settings.backups, most);
  }

  /** The live file is rotated away once it is full. */
  lemma CalmRotate(s: State, most: nat)
    requires s.settings.backups >= 1 && s.disk.faults == [] && most >= Max(1, s.settings.maxBytes)
    requires var files := Settled(s.disk).files;
      && 0 in files && Shorter(files, s.settings.backups, most)
      && (Size(files[0]) < s.settings.maxBytes ==> |files[0]| + Need(files[0], s.settings.maxBytes) <= most)
    ensures var r := MaybeRotate(s);
      && r.ok && CalmAfter(s, r.after)
      && r.after.history == Landed(s.history).(overwritten := r.after.history.overwritten)
      && Short(r.after.disk.files, s.settings.backups, most, s.settings.maxBytes)
  {
    var t := FlushHandle(s).after.(disk := Stat(FlushHandle(s).after.disk).after);
    CalmSync(t, None);
    assert Landed(Landed(s.history)) == Landed(s.history);
    if Size(t.disk.files[0]) >= s.settings.maxBytes {
      CalmRoll(Sync(t, None).after, most);
    }
  }

  /** A healthy writer with no failures and no spills ahead. */
  ghost predicate Calm(s: State, most: nat) {
    && Sound(s) && s.healthy && s.disk.faults == [] && s.disk.spills == []
    && Short(s.disk.files, s.settings.backups, most, s.settings.maxBytes)
    && most >= Max(1, s.settings.maxBytes)
  }

  lemma OneMore(live: seq<Line>, x: Line, most: nat, maxBytes: nat)
    requires Bytes(x) >= 1 && |live| + Need(live, maxBytes) <= most
    ensures |live + [x]| <= most
    ensures Size(live + [x]) < maxBytes ==> |live + [x]| + Need(live + [x], maxBytes) <= most
  {
    assert (live + [x])[..|live|] == live;
  }

  /** A commit stores its line, and no file grows beyond the bound. */
  lemma CalmCommit(s: State, x: Line, most: nat) returns (r: State)
    requires Calm(s, most) && Bytes(x) >= 1
    ensures r == Called(s, CommitCall(x)) && Calm(r, most) && r.settings == s.settings
    ensures r.history == s.history.(committed := s.history.committed + [x], overwritten := r.history.overwritten,
                                    stored := s.history.stored + [|s.history.committed|])
  {
    r := Commit(s, x);
    var k := |s.history.committed|;
    var t := s.(history := s.history.(committed := s.history.committed + [x]));
    CommitKeepsSound(s, x);
    var w := CalmWrite(t, x, k, most);
    CalmFsync(w);
    CalmRotate(MaybeFsync(w).after, most);
  }

  lemma CalmWrite(s: State, x: Line, k: nat, most: nat) returns (w: State)
    requires s.disk.faults == [] && s.disk.spills == [] && s.disk.pending == [] && s.history.handed == []
    requires Short(s.disk.files, s.settings.backups, most, s.settings.maxBytes) && Bytes(x) >= 1
    ensures WriteLine(s, x, k) == Out(w, true) && CalmAfter(s, w)
    ensures Landed(w.history) == s.history.(stored := s.history.stored + [k])
    ensures var files := Settled(w.disk).files;
      && 0 in files && Shorter(files, s.settings.backups, most)
      && (Size(files[0]) < s.settings.maxBytes ==> |files[0]| + Need(files[0], s.settings.maxBytes) <= most)
  {
    w := WriteLine(s, x, k).after;
    assert w.disk.pending == [x] && w.history.handed == [k];
    OneMore(s.disk.files[0], x, most, s.settings.maxBytes);
  }

  function Commits(x: Line, n: nat): seq<Call> { seq(n, _ => CommitCall(x)) }

  lemma LastCall(s: State, calls: seq<Call>, c: Call, all: seq<Call>, t: State)
    requires Started(s) && all == calls + [c] && t == Called(AfterCalls(s, calls), c)
    ensures AfterCalls(s, all) == t
  {
    assert all[..|all| - 1] == calls;
  }

  /** `n` commits of one line, all of them stored. */
  ghost predicate Flooded(h: History, x: Line, n: nat) {
    && h.committed == seq(n, _ => x) && h.stored == seq(n, i => i)
    && h.lost == h.handed == h.buffered == h.gone == []
  }

  lemma FloodedMore(h: History, x: Line, n: nat, t: History)
    requires Flooded(h, x, n)
    requires t == h.(committed := h.committed + [x], overwritten := t.overwritten, stored := h.stored + [|h.committed|])
    ensures Flooded(t, x, n + 1)
  {
    assert seq(n + 1, _ => x) == seq(n, _ => x) + [x];
  }

  /** Committing one line again and again: each is stored, and the files hold only so many. */
  lemma {:induction false} Flood(s: State, x: Line, most: nat, n: nat) returns (t: State)
    requires Started(s) && Calm(s, most) && Bytes(x) >= 1
    ensures t == AfterCalls(s, Commits(x, n)) && Calm(t, most) && t.settings == s.settings
    ensures Flooded(t.history, x, n)
    decreases n
  {
    if n == 0 {
      t := s;
    } else {
      var before := Flood(s, x, most, n - 1);
      t := CalmCommit(before, x, most);
      FloodedMore(before.history, x, n - 1, t.history);
      LastCall(s, Commits(x, n - 1), CommitCall(x), Commits(x, n), t);
    }
  }

  /** The same start with nothing failing, and a bound on its files. */
  lemma CalmStart(s: State) returns (start: State, most: nat)
    requires Started(s)
    ensures start == s.(disk := s.disk.(faults := [], spills := [])) && Started(start) && Calm(start, most)
  {
    start := s.(disk := s.disk.(faults := [], spills := []));
    most := Longest(s.disk.files, s.settings.backups) + s.settings.maxBytes + 1;
  }
}
