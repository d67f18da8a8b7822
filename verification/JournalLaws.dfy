/** What the journal's calls achieve when no operation fails, and the least it does when one did: which
    commit rotates and what that leaves in each file, what the emergency buffer drops, and recovery. */
module JournalLaws {
  import opened Basics
  import opened Journal
  import opened JournalOrder
  import opened JournalFiles
  import opened JournalCalm

  // ---------------------------------------------------------------- one rotation

  function Held(files: Files, i: nat): Option<seq<Line>> { if i in files then Some(files[i]) else None }

  /** What file `i` holds once the backups `index`, ..., 1 have moved up by one: what the backup before it
      held, if there was one. */
  function MovedUp(files: Files, index: nat, i: nat): Option<seq<Line>> {
    if i == 0 || i > index + 1 then Held(files, i)
    else if i >= 2 && i - 1 in files then Some(files[i - 1])
    else if i == index + 1 then Held(files, i)
    else None
  }

  lemma {:induction false} ShiftExactly(d: Disk, index: nat)
    requires d.faults == []
    ensures var r := ShiftAll(d, index);
      && r.ok && r.after.faults == [] && r.after.pending == d.pending
      && forall i: nat :: Held(r.after.files, i) == MovedUp(d.files, index, i)
    decreases index
  {
    if index > 0 {
      var moved := Rename(d, index, index + 1).after;
      ShiftExactly(moved, index - 1);
      forall i: nat ensures MovedUp(moved.files, index - 1, i) == MovedUp(d.files, index, i) {
        RenameSlots(d, index, i);
      }
    }
  }

  lemma RenameSlots(d: Disk, index: nat, i: nat)
    requires d.faults == [] && index > 0
    ensures Held(Rename(d, index, index + 1).after.files, i)
      == if index !in d.files then Held(d.files, i)
         else if i == index then None
         else if i == index + 1 then Held(d.files, index)
         else Held(d.files, i)
    ensures i >= 1 && i - 1 in Rename(d, index, index + 1).after.files <==>
      i >= 1 && (if index !in d.files then i - 1 in d.files
                 else i - 1 != index && (i - 1 == index + 1 || i - 1 in d.files))
  {
  }

  /** After a rotation with `n` backups the live file is empty, the first backup is the live file as it was,
      each other one is the backup before it, and files above are as they were. */
  ghost predicate Rotated(before: Files, after: Files, live: seq<Line>, n: nat)
    requires n >= 1
  {
    && Held(after, 0) == Some([]) && Held(after, 1) == Some(live)
    && forall i: nat :: i >= 2 ==> Held(after, i) == MovedUp(before, n - 1, i)
  }

  lemma ReshelveExactly(d: Disk, n: nat)
    requires d.faults == [] && n >= 1 && 0 in d.files
    ensures var r := Reshelve(d, n);
      r.ok && r.after.pending == d.pending && Rotated(d.files, r.after.files, d.files[0], n)
  {
    ShiftExactly(d, n - 1);
    var shifted, t := ShiftAll(d, n - 1).after, Reshelve(d, n).after;
    assert Held(shifted.files, 0) == MovedUp(d.files, n - 1, 0) == Some(d.files[0]);
    forall i: nat | i >= 2 ensures Held(t.files, i) == MovedUp(d.files, n - 1, i) {
      assert Held(shifted.files, i) == MovedUp(d.files, n - 1, i);
    }
  }

  // ---------------------------------------------------------------- one commit

  /** What a commit without failures leaves: the line is the last of the live file, unless that is full by
      then; a full live file is rotated away with it. */
  ghost predicate Appended(s: State, line: Line, t: State)
    requires 0 in s.disk.files && s.settings.backups >= 1
  {
    var live := s.disk.files[0] + [line];
    && t.healthy && t.disk.pending == []
    && (Size(live) < s.settings.maxBytes ==> t.disk.files == s.disk.files[0 := live])
    && (Size(live) >= s.settings.maxBytes ==> Rotated(s.disk.files, t.disk.files, live, s.settings.backups))
  }

  lemma WrittenCalm(s: State, line: Line, k: nat)
    requires s.disk.faults == [] && s.disk.pending == [] && 0 in s.disk.files
    ensures var w := WriteLine(s, line, k);
      && w.ok && w.after.disk.faults == [] && Untouched(s, w.after)
      && Settled(w.after.disk).files == s.disk.files[0 := s.disk.files[0] + [line]]
  {
    assert s.disk.pending + [line] == [line];
  }

  lemma RotateCalm(s: State, files: Files)
    requires s.disk.faults == [] && s.settings.backups >= 1 && files == Settled(s.disk).files && 0 in files
    ensures var r := MaybeRotate(s);
      && r.ok && r.after.disk.pending == [] && Untouched(s, r.after)
      && (Size(files[0]) < s.settings.maxBytes ==> r.after.disk.files == files)
      && (Size(files[0]) >= s.settings.maxBytes ==>
            Rotated(files, r.after.disk.files, files[0], s.settings.backups))
  {
    RotatedState(s);
    var t := FlushHandle(s).after.(disk := Stat(FlushHandle(s).after.disk).after);
    if Size(files[0]) >= s.settings.maxBytes {
      CalmSync(t, None);
      var synced := Sync(t, None).after;
      RollCalm(synced, files);
    }
  }

  lemma RollCalm(s: State, files: Files)
    requires s.disk.faults == [] && s.disk.pending == [] && s.settings.backups >= 1
    requires files == s.disk.files && 0 in files
    ensures Roll(s).ok && Roll(s).after.disk.pending == []
    ensures Rotated(files, Roll(s).after.disk.files, files[0], s.settings.backups)
  {
    ReshelveExactly(CloseHandle(s).after.disk, s.settings.backups);
  }

  /** A commit of a healthy journal when nothing fails, exactly: it rotates when the live file with the new line
      has reached the size limit, and only then. */
  lemma CommitExactly(s: State, line: Line)
    requires Sound(s) && s.healthy && s.disk.faults == []
    ensures Appended(s, line, Commit(s, line))
  {
    var k := |s.history.committed|;
    var t := s.(history := s.history.(committed := s.history.committed + [line]));
    WrittenCalm(t, line, k);
    var w := WriteLine(t, line, k).after;
    CalmFsync(w);
    FsyncUntouched(w);
    RotateCalm(MaybeFsync(w).after, s.disk.files[0 := s.disk.files[0] + [line]]);
    SameRotation(s.disk.files, s.disk.files[0 := s.disk.files[0] + [line]],
      MaybeRotate(MaybeFsync(w).after).after.disk.files, s.disk.files[0] + [line], s.settings.backups);
  }

  lemma SameRotation(a: Files, b: Files, after: Files, live: seq<Line>, n: nat)
    requires 0 in a && b == a[0 := live] && n >= 1
    ensures Rotated(b, after, live, n) ==> Rotated(a, after, live, n)
  {
    var index := n - 1;
    assert forall i: nat :: i >= 2 ==> MovedUp(b, index, i) == MovedUp(a, index, i);
  }

  // ---------------------------------------------------------------- the emergency buffer

  /** Too many lines for another one, or too many bytes for these more. */
  predicate Crowded(lines: seq<Line>, bytes: nat, c: Settings) {
    |lines| >= c.maxEvents || Size(lines) + bytes > c.emergencyBytes
  }

  /** Trimming drops the oldest lines, as few as make room: none while there is room, and each one dropped was
      in the way. */
  ghost predicate Trimmed(e: Emergency, h: History, bytes: nat, c: Settings, n: nat, after: (Emergency, History))
    requires |h.buffered| == |e.lines|
  {
    && n <= |e.lines| && after.0.lines == e.lines[n..] && after.0.dropped == e.dropped + n
    && after.1.lost == h.lost + h.buffered[..n]
    && (forall i :: 0 <= i < n ==> Crowded(e.lines[i..], bytes, c))
    && (n < |e.lines| ==> !Crowded(e.lines[n..], bytes, c))
  }

  lemma {:induction false} TrimExactly(e: Emergency, h: History, bytes: nat, c: Settings) returns (n: nat)
    requires |h.buffered| == |e.lines| && e.bytes == Size(e.lines)
    ensures Trimmed(e, h, bytes, c, n, Trim(e, h, bytes, c))
    decreases |e.lines|
  {
    assert e.lines[0..] == e.lines;
    if (|e.lines| >= c.maxEvents || e.bytes + bytes > c.emergencyBytes) && e.lines != [] {
      var rest := Emergency(e.lines[1..], e.bytes - Bytes(e.lines[0]), e.dropped + 1);
      var more := h.(buffered := h.buffered[1..], lost := h.lost + [h.buffered[0]]);
      SizeHead(e.lines);
      var m := TrimExactly(rest, more, bytes, c);
      n := m + 1;
      OneDropped(e, h, rest, more, bytes, c, m, Trim(e, h, bytes, c));
    } else {
      n := 0;
      NothingAfter(h.lost);
    }
  }

  lemma OneDropped(e: Emergency, h: History, rest: Emergency, more: History, bytes: nat, c: Settings, m: nat,
      after: (Emergency, History))
    requires |h.buffered| == |e.lines| && e.lines != [] && Crowded(e.lines, bytes, c)
    requires rest.lines == e.lines[1..] && rest.dropped == e.dropped + 1
    requires more.buffered == h.buffered[1..] && more.lost == h.lost + [h.buffered[0]]
    requires Trimmed(rest, more, bytes, c, m, after)
    ensures Trimmed(e, h, bytes, c, m + 1, after)
  {
    assert h.lost + h.buffered[..m + 1] == more.lost + more.buffered[..m];
    assert e.lines[m + 1..] == rest.lines[m..] && e.lines[0..] == e.lines;
    forall i | 0 <= i < m + 1 ensures Crowded(e.lines[i..], bytes, c) {
      if i > 0 {
        assert e.lines[i..] == rest.lines[i - 1..];
      }
    }
  }

  // ---------------------------------------------------------------- recovery

  lemma {:induction false} DrainCalm(s: State)
    requires s.disk.faults == [] && |s.history.buffered| == |s.emergency.lines|
    ensures var d := DrainLines(s);
      d.ok && d.after.emergency.lines == [] && d.after.disk.faults == [] && d.after.healthy == s.healthy
      && d.after.history.stored + d.after.history.handed == s.history.stored + s.history.handed + s.history.buffered
    decreases |s.emergency.lines|
  {
    NothingAfter(s.history.stored + s.history.handed);
    if s.emergency.lines != [] {
      var k := s.history.buffered[0];
      var w := WriteLine(s, s.emergency.lines[0], k);
      var t := w.after.(emergency := FirstGone(s.emergency),
                        history := w.after.history.(buffered := s.history.buffered[1..]));
      WrittenNext(s, s.emergency.lines[0], k);
      DrainCalm(t);
      assert s.history.stored + s.history.handed + s.history.buffered
        == (s.history.stored + s.history.handed + [k]) + s.history.buffered[1..];
    }
  }

  lemma WrittenNext(s: State, line: Line, k: nat)
    requires s.disk.faults == []
    ensures var w := WriteLine(s, line, k);
      w.ok && w.after.disk.faults == [] && w.after.healthy == s.healthy
      && w.after.history.stored + w.after.history.handed == s.history.stored + s.history.handed + [k]
  {
    assert (s.history.stored + (s.history.handed + [k])) + [] == s.history.stored + s.history.handed + [k];
    assert s.history.stored + (s.history.handed + [k]) == s.history.stored + s.history.handed + [k];
  }

  /** When nothing fails any more, the next maintenance or recovery makes an unhealthy journal healthy again and
      writes everything that was waiting, in order. */
  lemma FaultlessRecovers(s: State)
    requires Sound(s) && !s.healthy && s.disk.faults == []
    ensures var t := Maintain(s);
      && t == Recover(s).after && Recover(s).ok && t.healthy && t.emergency.lines == [] && t.disk.pending == []
      && t.history.stored == s.history.stored + s.history.handed + s.history.buffered
  {
    var t := Reopened(s).after.(healthy := true);
    NothingAfter(s.history.stored + s.history.handed);
    assert t.history.stored + t.history.handed == s.history.stored + s.history.handed;
    assert t.history.buffered == s.history.buffered && t.emergency == s.emergency;
    RefillCalm(t);
    var d := DrainEmergency(t).after;
    CalmSync(d, None);
    assert Landed(d.history).stored == d.history.stored + d.history.handed;
  }

  lemma RefillCalm(s: State)
    requires s.disk.faults == [] && |s.history.buffered| == |s.emergency.lines|
    ensures var d := DrainEmergency(s);
      d.ok && d.after.emergency.lines == [] && d.after.disk.faults == [] && d.after.healthy == s.healthy
      && d.after.history.stored + d.after.history.handed == s.history.stored + s.history.handed + s.history.buffered
  {
    if s.emergency.lines == [] {
      assert s.history.buffered == [];
      NothingAfter(s.history.stored + s.history.handed);
    } else {
      DrainCalm(s);
      CalmFsync(DrainLines(s).after);
      FsyncUntouched(DrainLines(s).after);
      FsyncLanding(DrainLines(s).after);
    }
  }

  lemma FsyncLanding(s: State)
    requires s.disk.faults == []
    ensures var r := MaybeFsync(s);
      r.after.history.stored + r.after.history.handed == s.history.stored + s.history.handed
  {
    NothingAfter(s.history.stored + s.history.handed);
  }
}
