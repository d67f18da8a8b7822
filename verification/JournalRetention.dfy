/** What rotation takes away (journal.py): each commit overwrites nothing or exactly the last backup, and
    a line that reached a file is in none exactly when backups up to its place were overwritten. */
module JournalRetention {
  import opened Basics
  import opened Journal
  import opened JournalOrder
  import opened JournalFiles
  import opened JournalHandle
  import opened JournalCalm

  // ---------------------------------------------------------------- one call

  lemma {:induction false} DrainLinesOverwrite(s: State)
    requires |s.history.buffered| == |s.emergency.lines|
    ensures DrainLines(s).after.history.overwritten == s.history.overwritten
    decreases |s.emergency.lines|
  {
    if s.emergency.lines != [] {
      var w := WriteLine(s, s.emergency.lines[0], s.history.buffered[0]);
      if w.ok {
        DrainLinesOverwrite(w.after.(emergency := FirstGone(s.emergency),
                                     history := w.after.history.(buffered := s.history.buffered[1..])));
      }
    }
  }

  lemma {:induction false} TrimOverwrites(e: Emergency, h: History, bytes: nat, c: Settings)
    requires |h.buffered| == |e.lines|
    ensures Trim(e, h, bytes, c).1.overwritten == h.overwritten
    decreases |e.lines|
  {
    if (|e.lines| >= c.maxEvents || e.bytes + bytes > c.emergencyBytes) && e.lines != [] {
      TrimOverwrites(Emergency(e.lines[1..], e.bytes - Bytes(e.lines[0]), e.dropped + 1),
                     h.(buffered := h.buffered[1..], lost := h.lost + [h.buffered[0]]), bytes, c);
    }
  }

  /** What a rotation overwrites: nothing unless the flushed live file is full, synced and closed. */
  function RotateOverwrites(s: State): seq<Line>
    requires s.settings.backups >= 1
  {
    var flushed := FlushHandle(s);
    var t := flushed.after.(disk := Stat(flushed.after.disk).after);
    if !flushed.ok || !Stat(flushed.after.disk).ok || Size(t.disk.files[0]) < s.settings.maxBytes then [] else
      var synced := Sync(t, None);
      if synced.ok then RollOverwrites(synced.after) else []
  }

  function RollOverwrites(s: State): seq<Line>
    requires s.settings.backups >= 1
  {
    var closed := CloseHandle(s);
    if closed.ok then Overwritten(closed.after.disk, s.settings.backups) else []
  }

  lemma SyncOverwritesNothing(s: State, now: Option<int>)
    ensures Sync(s, now).after.history.overwritten == s.history.overwritten
    ensures forall i :: i > 0 ==> SlotOf(Sync(s, now).after.disk.files, i) == SlotOf(s.disk.files, i)
  {
  }

  lemma RollOverwritesExactly(s: State)
    requires s.settings.backups >= 1
    ensures Roll(s).after.history.overwritten == s.history.overwritten + RollOverwrites(s)
    ensures RollOverwrites(s) == [] || RollOverwrites(s) == SlotOf(s.disk.files, s.settings.backups)
  {
    NothingAfter(s.history.overwritten);
  }

  lemma RotateOverwritesExactly(s: State)
    requires s.settings.backups >= 1
    ensures MaybeRotate(s).after.history.overwritten == s.history.overwritten + RotateOverwrites(s)
    ensures RotateOverwrites(s) == [] || RotateOverwrites(s) == SlotOf(s.disk.files, s.settings.backups)
  {
    NothingAfter(s.history.overwritten);
    var flushed := FlushHandle(s);
    if flushed.ok {
      var t := flushed.after.(disk := Stat(flushed.after.disk).after);
      SyncOverwritesNothing(t, None);
      SyncUntouched(t, None);
      if Sync(t, None).ok {
        RollOverwritesExactly(Sync(t, None).after);
      }
    }
  }

  /** What appending a line overwrites: nothing unless it is written and the due sync done. */
  function AppendOverwrites(s: State, line: Line, index: nat): seq<Line>
    requires s.settings.backups >= 1
  {
    var written := WriteLine(s, line, index);
    if !written.ok || !MaybeFsync(written.after).ok then [] else RotateOverwrites(MaybeFsync(written.after).after)
  }

  /** What a call overwrites: only a commit while healthy can. */
  function CallOverwrites(s: State, c: Call): seq<Line>
    requires s.settings.backups >= 1
  {
    if !c.CommitCall? || !s.healthy then [] else
      AppendOverwrites(s.(history := s.history.(committed := s.history.committed + [c.line])), c.line,
                       |s.history.committed|)
  }

  lemma FsyncOverwritesNothing(s: State)
    ensures MaybeFsync(s).after.history.overwritten == s.history.overwritten
    ensures forall i :: i > 0 ==> SlotOf(MaybeFsync(s).after.disk.files, i) == SlotOf(s.disk.files, i)
  {
    SyncOverwritesNothing(s.(disk := Ticked(s.disk)), Some(Clock(s.disk)));
  }

  /** The part of an append behind its write: the due sync, the rotation and the emptied buffer. */
  lemma SettlingOverwrites(w: State)
    requires w.settings.backups >= 1 && w.emergency.lines == [] && w.history.buffered == [] && MaybeFsync(w).ok
    ensures var r := MaybeRotate(MaybeFsync(w).after);
      && r.after.history.overwritten == w.history.overwritten + RotateOverwrites(MaybeFsync(w).after)
      && r.after.emergency.lines == [] && r.after.history.buffered == []
      && DrainEmergency(r.after).after.history.overwritten == r.after.history.overwritten
    ensures var lost := RotateOverwrites(MaybeFsync(w).after);
      lost == [] || lost == SlotOf(w.disk.files, w.settings.backups)
  {
    FsyncUntouched(w);
    FsyncOverwritesNothing(w);
    RotatedState(MaybeFsync(w).after);
    RotateOverwritesExactly(MaybeFsync(w).after);
    FsyncOverwritesNothing(MaybeRotate(MaybeFsync(w).after).after);
  }

  lemma WriteOverwritesNothing(s: State, line: Line, index: nat)
    ensures var w := WriteLine(s, line, index).after;
      && w.history.overwritten == s.history.overwritten && w.settings == s.settings
      && w.emergency == s.emergency && w.history.buffered == s.history.buffered
      && forall i :: i > 0 ==> SlotOf(w.disk.files, i) == SlotOf(s.disk.files, i)
  {
  }

  lemma AppendOverwritesExactly(s: State, line: Line, index: nat)
    requires s.settings.backups >= 1 && s.emergency.lines == [] && s.history.buffered == []
    ensures AppendLine(s, line, index).after.history.overwritten
            == s.history.overwritten + AppendOverwrites(s, line, index)
    ensures AppendOverwrites(s, line, index) == []
            || AppendOverwrites(s, line, index) == SlotOf(s.disk.files, s.settings.backups)
  {
    NothingAfter(s.history.overwritten);
    WriteOverwritesNothing(s, line, index);
    var written := WriteLine(s, line, index);
    if written.ok {
      FsyncOverwritesNothing(written.after);
      if MaybeFsync(written.after).ok {
        SettlingOverwrites(written.after);
      }
    }
  }

  lemma BufferOverwritesNothing(s: State, line: Line, index: nat)
    requires |s.history.buffered| == |s.emergency.lines|
    ensures Buffer(s, line, index).history.overwritten == s.history.overwritten
  {
    TrimOverwrites(s.emergency, s.history, Bytes(line), s.settings);
  }

  /** Every call overwrites nothing, or exactly the last backup as it stood before the call; only a
      commit of a healthy journal overwrites at all. */
  lemma OverwritesExactly(s: State, c: Call)
    requires Sound(s)
    ensures Called(s, c).history.overwritten == s.history.overwritten + CallOverwrites(s, c)
    ensures CallOverwrites(s, c) == [] || CallOverwrites(s, c) == SlotOf(s.disk.files, s.settings.backups)
  {
    NothingAfter(s.history.overwritten);
    match c
    case CommitCall(line) =>
      var k := |s.history.committed|;
      var t := s.(history := s.history.(committed := s.history.committed + [line]));
      if !s.healthy {
        BufferOverwritesNothing(t, line, k);
      } else {
        var a := AppendLine(t, line, k);
        AppendOverwritesExactly(t, line, k);
        AppendLineKeepsBuffer(t, line, k);
        if !a.ok {
          BufferOverwritesNothing(a.after.(healthy := false), line, k);
        }
      }
    case MaintainCall =>
      if s.healthy {
        SyncOverwritesNothing(s.(disk := Ticked(s.disk)), None);
      } else {
        RecoverOverwritesNothing(s);
      }
    case FlushCall(_) =>
      if s.healthy {
        RefillOverwritesNothing(s);
      }
    case RecoverCall => RecoverOverwritesNothing(s);
  }

  lemma RefillOverwritesNothing(s: State)
    requires |s.history.buffered| == |s.emergency.lines|
    ensures DrainEmergency(s).after.history.overwritten == s.history.overwritten
    ensures Sync(DrainEmergency(s).after, None).after.history.overwritten == s.history.overwritten
  {
    DrainLinesOverwrite(s);
    FsyncOverwritesNothing(DrainLines(s).after);
    SyncOverwritesNothing(DrainEmergency(s).after, None);
  }

  lemma RecoverOverwritesNothing(s: State)
    requires Ready(s)
    ensures Recover(s).after.history.overwritten == s.history.overwritten
  {
    if !s.healthy && Reopened(s).ok {
      RefillOverwritesNothing(Reopened(s).after.(healthy := true));
    }
  }

  /** A rotation that fails after its first rename has overwritten the last backup for nothing. */
  lemma FailedRotationOverwrites(d: Disk, backups: nat)
    requires backups >= 2 && d.faults == [false, true]
    requires 0 in d.files && backups - 1 in d.files && backups in d.files
    ensures var r := Reshelve(d, backups);
      && !r.ok && r.after.files == Renamed(d.files, backups - 1, backups) && Overwritten(d, backups) == d.files[backups]
  {
    var moved := Rename(d, backups - 1, backups).after;
    assert moved.faults == [true] && 0 in moved.files;
    FailsNext(moved, backups - 2);
  }

  /** With nothing but a failure ahead the shift stops at the first file it finds, or finds none. */
  lemma {:induction false} FailsNext(d: Disk, index: nat)
    requires d.faults == [true]
    ensures var r := ShiftAll(d, index);
      r.after.files == d.files && (r.ok ==> r.after == d)
    decreases index
  {
    if index > 0 && index !in d.files {
      FailsNext(d, index - 1);
    }
  }

  // ---------------------------------------------------------------- whole runs

  /** The place of the stored line number `j` in everything ever in the files, minus what was
      overwritten: its place in what the files hold now, if it is not negative. */
  function PlaceOf(s: State, start: Files, j: nat): int {
    |Reading(start, s.settings.backups)| + j - |s.history.overwritten|
  }

  /** Line `p` is in a file. */
  ghost predicate InFile(s: State, start: Files, p: nat) {
    exists j :: 0 <= j < |s.history.stored| && s.history.stored[j] == p && PlaceOf(s, start, j) >= 0
  }

  /** Line `p` reached a file, and every backup it was in has been overwritten. */
  ghost predicate RotatedOut(s: State, start: Files, p: nat) {
    p in s.history.stored && !InFile(s, start, p)
  }

  /** What four lists with `a + b == c + d` tell of the element `k` of `b`. */
  lemma Behind<T>(a: seq<T>, b: seq<T>, c: seq<T>, d: seq<T>, k: nat)
    requires a + b == c + d && k < |b|
    ensures k + |a| - |c| < |d|
    ensures k + |a| >= |c| ==> b[k] == d[k + |a| - |c|]
    ensures k + |a| < |c| ==> b[k] == c[k + |a|]
  {
    assert (a + b)[k + |a|] == b[k];
    assert |a + b| == |c + d|;
  }

  /** Place `k` of what the files hold has a line that reached a file since the start, the one
      `PlaceOf` puts there, or one that was there at the start. */
  ghost predicate Holds(t: State, start: Files, lines: seq<Line>, k: nat) {
    var n := t.settings.backups;
    var at := k + |t.history.overwritten| - |Reading(start, n)|;
    && k < |Reading(t.disk.files, n)| && at < |t.history.stored|
    && (at >= 0 ==> t.history.stored[at] < |lines| && Reading(t.disk.files, n)[k] == lines[t.history.stored[at]])
    && (at < 0 ==> Reading(t.disk.files, n)[k] == Reading(start, n)[k + |t.history.overwritten|])
  }

  /** What the files hold, line by line: each line is at its place, and every place holds a line that
      was there at the start or reached a file since. */
  lemma Retained(s: State, calls: seq<Call>, k: nat)
    requires Started(s) && k < |Reading(AfterCalls(s, calls).disk.files, s.settings.backups)|
    ensures Holds(AfterCalls(s, calls), s.disk.files, LinesOf(calls), k) == true
  {
    FilesAreExact(s, calls);
    AllCommitted(s, calls);
    RetainedIn(AfterCalls(s, calls), s.disk.files, LinesOf(calls), k);
  }

  lemma RetainedIn(t: State, start: Files, lines: seq<Line>, k: nat)
    requires Below(t.history.stored, |lines|) && k < |Reading(t.disk.files, t.settings.backups)|
    requires t.history.overwritten + Reading(t.disk.files, t.settings.backups)
             == Reading(start, t.settings.backups) + LinesAt(lines, t.history.stored)
    ensures Holds(t, start, lines, k)
  {
    var n := t.settings.backups;
    Behind(t.history.overwritten, Reading(t.disk.files, n), Reading(start, n), LinesAt(lines, t.history.stored), k);
  }

  /** A line in a file stands where `PlaceOf` says. */
  lemma InFileMeans(s: State, calls: seq<Call>, j: nat)
    requires Started(s) && j < |AfterCalls(s, calls).history.stored|
    requires PlaceOf(AfterCalls(s, calls), s.disk.files, j) >= 0
    ensures var t, n := AfterCalls(s, calls), s.settings.backups;
      var k := PlaceOf(t, s.disk.files, j);
      && k < |Reading(t.disk.files, n)| && t.history.stored[j] < |LinesOf(calls)|
      && Reading(t.disk.files, n)[k] == LinesOf(calls)[t.history.stored[j]]
  {
    FilesAreExact(s, calls);
    var t := AfterCalls(s, calls);
    Retained(s, calls, PlaceOf(t, s.disk.files, j));
  }

  /** Line `p` is neither in a file nor waiting to get there, and it was not counted as dropped. */
  ghost predicate Nowhere(s: State, start: Files, p: nat) {
    !InFile(s, start, p) && p !in s.history.handed && p !in s.history.buffered && p !in s.history.lost
  }

  /** Over every run a committed line is nowhere, uncounted, in exactly two ways: a recovery's close
      failed while the handle alone held it, or it reached a file and rotation has overwritten it. */
  lemma NowhereExactly(s: State, calls: seq<Call>, p: nat)
    requires Started(s) && p < |LinesOf(calls)|
    ensures var t := AfterCalls(s, calls);
      Nowhere(t, s.disk.files, p) <==>
        Stranded(s, calls, p)
        || (RotatedOut(t, s.disk.files, p)
            && p !in t.history.handed && p !in t.history.buffered && p !in t.history.lost)
  {
    VanishesExactly(s, calls, p);
  }

  /** From every start, committing any one line often enough rotates its first commit out. */
  lemma RotatesOut(s: State, x: Line) returns (start: State, calls: seq<Call>)
    requires Started(s) && Bytes(x) >= 1
    ensures start == s.(disk := s.disk.(faults := [], spills := [])) && (forall c :: c in calls ==> c == CommitCall(x))
    ensures |LinesOf(calls)| > 0 && AfterCalls(start, calls).healthy
    ensures Nowhere(AfterCalls(start, calls), start.disk.files, 0)
  {
    var most;
    start, most := CalmStart(s);
    var top := s.settings.backups;
    var n := (top + 1) * most + 1;
    calls := Commits(x, n);
    var t := Flood(start, x, most, n);
    AllCommitted(start, calls);
    FilesAreExact(start, calls);
    ShortReading(t.disk.files, top, most);
    assert |t.history.overwritten| > |Reading(start.disk.files, top)|;
  }
}
