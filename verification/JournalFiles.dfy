/** What the files hold: what rotations overwrote, followed by the files read from the highest index
    down to the live one, is everything that ever reached a file, wherever a rotation stopped. */
module JournalFiles {
  import opened Basics
  import opened Journal
  import opened JournalOrder

  type Files = map<nat, seq<Line>>

  function SlotOf(files: Files, i: nat): seq<Line> { if i in files then files[i] else [] }

  /** The files from index `top` down to the live file. */
  function Reading(files: Files, top: nat): seq<Line> {
    if top == 0 then SlotOf(files, 0)
    else if top in files then files[top] + Reading(files, top - 1)
    else Reading(files, top - 1)
  }

  ghost predicate Within(files: Files, top: nat) { forall i :: i in files ==> i <= top }

  /** The files above index `top` are the same ones with the same contents. */
  ghost predicate SameAbove(a: Files, b: Files, top: nat) {
    forall i :: i > top ==> (i in a <==> i in b) && (i in a ==> b[i] == a[i])
  }

  // ---------------------------------------------------------------- one change of the files

  lemma {:induction false} ReadingAgrees(f: Files, g: Files, top: nat)
    requires forall i :: 0 <= i <= top ==> (i in f <==> i in g) && (i in f ==> f[i] == g[i])
    ensures Reading(f, top) == Reading(g, top)
    decreases top
  {
    if top > 0 {
      ReadingAgrees(f, g, top - 1);
    }
  }

  lemma {:induction false} ReadingAppends(files: Files, top: nat, lines: seq<Line>)
    requires 0 in files
    ensures Reading(files[0 := files[0] + lines], top) == Reading(files, top) + lines
    decreases top
  {
    if top > 0 {
      ReadingAppends(files, top - 1, lines);
      if top in files {
        assert files[top] + (Reading(files, top - 1) + lines) == files[top] + Reading(files, top - 1) + lines;
      }
    }
  }

  /** A move up into a free slot changes nothing that is read. */
  lemma {:induction false} MoveUp(files: Files, from: nat, top: nat)
    requires from in files && from + 1 !in files && from + 1 <= top
    ensures Reading(Renamed(files, from, from + 1), top) == Reading(files, top)
    decreases top
  {
    if top == from + 1 {
      MoveOver(files, from);
    } else {
      MoveUp(files, from, top - 1);
    }
  }

  /** A move up onto the last slot leaves what was below that slot. */
  lemma MoveOver(files: Files, from: nat)
    requires from in files
    ensures Reading(Renamed(files, from, from + 1), from + 1) == Reading(files, from)
  {
    var g := Renamed(files, from, from + 1);
    if from > 0 {
      ReadingAgrees(g, files, from - 1);
    } else {
      assert Reading(g, 0) == [];
    }
  }

  // ---------------------------------------------------------------- rotation

  /** The files up to `top` hold what they held before but for `lost` at the front; the others stay. */
  ghost predicate Loses(before: Files, after: Files, top: nat, lost: seq<Line>) {
    SameAbove(before, after, top) && Reading(before, top) == lost + Reading(after, top)
  }

  lemma LosesNothing(files: Files, top: nat)
    ensures Loses(files, files, top, [])
  {
    assert [] + Reading(files, top) == Reading(files, top);
  }

  lemma LosesTwice(a: Files, b: Files, c: Files, top: nat, x: seq<Line>, y: seq<Line>)
    requires Loses(a, b, top, x) && Loses(b, c, top, y)
    ensures Loses(a, c, top, x + y)
  {
    assert x + (y + Reading(c, top)) == x + y + Reading(c, top);
  }

  /** Renaming one file up, onto a free slot or onto the last one. */
  lemma RenameLoses(d: Disk, from: nat, top: nat) returns (lost: seq<Line>)
    requires from + 1 <= top && (from + 1 !in d.files || from + 1 == top)
    ensures Loses(d.files, Rename(d, from, from + 1).after.files, top, lost)
    ensures lost == if from + 1 == top then Overwritten(d, top) else []
    ensures Rename(d, from, from + 1).ok ==> from !in Rename(d, from, from + 1).after.files
  {
    lost := [];
    LosesNothing(d.files, top);
    if from in d.files && !Fails(d) {
      if from + 1 !in d.files {
        MoveUp(d.files, from, top);
      } else {
        MoveOver(d.files, from);
        lost := d.files[top];
      }
    }
  }

  lemma {:induction false} ShiftLoses(d: Disk, index: nat, top: nat) returns (r: Out<Disk>, lost: seq<Line>)
    requires index + 1 <= top && (index + 1 !in d.files || index + 1 == top)
    ensures r == ShiftAll(d, index) && Loses(d.files, r.after.files, top, lost)
    ensures lost == if index > 0 && index + 1 == top then Overwritten(d, top) else []
    ensures r.ok ==> 1 !in r.after.files || 1 == top
    decreases index
  {
    if index == 0 {
      r, lost := Out(d, true), [];
      LosesNothing(d.files, top);
    } else {
      var moved := Rename(d, index, index + 1);
      lost := RenameLoses(d, index, top);
      if moved.ok {
        var more;
        r, more := ShiftLoses(moved.after, index - 1, top);
        LosesTwice(d.files, moved.after.files, r.after.files, top, lost, more);
        assert lost + more == lost;
      } else {
        r := moved;
      }
    }
  }

  lemma OpenLoses(d: Disk, top: nat)
    ensures Loses(d.files, Open(d).after.files, top, [])
  {
    LosesNothing(d.files, top);
    if !Fails(d) && 0 !in d.files {
      EmptyLive(d.files, top);
    }
  }

  lemma {:induction false} EmptyLive(files: Files, top: nat)
    requires 0 !in files
    ensures Reading(files[0 := []], top) == Reading(files, top)
    decreases top
  {
    if top > 0 {
      EmptyLive(files, top - 1);
    }
  }

  /** However far a rotation gets, the files up to the backup count lose nothing, or exactly the last
      backup, overwritten by its very first rename; files above the count are not touched. */
  lemma ReshelveLoses(d: Disk, backups: nat)
    requires backups >= 1
    ensures Loses(d.files, Reshelve(d, backups).after.files, backups, Overwritten(d, backups))
  {
    var shifted, first := ShiftLoses(d, backups - 1, backups);
    if shifted.ok {
      var moved := Rename(shifted.after, 0, 1);
      var second := RenameLoses(shifted.after, 0, backups);
      LosesTwice(d.files, shifted.after.files, moved.after.files, backups, first, second);
      assert first + second == Overwritten(d, backups);
      OpenLoses(moved.after, backups);
      LosesTwice(d.files, moved.after.files, Open(moved.after).after.files, backups, first + second, []);
      assert first + second + [] == first + second;
    }
  }

  // ---------------------------------------------------------------- the invariant

  /** What could be read at the start, then everything that reached a file since. */
  function Everything(s: State, start: Files): seq<Line>
    requires forall i :: 0 <= i < |s.history.stored| ==> s.history.stored[i] < |s.history.committed|
  {
    Reading(start, s.settings.backups) + LinesAt(s.history.committed, s.history.stored)
  }

  /** The files hold everything but the backups that rotations overwrote, in order. */
  ghost predicate Kept(s: State, start: Files) {
    && s.settings.backups >= 1 && SameAbove(start, s.disk.files, s.settings.backups)
    && Below(s.history.stored, |s.history.committed|)
    && s.history.overwritten + Reading(s.disk.files, s.settings.backups) == Everything(s, start)
  }

  /** Only storage changed, and what is no longer there was recorded as overwritten. */
  lemma LosingKeeps(s: State, d: Disk, lost: seq<Line>, t: State, start: Files)
    requires Kept(s, start) && Loses(s.disk.files, d.files, s.settings.backups, lost)
    requires t == s.(disk := d, history := s.history.(overwritten := s.history.overwritten + lost))
    ensures Kept(t, start)
  {
    var top, before := s.settings.backups, s.history.overwritten;
    assert before + (lost + Reading(d.files, top)) == before + lost + Reading(d.files, top);
  }

  lemma SameFilesKept(s: State, t: State, start: Files)
    requires Kept(s, start) && t.settings == s.settings && t.disk.files == s.disk.files
    requires t.history.stored == s.history.stored && t.history.overwritten == s.history.overwritten
    requires |s.history.committed| <= |t.history.committed|
    requires t.history.committed[..|s.history.committed|] == s.history.committed
    ensures Kept(t, start)
  {
    assert LinesAt(t.history.committed, t.history.stored) == LinesAt(s.history.committed, s.history.stored);
  }

  lemma LinesJoin(committed: seq<Line>, a: seq<nat>, b: seq<nat>, lines: seq<Line>)
    requires Below(a, |committed|) && LinesAre(lines, b, committed)
    ensures Below(a + b, |committed|) && LinesAt(committed, a + b) == LinesAt(committed, a) + lines
  {
  }

  /** The handle's lines reach the file. */
  lemma LandingKeeps(s: State, t: State, start: Files)
    requires Kept(s, start) && Carried(s.disk, s.history)
    requires t.settings == s.settings && t.history == Landed(s.history) && t.disk.files == Settled(s.disk).files
    ensures Kept(t, start)
  {
    var h, top := s.history, s.settings.backups;
    LinesJoin(h.committed, h.stored, h.handed, s.disk.pending);
    assert Everything(t, start) == Everything(s, start) + s.disk.pending;
    if s.disk.pending == [] {
      assert Everything(s, start) + [] == Everything(s, start);
    } else {
      ReadingAppends(s.disk.files, top, s.disk.pending);
      var gone := s.history.overwritten;
      assert gone + (Reading(s.disk.files, top) + s.disk.pending) == gone + Reading(s.disk.files, top) + s.disk.pending;
    }
  }

  // ---------------------------------------------------------------- the writer's operations

  lemma FlushKept(s: State, start: Files)
    requires Kept(s, start) && Carried(s.disk, s.history)
    ensures Kept(FlushHandle(s).after, start)
  {
    if !Fails(s.disk) {
      LandingKeeps(s, FlushHandle(s).after, start);
    }
  }

  lemma CloseKept(s: State, start: Files)
    requires Kept(s, start) && Carried(s.disk, s.history)
    ensures Kept(CloseHandle(s).after, start)
  {
    if !Fails(s.disk) {
      LandingKeeps(s, CloseHandle(s).after, start);
    }
  }

  lemma SyncKept(s: State, now: Option<int>, start: Files)
    requires Kept(s, start) && Carried(s.disk, s.history)
    ensures Kept(Sync(s, now).after, start)
  {
    FlushKept(s, start);
    var flushed := FlushHandle(s);
    if flushed.ok {
      SyncSameFiles(s, now);
      SameFilesKept(flushed.after, Sync(s, now).after, start);
    }
  }

  lemma SyncSameFiles(s: State, now: Option<int>)
    requires FlushHandle(s).ok
    ensures var f, t := FlushHandle(s).after, Sync(s, now).after;
      t.disk.files == f.disk.files && t.history == f.history && t.settings == f.settings
  {
  }

  lemma FsyncKept(s: State, start: Files)
    requires Kept(s, start) && Carried(s.disk, s.history)
    ensures Kept(MaybeFsync(s).after, start)
  {
    var t := s.(disk := Ticked(s.disk));
    SyncKept(t, Some(Clock(s.disk)), start);
  }

  lemma WriteKept(s: State, line: Line, k: nat, start: Files)
    requires Kept(s, start) && Carried(s.disk, s.history) && 0 in s.disk.files
    requires k < |s.history.committed| && s.history.committed[k] == line
    ensures Kept(WriteLine(s, line, k).after, start)
  {
    var w := WriteLine(s, line, k);
    if w.ok {
      var h := s.history.(handed := s.history.handed + [k]);
      var t := s.(disk := s.disk.(pending := s.disk.pending + [line]), history := h);
      SameFilesKept(s, t, start);
      if w.after.disk.pending == [] {
        LandingKeeps(t, w.after, start);
      }
    }
  }

  /** However far a rotation gets; the handle is empty by then. */
  lemma RollKeeps(s: State, start: Files)
    requires Kept(s, start) && Carried(s.disk, s.history)
    ensures Kept(Roll(s).after, start)
  {
    CloseKept(s, start);
    var closed := CloseHandle(s);
    if closed.ok {
      var d, n := closed.after.disk, s.settings.backups;
      ReshelveLoses(d, n);
      LosingKeeps(closed.after, Reshelve(d, n).after, Overwritten(d, n), Roll(s).after, start);
    }
  }

  lemma RotateKept(s: State, start: Files)
    requires Kept(s, start) && Carried(s.disk, s.history)
    ensures Kept(MaybeRotate(s).after, start)
  {
    FlushKept(s, start);
    FlushOnward(s);
    var flushed := FlushHandle(s);
    if flushed.ok {
      var t := flushed.after.(disk := Stat(flushed.after.disk).after);
      SameFilesKept(flushed.after, t, start);
      if Stat(flushed.after.disk).ok && Size(t.disk.files[0]) >= s.settings.maxBytes {
        SyncKept(t, None, start);
        SyncOnward(t, None);
        if Sync(t, None).ok {
          RollKeeps(Sync(t, None).after, start);
        }
      }
    }
  }

  lemma {:induction false} DrainKept(s: State, start: Files)
    requires Kept(s, start) && 0 in s.disk.files && Mirrored(s.emergency, s.history) && Carried(s.disk, s.history)
    ensures Kept(DrainLines(s).after, start)
    decreases |s.emergency.lines|
  {
    if s.emergency.lines != [] {
      var k := s.history.buffered[0];
      WriteKept(s, s.emergency.lines[0], k, start);
      var w := WriteLine(s, s.emergency.lines[0], k);
      if w.ok {
        var t := w.after.(emergency := FirstGone(s.emergency),
          history := w.after.history.(buffered := s.history.buffered[1..]));
        OneMoved(s, w.after, t);
        SameFilesKept(w.after, t, start);
        DrainKept(t, start);
      }
    }
  }

  lemma DrainEmergencyKept(s: State, start: Files)
    requires Kept(s, start) && 0 in s.disk.files && Mirrored(s.emergency, s.history) && Carried(s.disk, s.history)
    ensures Kept(DrainEmergency(s).after, start)
  {
    DrainKept(s, start);
    DrainLinesKeep(s);
    FsyncKept(DrainLines(s).after, start);
  }

  // ---------------------------------------------------------------- the calls

  lemma AppendLineKept(s: State, line: Line, k: nat, start: Files)
    requires Kept(s, start) && k < |s.history.committed| && s.history.committed[k] == line
    requires 0 in s.disk.files && s.emergency.lines == [] && s.history.buffered == [] && Carried(s.disk, s.history)
    ensures Kept(AppendLine(s, line, k).after, start)
  {
    WriteKept(s, line, k, start);
    WriteMoves(s, line, k);
    var written := WriteLine(s, line, k);
    if written.ok {
      FsyncKept(written.after, start);
      FsyncOnward(written.after);
      var synced := MaybeFsync(written.after);
      if synced.ok {
        RotateKept(synced.after, start);
        RotatedState(synced.after);
      }
    }
  }

  lemma CommitKept(s: State, line: Line, start: Files)
    requires Kept(s, start) && Sound(s)
    ensures Kept(Commit(s, line), start)
  {
    var k := |s.history.committed|;
    var t := s.(history := s.history.(committed := s.history.committed + [line]));
    SameFilesKept(s, t, start);
    if !s.healthy {
      BufferKept(t, line, k, start);
    } else {
      var a := AppendLine(t, line, k);
      AppendLineKept(t, line, k, start);
      AppendLineKeepsBuffer(t, line, k);
      if !a.ok {
        BufferKept(a.after.(healthy := false), line, k, start);
      }
    }
  }

  lemma BufferKept(s: State, line: Line, k: nat, start: Files)
    requires |s.history.buffered| == |s.emergency.lines| && Kept(s, start)
    ensures Kept(Buffer(s, line, k), start)
  {
    TrimWritten(s.emergency, s.history, Bytes(line), s.settings);
    SameFilesKept(s, Buffer(s, line, k), start);
  }

  lemma {:induction false} TrimWritten(e: Emergency, h: History, bytes: nat, c: Settings)
    requires |h.buffered| == |e.lines|
    ensures Trim(e, h, bytes, c).1.stored == h.stored && Trim(e, h, bytes, c).1.committed == h.committed
    ensures Trim(e, h, bytes, c).1.overwritten == h.overwritten
    decreases |e.lines|
  {
    if (|e.lines| >= c.maxEvents || e.bytes + bytes > c.emergencyBytes) && e.lines != [] {
      TrimWritten(Emergency(e.lines[1..], e.bytes - Bytes(e.lines[0]), e.dropped + 1),
                  h.(buffered := h.buffered[1..], lost := h.lost + [h.buffered[0]]), bytes, c);
    }
  }

  lemma ReopenedKept(s: State, start: Files)
    requires Kept(s, start) && Carried(s.disk, s.history)
    ensures Kept(Reopened(s).after, start)
  {
    CloseKept(s, start);
    var closed := CloseHandle(s).after;
    OpenLoses(closed.disk, s.settings.backups);
    assert closed.history.overwritten + [] == closed.history.overwritten;
    LosingKeeps(closed, Open(closed.disk).after, [], Reopened(s).after, start);
  }

  lemma RecoverKept(s: State, start: Files)
    requires Kept(s, start) && Sound(s)
    ensures Kept(Recover(s).after, start)
  {
    if !s.healthy {
      ReopenedKept(s, start);
      ReopenedKeeps(s);
      var reopened := Reopened(s);
      if reopened.ok {
        var t := reopened.after.(healthy := true);
        DrainEmergencyKept(t, start);
        DrainEmergencyKeeps(t);
        SyncKept(DrainEmergency(t).after, None, start);
      }
    }
  }

  lemma CallKept(s: State, c: Call, start: Files)
    requires Kept(s, start) && Sound(s)
    ensures Kept(Called(s, c), start) == true
  {
    match c
    case CommitCall(line) => CommitKept(s, line, start);
    case MaintainCall =>
      if s.healthy {
        SyncKept(s.(disk := Ticked(s.disk)), None, start);
      } else {
        RecoverKept(s, start);
      }
    case FlushCall(_) =>
      if s.healthy {
        DrainEmergencyKept(s, start);
        DrainEmergencyKeeps(s);
        SyncKept(DrainEmergency(s).after, None, start);
      }
    case RecoverCall => RecoverKept(s, start);
  }

  lemma {:induction false} RunKept(s: State, calls: seq<Call>)
    requires Started(s)
    ensures Kept(AfterCalls(s, calls), s.disk.files) == true
    decreases |calls|
  {
    if calls == [] {
      assert Everything(s, s.disk.files) == Reading(s.disk.files, s.settings.backups);
    } else {
      RunKept(s, calls[..|calls| - 1]);
      CallKept(AfterCalls(s, calls[..|calls| - 1]), calls[|calls| - 1], s.disk.files);
    }
  }

  /** After any calls under any faults, rotations stopped anywhere included: what was in the live file
      and the backups up to the backup count at the start, and everything that reached a file since, is
      what rotations overwrote followed by what those files hold now, read from the highest index down;
      files above the count stay as they were. */
  lemma FilesAreExact(s: State, calls: seq<Call>)
    requires Started(s)
    ensures var t, n := AfterCalls(s, calls), s.settings.backups;
      && Below(t.history.stored, |LinesOf(calls)|)
      && t.history.overwritten + Reading(t.disk.files, n)
         == Reading(s.disk.files, n) + LinesAt(LinesOf(calls), t.history.stored)
      && SameAbove(s.disk.files, t.disk.files, n)
  {
    RunKept(s, calls);
    AllCommitted(s, calls);
  }
}
