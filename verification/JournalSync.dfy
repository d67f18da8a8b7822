/** When the journal's lines are safe (journal.py): what the sync variables say, when a due fsync happens,
    and that no line leaves the live file without one. */
module JournalSync {
  import opened Basics
  import opened Journal
  import opened JournalOrder
  import opened JournalMarker

  // ---------------------------------------------------------------- the invariant

  /** `unsynced` counts the bytes the handle took since the last successful fsync. */
  predicate Counted(s: State) { s.unsynced == Size(s.disk.safety.taken) }

  /** Nothing ever left the live file unsafe, and what is unsafe was taken since the last fsync. */
  predicate Careful(d: Disk) {
    d.safety.stray == [] && (d.safety.taken == [] ==> d.safety.loose == [] && d.pending == [])
  }

  predicate Kept(s: State) { Counted(s) && Careful(s.disk) }

  /** Everything the handle ever took and did not lose is in the files and safe. */
  predicate AllSafe(s: State) {
    s.disk.safety.taken == [] && s.disk.safety.loose == [] && s.disk.pending == [] && s.unsynced == 0
  }

  /** Every byte written is safe, or the last fsync is less than the interval before `now`. */
  predicate InTime(s: State, now: int) {
    Size(s.disk.safety.taken) == 0 || now - s.lastSync < s.settings.interval
  }

  /** `lastSync` stays as long as no fsync succeeds, and the handle only takes more; after one it is a
      reading of the clock. */
  ghost predicate Moves(s: State, t: State) {
    && t.settings == s.settings && Later(s.disk.times, t.disk.times)
    && Synced(s.disk.safety, t.disk.safety, s.lastSync, t.lastSync, s.disk.times)
  }

  ghost predicate Synced(s: Safety, t: Safety, before: int, after: int, times: seq<int>) {
    (t.fsyncs >= s.fsyncs
     && if t.fsyncs == s.fsyncs then after == before && Prefix(s.taken, t.taken) else Reading(times, after)) == true
  }

  /** What is still to be read from the clock was to be read before. */
  ghost predicate Later(before: seq<int>, after: seq<int>) { (forall t :: t in after ==> t in before) == true }

  predicate Reading(times: seq<int>, t: int) { t == 0 || t in times }

  lemma MovesTwice(s: State, t: State, u: State)
    requires Moves(s, t) && Moves(t, u)
    ensures Moves(s, u)
  {
    var a, b, c := s.disk.safety.taken, t.disk.safety.taken, u.disk.safety.taken;
    if u.disk.safety.fsyncs == s.disk.safety.fsyncs {
      assert c[..|a|] == c[..|b|][..|a|];
    }
  }

  /** No fsync succeeded, and the handle took nothing. */
  lemma Unmoved(s: State, t: State)
    requires t.settings == s.settings && t.lastSync == s.lastSync && Later(s.disk.times, t.disk.times)
    requires t.disk.safety.fsyncs == s.disk.safety.fsyncs && t.disk.safety.taken == s.disk.safety.taken
    ensures Moves(s, t)
  {
    assert s.disk.safety.taken[..|s.disk.safety.taken|] == s.disk.safety.taken;
  }

  // ---------------------------------------------------------------- the writer's operations

  lemma WriteSafety(s: State, line: Line, index: nat)
    requires Kept(s)
    ensures var w := WriteLine(s, line, index);
      Kept(w.after) && Moves(s, w.after) && w.after.lastSync == s.lastSync && w.after.disk.times == s.disk.times
  {
    var w, taken := WriteLine(s, line, index), s.disk.safety.taken;
    if w.ok {
      Written(s, line, index);
      SizeSnoc(taken, line);
      assert (taken + [line])[..|taken|] == taken;
    } else {
      Unmoved(s, w.after);
    }
  }

  lemma Written(s: State, line: Line, index: nat)
    requires WriteLine(s, line, index).ok
    ensures var t := WriteLine(s, line, index).after;
      && t.unsynced == s.unsynced + Bytes(line) && t.lastSync == s.lastSync && t.settings == s.settings
      && t.disk.times == s.disk.times && t.disk.safety.taken == s.disk.safety.taken + [line]
      && t.disk.safety.stray == s.disk.safety.stray && t.disk.safety.fsyncs == s.disk.safety.fsyncs
  {
  }

  lemma FlushSafety(s: State)
    requires Kept(s)
    ensures var f := FlushHandle(s);
      Kept(f.after) && Moves(s, f.after) && f.after.lastSync == s.lastSync
        && f.after.disk.safety.taken == s.disk.safety.taken
    ensures FlushHandle(s).ok ==> FlushHandle(s).after.disk.pending == []
  {
    Unmoved(s, FlushHandle(s).after);
  }

  lemma CloseSafety(s: State)
    requires Kept(s)
    ensures var c := CloseHandle(s);
      Kept(c.after) && Moves(s, c.after) && c.after.lastSync == s.lastSync && c.after.disk.pending == []
      && c.after.disk.safety.taken == s.disk.safety.taken
    ensures AllSafe(s) ==> AllSafe(CloseHandle(s).after)
  {
    Unmoved(s, CloseHandle(s).after);
  }

  /** The fsync behind a successful flush. */
  lemma FsyncSafety(f: State, now: Option<int>, times: seq<int>)
    requires Kept(f) && f.disk.pending == [] && (now.Some? ==> Reading(times, now.value)) && Later(times, f.disk.times)
    ensures var synced := Fsync(f.disk);
      && (!synced.ok ==> Kept(On(f, synced).after) && Moves(f, On(f, synced).after))
      && (synced.ok ==>
            var t := if now.Some? then f.(disk := synced.after, lastSync := now.value, unsynced := 0)
                     else f.(disk := Ticked(synced.after), lastSync := Clock(synced.after), unsynced := 0);
            Kept(t) && AllSafe(t) && Later(times, t.disk.times)
            && t.disk.safety.fsyncs > f.disk.safety.fsyncs && Reading(times, t.lastSync))
  {
    if Fails(f.disk) {
      Unmoved(f, On(f, Fsync(f.disk)).after);
    }
  }

  /** A sync that succeeds leaves nothing unsafe; one that fails leaves the time of the last one.  It is
      given a time that was read before, or reads one itself. */
  lemma SyncSafety(s: State, now: Option<int>, times: seq<int>)
    requires Kept(s) && (now.Some? ==> Reading(times, now.value)) && Later(times, s.disk.times)
    ensures var t := Sync(s, now);
      && Kept(t.after) && t.after.settings == s.settings && Later(times, t.after.disk.times)
      && Synced(s.disk.safety, t.after.disk.safety, s.lastSync, t.after.lastSync, times)
      && (t.ok ==> AllSafe(t.after))
  {
    FlushSafety(s);
    var f := FlushHandle(s);
    if f.ok {
      FsyncSafety(f.after, now, times);
    }
  }

  lemma SyncMoves(s: State)
    requires Kept(s)
    ensures var t := Sync(s, None); Kept(t.after) && Moves(s, t.after) && (t.ok ==> AllSafe(t.after))
  {
    SyncSafety(s, None, s.disk.times);
  }

  lemma TickSafety(s: State)
    requires Kept(s)
    ensures var t := s.(disk := Ticked(s.disk)); Kept(t) && Moves(s, t)
  {
  }

  /** The cadence: a due sync is done, so that afterwards everything is safe or the last one is recent. */
  lemma CadenceSafety(s: State)
    requires Kept(s)
    ensures var t := MaybeFsync(s); Kept(t.after) && Moves(s, t.after)
    ensures MaybeFsync(s).ok ==> InTime(MaybeFsync(s).after, Clock(s.disk))
  {
    TickSafety(s);
    if Clock(s.disk) - s.lastSync >= s.settings.interval {
      SyncSafety(s.(disk := Ticked(s.disk)), Some(Clock(s.disk)), s.disk.times);
    }
  }

  lemma {:induction false} ShiftSafety(d: Disk, index: nat)
    ensures ShiftAll(d, index).after.safety == d.safety && ShiftAll(d, index).after.pending == d.pending
    ensures ShiftAll(d, index).after.times == d.times
    decreases index
  {
    if index > 0 && Rename(d, index, index + 1).ok {
      ShiftSafety(Rename(d, index, index + 1).after, index - 1);
    }
  }

  /** A rotation moves the live file only when everything in it is safe. */
  lemma RollSafety(s: State)
    requires AllSafe(s) && Kept(s) && s.settings.backups >= 1
    ensures AllSafe(Roll(s).after) && Kept(Roll(s).after) && Moves(s, Roll(s).after)
  {
    CloseSafety(s);
    if CloseHandle(s).ok {
      ReshelveSafety(CloseHandle(s).after.disk, s.settings.backups);
      MovesTwice(s, CloseHandle(s).after, Rolled(CloseHandle(s).after));
    }
  }

  function Rolled(t: State): State
    requires t.settings.backups >= 1
  {
    t.(history := t.history.(overwritten := t.history.overwritten + Overwritten(t.disk, t.settings.backups)),
       disk := Reshelve(t.disk, t.settings.backups).after)
  }

  lemma ReshelveSafety(d: Disk, backups: nat)
    requires backups >= 1 && d.safety.loose == []
    ensures var t := Reshelve(d, backups).after;
      t.safety == d.safety && t.pending == d.pending && t.times == d.times
  {
    ShiftSafety(d, backups - 1);
    NothingAfter(d.safety.stray);
  }

  lemma RotateSafety(s: State, now: int)
    requires Kept(s) && InTime(s, now) && s.settings.backups >= 1
    ensures var t := MaybeRotate(s); Kept(t.after) && Moves(s, t.after) && (t.ok ==> InTime(t.after, now))
  {
    FlushSafety(s);
    var flushed := FlushHandle(s);
    if flushed.ok {
      var stat := Stat(flushed.after.disk);
      var t := flushed.after.(disk := stat.after);
      assert Kept(t) && Moves(s, t);
      if stat.ok && Size(t.disk.files[0]) >= s.settings.maxBytes {
        SyncMoves(t);
        MovesTwice(s, t, Sync(t, None).after);
        if Sync(t, None).ok {
          RollSafety(Sync(t, None).after);
          MovesTwice(s, Sync(t, None).after, Roll(Sync(t, None).after).after);
        }
      }
    }
  }

  lemma {:induction false} DrainSafety(s: State)
    requires Kept(s) && |s.history.buffered| == |s.emergency.lines|
    ensures Kept(DrainLines(s).after) && Moves(s, DrainLines(s).after)
    decreases |s.emergency.lines|
  {
    if s.emergency.lines != [] {
      var w := WriteLine(s, s.emergency.lines[0], s.history.buffered[0]);
      WriteSafety(s, s.emergency.lines[0], s.history.buffered[0]);
      if w.ok {
        var t := w.after.(emergency := FirstGone(s.emergency),
                          history := w.after.history.(buffered := s.history.buffered[1..]));
        DrainSafety(t);
        MovesTwice(s, t, DrainLines(t).after);
      }
    }
  }

  lemma RefillSafety(s: State)
    requires Kept(s) && |s.history.buffered| == |s.emergency.lines|
    ensures Kept(DrainEmergency(s).after) && Moves(s, DrainEmergency(s).after)
  {
    if s.emergency.lines != [] {
      DrainSafety(s);
      if DrainLines(s).ok {
        CadenceSafety(DrainLines(s).after);
        MovesTwice(s, DrainLines(s).after, DrainEmergency(s).after);
      }
    }
  }

  /** Draining and syncing, as a flush and a recovery do. */
  lemma RefillThenSync(s: State)
    requires Kept(s) && |s.history.buffered| == |s.emergency.lines|
    ensures var d := DrainEmergency(s); Kept(d.after) && Moves(s, d.after)
    ensures var t := Sync(DrainEmergency(s).after, None);
      Kept(t.after) && Moves(s, t.after) && (t.ok ==> AllSafe(t.after))
  {
    RefillSafety(s);
    SyncMoves(DrainEmergency(s).after);
    MovesTwice(s, DrainEmergency(s).after, Sync(DrainEmergency(s).after, None).after);
  }

  // ---------------------------------------------------------------- the calls

  lemma {:induction false} TrimSafety(s: State, line: Line, index: nat)
    requires |s.history.buffered| == |s.emergency.lines|
    ensures var t := Buffer(s, line, index);
      t.disk == s.disk && t.unsynced == s.unsynced && t.lastSync == s.lastSync && t.settings == s.settings
      && t.healthy == s.healthy
  {
  }

  /** Behind the write of a commit: the cadence, then the rotation. */
  lemma SettleSafety(w: State)
    requires Kept(w) && w.settings.backups >= 1
    ensures var synced := MaybeFsync(w);
      && Kept(synced.after) && Moves(w, synced.after)
      && (synced.ok ==>
            var t := MaybeRotate(synced.after);
            Kept(t.after) && Moves(w, t.after) && (t.ok ==> InTime(t.after, Clock(w.disk))))
  {
    CadenceSafety(w);
    var synced := MaybeFsync(w);
    if synced.ok {
      RotateSafety(synced.after, Clock(w.disk));
      MovesTwice(w, synced.after, MaybeRotate(synced.after).after);
    }
  }

  lemma AppendSafety(s: State, line: Line, index: nat)
    requires Kept(s) && s.settings.backups >= 1 && s.emergency.lines == [] && s.history.buffered == []
    ensures var a := AppendLine(s, line, index);
      Kept(a.after) && Moves(s, a.after) && (a.ok ==> InTime(a.after, Clock(s.disk)))
  {
    WriteSafety(s, line, index);
    var w := WriteLine(s, line, index);
    if w.ok {
      SettleSafety(w.after);
      MovesTwice(s, w.after, MaybeFsync(w.after).after);
      if MaybeFsync(w.after).ok {
        FsyncUntouched(w.after);
        RotatedState(MaybeFsync(w.after).after);
        MovesTwice(s, w.after, MaybeRotate(MaybeFsync(w.after).after).after);
      }
    }
  }

  lemma CommitSafety(s: State, line: Line)
    requires Kept(s) && Ready(s)
    ensures var t := Commit(s, line);
      Kept(t) && Moves(s, t) && (t.healthy ==> InTime(t, Clock(s.disk)))
  {
    var index := |s.history.committed|;
    var t := s.(history := s.history.(committed := s.history.committed + [line]));
    if !t.healthy {
      TrimSafety(t, line, index);
    } else {
      AppendSafety(t, line, index);
      AppendLineKeepsBuffer(t, line, index);
      var a := AppendLine(t, line, index);
      if !a.ok {
        TrimSafety(a.after.(healthy := false), line, index);
      }
    }
  }

  lemma RecoverSafety(s: State)
    requires Kept(s) && Ready(s)
    ensures var t := Recover(s);
      Kept(t.after) && Moves(s, t.after) && (!s.healthy && t.after.healthy ==> AllSafe(t.after))
  {
    if !s.healthy {
      CloseSafety(s);
      var reopened := Reopened(s);
      assert Kept(reopened.after) && Moves(s, reopened.after);
      if reopened.ok {
        var t := reopened.after.(healthy := true);
        RefillThenSync(t);
        MovesTwice(s, t, DrainEmergency(t).after);
        MovesTwice(s, t, Sync(DrainEmergency(t).after, None).after);
      }
    }
  }

  lemma MaintainSafety(s: State)
    requires Kept(s) && Ready(s)
    ensures var t := Maintain(s);
      Kept(t) && Moves(s, t) && (t.healthy && s.unsynced > 0 ==> InTime(t, Clock(s.disk)))
      && (t.healthy && !s.healthy ==> AllSafe(t))
      && (s.unsynced == 0 && s.healthy ==> t == s)
  {
    RecoverSafety(s);
    if s.healthy && s.unsynced != 0 {
      TickSafety(s);
      var t := s.(disk := Ticked(s.disk));
      SyncMoves(t);
      MovesTwice(s, t, Sync(t, None).after);
    }
  }

  lemma FlushCallSafety(s: State)
    requires Kept(s) && Ready(s)
    ensures var t := Flush(s); Kept(t) && Moves(s, t) && (t.healthy ==> AllSafe(t))
  {
    if s.healthy {
      RefillThenSync(s);
    }
  }

  lemma CallSafety(s: State, c: Call)
    requires Kept(s) && Sound(s)
    ensures Kept(Called(s, c)) && Moves(s, Called(s, c))
  {
    match c
    case CommitCall(line) => CommitSafety(s, line);
    case MaintainCall => MaintainSafety(s);
    case FlushCall(_) => FlushCallSafety(s);
    case RecoverCall => RecoverSafety(s);
  }

  // ---------------------------------------------------------------- whole runs

  /** A writer that has not written yet. */
  ghost predicate StartedSafe(s: State) {
    Started(s) && s.unsynced == 0 && s.disk.safety == NOTHING_WRITTEN
  }

  /** After any calls under any faults: the counter is the bytes taken since the last successful fsync,
      and no line ever left the live file before it was safe. */
  lemma {:induction false} UnsyncedExact(s: State, calls: seq<Call>)
    requires StartedSafe(s)
    ensures Counted(AfterCalls(s, calls)) && Careful(AfterCalls(s, calls).disk)
    decreases |calls|
  {
    if calls != [] {
      var front := calls[..|calls| - 1];
      UnsyncedExact(s, front);
      CallSafety(AfterCalls(s, front), calls[|calls| - 1]);
    }
  }

  /** Over every run: `lastSync` moves only when an fsync succeeds, and then to a reading of the clock. */
  lemma LastSyncMoves(s: State, calls: seq<Call>, c: Call)
    requires StartedSafe(s)
    ensures Moves(AfterCalls(s, calls), AfterCalls(s, calls + [c]))
  {
    UnsyncedExact(s, calls);
    assert (calls + [c])[..|calls|] == calls;
    CallSafety(AfterCalls(s, calls), c);
  }

  /** Over every run, for a clock that reads `now`: after a commit or a maintenance that ends healthy
      every byte written is safe, or the last fsync is less than the interval before `now`. */
  lemma CadenceKept(s: State, calls: seq<Call>, c: Call)
    requires StartedSafe(s) && (c.CommitCall? || c.MaintainCall?) && AfterCalls(s, calls + [c]).healthy
    ensures InTime(AfterCalls(s, calls + [c]), Clock(AfterCalls(s, calls).disk))
  {
    UnsyncedExact(s, calls);
    assert (calls + [c])[..|calls|] == calls;
    var t := AfterCalls(s, calls);
    if c.CommitCall? {
      CommitSafety(t, c.line);
    } else {
      MaintainInTime(t);
    }
  }

  lemma MaintainInTime(s: State)
    requires Kept(s) && Ready(s) && Maintain(s).healthy
    ensures InTime(Maintain(s), Clock(s.disk))
  {
    MaintainSafety(s);
  }

  /** After a flush that ends healthy everything is safe. */
  lemma FlushedIsSafe(s: State, calls: seq<Call>, markClean: bool)
    requires StartedSafe(s) && AfterCalls(s, calls + [FlushCall(markClean)]).healthy
    ensures AllSafe(AfterCalls(s, calls + [FlushCall(markClean)]))
  {
    UnsyncedExact(s, calls);
    assert (calls + [FlushCall(markClean)])[..|calls|] == calls;
    FlushCallSafety(AfterCalls(s, calls));
  }

  /** While the clean-stop marker stands, everything that was written is safe. */
  lemma {:induction false} CleanMeansSafe(s: State, calls: seq<Call>, clean: bool)
    requires StartedSafe(s) && CleanAfter(s, calls, clean)
    ensures AllSafe(AfterCalls(s, calls)) && AfterCalls(s, calls).healthy
    decreases |calls|
  {
    if calls != [] {
      var front, c := calls[..|calls| - 1], calls[|calls| - 1];
      assert front + [c] == calls;
      if c.FlushCall? {
        FlushedIsSafe(s, front, c.markClean);
      } else {
        CleanMeansSafe(s, front, clean);
        UnsyncedExact(s, front);
        MaintainSafety(AfterCalls(s, front));
      }
    }
  }
}
