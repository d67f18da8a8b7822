/** Commit order through failures: nothing is lost silently, and what is written followed by what is
    buffered is in commit order, each line at most twice. */
module JournalOrder {
  import opened Basics
  import opened Journal

  // ---------------------------------------------------------------- positions in commit order

  /** Non-decreasing, and no position three times. */
  ghost predicate Steady(c: seq<nat>) {
    && (forall i, j :: 0 <= i < j < |c| ==> c[i] <= c[j])
    && (forall i, j :: 0 <= i && i + 2 <= j < |c| ==> c[i] < c[j])
  }

  /** Position `k` may be appended: everything is below it, except that it may be there once, last. */
  ghost predicate Room(c: seq<nat>, k: nat) {
    && (forall i :: 0 <= i < |c| ==> c[i] <= k)
    && (forall i :: 0 <= i < |c| - 1 ==> c[i] < k)
  }

  lemma AppendSteady(c: seq<nat>, k: nat)
    requires Steady(c) && Room(c, k)
    ensures Steady(c + [k])
  {
  }

  ghost predicate Below(c: seq<nat>, n: nat) { forall i :: 0 <= i < |c| ==> c[i] < n }

  lemma RemoveSteady(a: seq<nat>, x: seq<nat>, b: seq<nat>, k: nat, n: nat)
    requires Steady(a + x + b) && Below(a + x + b, n)
    ensures Steady(a + b) && Below(a + b, n)
    ensures Room(a + x + b, k) ==> Room(a + b, k)
  {
    var c, d := a + x + b, a + b;
    assert forall i :: 0 <= i < |d| ==> d[i] == c[if i < |a| then i else i + |x|];
  }

  /** Adjacent repeats removed. */
  function Collapse(c: seq<nat>): (r: seq<nat>)
    ensures c != [] ==> r != [] && r[|r| - 1] == c[|c| - 1]
    ensures forall i :: 0 <= i < |r| ==> r[i] in c
  {
    if c == [] then [] else
      var rest := Collapse(c[..|c| - 1]);
      if |c| > 1 && c[|c| - 2] == c[|c| - 1] then rest else rest + [c[|c| - 1]]
  }

  lemma {:induction false} CollapsedIncreases(c: seq<nat>)
    requires forall i, j :: 0 <= i < j < |c| ==> c[i] <= c[j]
    ensures forall i, j :: 0 <= i < j < |Collapse(c)| ==> Collapse(c)[i] < Collapse(c)[j]
  {
    if c != [] {
      var n := |c| - 1;
      var rest := Collapse(c[..n]);
      CollapsedIncreases(c[..n]);
      if n > 0 && c[n - 1] != c[n] {
        forall i | 0 <= i < |rest| ensures rest[i] < c[n] {
          assert rest[i] <= rest[|rest| - 1];
          assert rest[|rest| - 1] == c[n - 1];
        }
      }
    }
  }

  function LinesAt(committed: seq<Line>, at: seq<nat>): seq<Line>
    requires forall i :: 0 <= i < |at| ==> at[i] < |committed|
  {
    seq(|at|, i requires 0 <= i < |at| => committed[at[i]])
  }

  // ---------------------------------------------------------------- the invariant

  /** What reached a file, then what the handle has, then what is buffered. */
  function Combined(h: History): seq<nat> { h.stored + h.handed + h.buffered }

  ghost predicate Ordered(h: History) {
    Steady(Combined(h)) && Below(Combined(h), |h.committed|)
  }

  /** Position `k` reached a file, is in the handle or buffered, or was counted as dropped. */
  ghost predicate Accounted(h: History, k: nat) { k in Combined(h) || k in h.lost }

  /** Every committed position is accounted for, or went away with a handle. */
  ghost predicate Covered(h: History) {
    forall k :: 0 <= k < |h.committed| ==> Accounted(h, k) || k in h.gone
  }

  /** `lines` are the committed lines at the positions `at`. */
  ghost predicate LinesAre(lines: seq<Line>, at: seq<nat>, committed: seq<Line>) {
    |lines| == |at| && forall i :: 0 <= i < |at| ==> at[i] < |committed| && lines[i] == committed[at[i]]
  }

  /** The buffer holds the lines at the buffered positions and counts what it dropped. */
  ghost predicate Mirrored(e: Emergency, h: History) {
    LinesAre(e.lines, h.buffered, h.committed) && |h.lost| == e.dropped
  }

  /** The handle holds the lines at the handed positions, and the live file is there while it does. */
  ghost predicate Carried(d: Disk, h: History) {
    LinesAre(d.pending, h.handed, h.committed) && (d.pending != [] ==> 0 in d.files)
  }

  /** The parts of `Sound` that do not mention health. */
  ghost predicate Logged(s: State) {
    && s.settings.backups >= 1 && Ordered(s.history) && Covered(s.history)
    && Mirrored(s.emergency, s.history) && Carried(s.disk, s.history)
  }

  /** Between two calls: a healthy writer has nothing in its handle. */
  ghost predicate Sound(s: State) {
    Ready(s) && Logged(s) && (s.healthy ==> s.history.handed == [])
  }

  // ---------------------------------------------------------------- operations that only touch storage

  /** What the handle held may have reached the file, and backups may have been overwritten. */
  ghost predicate Later(h: History, t: History) {
    t == h.(overwritten := t.overwritten) || t == Landed(h).(overwritten := t.overwritten)
  }

  /** Only the disk, the sync bookkeeping and where lines are stored differ. */
  ghost predicate Onward(s: State, t: State) {
    && t.settings == s.settings && t.healthy == s.healthy && t.emergency == s.emergency
    && Later(s.history, t.history) && Carried(t.disk, t.history)
  }

  lemma OnwardTwice(s: State, t: State, u: State)
    requires Onward(s, t) && Onward(t, u)
    ensures Onward(s, u)
  {
    assert Landed(Landed(s.history)) == Landed(s.history);
  }

  /** The order of what was written and buffered, and what is accounted for, stay. */
  lemma OnwardKeeps(s: State, t: State)
    requires Logged(s) && Onward(s, t)
    ensures Logged(t) && Combined(t.history) == Combined(s.history)
  {
    SameAccount(s.history, t.history);
  }

  lemma SameAccount(h: History, t: History)
    requires Later(h, t)
    ensures Combined(t) == Combined(h)
  {
  }

  lemma FlushOnward(s: State)
    requires Carried(s.disk, s.history)
    ensures Onward(s, FlushHandle(s).after)
    ensures FlushHandle(s).ok ==> FlushHandle(s).after.history.handed == []
    ensures FlushHandle(s).after.disk.held == s.disk.held
    ensures 0 in s.disk.files ==> 0 in FlushHandle(s).after.disk.files
  {
  }

  lemma SyncOnward(s: State, now: Option<int>)
    requires Carried(s.disk, s.history)
    ensures Onward(s, Sync(s, now).after)
    ensures Sync(s, now).ok ==> Sync(s, now).after.history.handed == []
    ensures Sync(s, now).after.disk.held == s.disk.held
    ensures 0 in s.disk.files ==> 0 in Sync(s, now).after.disk.files
  {
    FlushOnward(s);
  }

  lemma FsyncOnward(s: State)
    requires Carried(s.disk, s.history)
    ensures Onward(s, MaybeFsync(s).after)
    ensures s.history.handed == [] ==> MaybeFsync(s).after.history.handed == []
    ensures MaybeFsync(s).after.disk.held == s.disk.held
    ensures 0 in s.disk.files ==> 0 in MaybeFsync(s).after.disk.files
  {
    var t := s.(disk := Ticked(s.disk));
    SyncOnward(t, Some(Clock(s.disk)));
    OnwardTwice(s, t, MaybeFsync(s).after);
  }

  lemma {:induction false} ShiftHolds(d: Disk, index: nat)
    ensures ShiftAll(d, index).after.pending == d.pending
    decreases index
  {
    if index > 0 {
      var moved := Rename(d, index, index + 1);
      if moved.ok {
        ShiftHolds(moved.after, index - 1);
      }
    }
  }

  /** Rolling an empty handle loses nothing. */
  lemma RollOnward(s: State)
    requires s.settings.backups >= 1 && Carried(s.disk, s.history) && s.history.handed == []
    ensures Onward(s, Roll(s).after)
    ensures Roll(s).after.history == s.history.(overwritten := Roll(s).after.history.overwritten)
  {
    var closed := CloseHandle(s);
    assert closed.after.history == s.history;
    ShiftHolds(closed.after.disk, s.settings.backups - 1);
  }

  lemma RotateOnward(s: State)
    requires s.settings.backups >= 1 && Carried(s.disk, s.history)
    ensures Onward(s, MaybeRotate(s).after)
    ensures MaybeRotate(s).ok ==> MaybeRotate(s).after.history.handed == []
  {
    FlushOnward(s);
    var flushed := FlushHandle(s);
    if flushed.ok {
      var t := flushed.after.(disk := Stat(flushed.after.disk).after);
      OnwardTwice(s, flushed.after, t);
      if Stat(flushed.after.disk).ok && Size(t.disk.files[0]) >= s.settings.maxBytes {
        SyncOnward(t, None);
        OnwardTwice(s, t, Sync(t, None).after);
        if Sync(t, None).ok {
          RollOnward(Sync(t, None).after);
          OnwardTwice(s, Sync(t, None).after, MaybeRotate(s).after);
        }
      }
    }
  }

  // ---------------------------------------------------------------- the buffer

  ghost predicate Trimmed(h: History, h': History) {
    && h' == h.(buffered := h'.buffered, lost := h'.lost)
    && (forall p :: p in h.buffered || p in h.lost ==> p in h'.buffered || p in h'.lost)
  }

  lemma {:induction false} TrimKeeps(e: Emergency, h: History, bytes: nat, c: Settings, k: nat)
    returns (e': Emergency, h': History)
    requires Mirrored(e, h) && Ordered(h) && Room(Combined(h), k)
    ensures (e', h') == Trim(e, h, bytes, c)
    ensures Mirrored(e', h') && Ordered(h') && Room(Combined(h'), k) && Trimmed(h, h')
    decreases |e.lines|
  {
    if (|e.lines| >= c.maxEvents || e.bytes + bytes > c.emergencyBytes) && e.lines != [] {
      var h1 := h.(buffered := h.buffered[1..], lost := h.lost + [h.buffered[0]]);
      var e1 := Emergency(e.lines[1..], e.bytes - Bytes(e.lines[0]), e.dropped + 1);
      var front := h.stored + h.handed;
      assert Combined(h) == front + [h.buffered[0]] + h.buffered[1..];
      RemoveSteady(front, [h.buffered[0]], h.buffered[1..], k, |h.committed|);
      e', h' := TrimKeeps(e1, h1, bytes, c, k);
      OldestLost(h, h1);
    } else {
      e', h' := e, h;
    }
  }

  lemma OldestLost(h: History, h1: History)
    requires h.buffered != [] && h1.buffered == h.buffered[1..] && h1.lost == h.lost + [h.buffered[0]]
    ensures forall p :: p in h.buffered || p in h.lost ==> p in h1.buffered || p in h1.lost
  {
    assert h.buffered == [h.buffered[0]] + h.buffered[1..];
  }

  lemma TrimmedAccount(h: History, h': History, p: nat)
    requires Trimmed(h, h') && Accounted(h, p)
    ensures Accounted(h', p)
  {
  }

  /** Buffering the committed line `k`: it is the newest, and written at most once so far. */
  lemma BufferKeeps(s: State, line: Line, k: nat)
    requires Mirrored(s.emergency, s.history) && Ordered(s.history) && Room(Combined(s.history), k)
    requires k < |s.history.committed| && s.history.committed[k] == line && Carried(s.disk, s.history)
    requires forall p :: 0 <= p < |s.history.committed| && p != k ==> Accounted(s.history, p) || p in s.history.gone
    requires !s.healthy && s.settings.backups >= 1
    ensures Sound(Buffer(s, line, k))
    ensures Buffer(s, line, k).settings == s.settings && Buffer(s, line, k).disk == s.disk
    ensures var h := Buffer(s, line, k).history;
      h == s.history.(buffered := h.buffered, lost := h.lost)
  {
    var e, h := TrimKeeps(s.emergency, s.history, Bytes(line), s.settings, k);
    AppendSteady(Combined(h), k);
    var t := Buffer(s, line, k);
    assert Combined(t.history) == Combined(h) + [k];
    forall p | 0 <= p < |t.history.committed| ensures Accounted(t.history, p) || p in t.history.gone {
      if p != k && p !in s.history.gone {
        TrimmedAccount(s.history, h, p);
      }
    }
  }

  // ---------------------------------------------------------------- draining

  /** A prefix of the buffer has moved on: the order of everything stays. */
  ghost predicate Moved(s: State, t: State) {
    && Mirrored(t.emergency, t.history) && Carried(t.disk, t.history) && Combined(t.history) == Combined(s.history)
    && t.history.committed == s.history.committed && t.history.lost == s.history.lost
      && t.history.gone == s.history.gone
    && t.settings == s.settings && t.healthy == s.healthy && t.disk.held == s.disk.held && 0 in t.disk.files
  }

  /** Handing a line over appends it to what was written. */
  lemma WriteMoves(s: State, line: Line, k: nat)
    requires Carried(s.disk, s.history) && 0 in s.disk.files
    requires k < |s.history.committed| && s.history.committed[k] == line
    ensures var w := WriteLine(s, line, k);
      && Carried(w.after.disk, w.after.history) && 0 in w.after.disk.files && w.after.disk.held == s.disk.held
      && w.after.settings == s.settings && w.after.healthy == s.healthy && w.after.emergency == s.emergency
      && w.after.history == s.history.(stored := w.after.history.stored, handed := w.after.history.handed)
      && w.after.history.stored + w.after.history.handed
        == s.history.stored + s.history.handed + (if w.ok then [k] else [])
  {
    assert s.history.stored + (s.history.handed + [k]) == s.history.stored + s.history.handed + [k];
  }

  /** The state after the first buffered line was written and left the buffer. */
  lemma OneMoved(s: State, w: State, t: State)
    requires Mirrored(s.emergency, s.history) && Carried(s.disk, s.history)
    requires 0 in s.disk.files && s.emergency.lines != []
    requires WriteLine(s, s.emergency.lines[0], s.history.buffered[0]) == Out(w, true)
    requires t == w.(emergency := FirstGone(s.emergency), history := w.history.(buffered := s.history.buffered[1..]))
    ensures Moved(s, t) == true
  {
    var k := s.history.buffered[0];
    WriteMoves(s, s.emergency.lines[0], k);
    assert s.history.buffered == [k] + s.history.buffered[1..];
    var front := s.history.stored + s.history.handed;
    assert Combined(t.history) == (front + [k]) + s.history.buffered[1..];
    assert Combined(s.history) == front + ([k] + s.history.buffered[1..]);
  }

  lemma MovedTwice(s: State, t: State, u: State)
    requires Moved(s, t) && Moved(t, u)
    ensures Moved(s, u)
  {
  }

  /** Draining moves lines from the buffer to the handle and the file. */
  lemma {:induction false} DrainLinesKeep(s: State)
    requires Mirrored(s.emergency, s.history) && Carried(s.disk, s.history) && 0 in s.disk.files
    ensures Moved(s, DrainLines(s).after) == true
    ensures DrainLines(s).ok ==> DrainLines(s).after.emergency.lines == []
    decreases |s.emergency.lines|
  {
    if s.emergency.lines != [] {
      var w := WriteLine(s, s.emergency.lines[0], s.history.buffered[0]);
      if w.ok {
        var t := w.after.(emergency := FirstGone(s.emergency),
          history := w.after.history.(buffered := s.history.buffered[1..]));
        OneMoved(s, w.after, t);
        DrainLinesKeep(t);
        MovedTwice(s, t, DrainLines(t).after);
      } else {
        WriteMoves(s, s.emergency.lines[0], s.history.buffered[0]);
      }
    }
  }

  lemma MovedKeeps(s: State, t: State)
    requires Logged(s) && Moved(s, t)
    ensures Logged(t)
  {
    forall k | 0 <= k < |t.history.committed| ensures Accounted(t.history, k) || k in t.history.gone {
      assert Accounted(s.history, k) || k in s.history.gone;
    }
  }

  lemma OnwardMoves(s: State, t: State, u: State)
    requires Moved(s, t) && Onward(t, u) && 0 in u.disk.files && u.disk.held == t.disk.held
    ensures Moved(s, u)
  {
    SameAccount(t.history, u.history);
  }

  lemma DrainEmergencyKeeps(s: State)
    requires Logged(s) && 0 in s.disk.files
    ensures Moved(s, DrainEmergency(s).after) && Logged(DrainEmergency(s).after)
    ensures DrainEmergency(s).ok ==> DrainEmergency(s).after.emergency.lines == []
  {
    if s.emergency.lines != [] {
      DrainLinesKeep(s);
      var t := DrainLines(s).after;
      FsyncOnward(t);
      if DrainLines(s).ok {
        OnwardMoves(s, t, MaybeFsync(t).after);
      }
    }
    MovedKeeps(s, DrainEmergency(s).after);
  }

  // ---------------------------------------------------------------- the calls

  /** Whatever fails, the line is handed over at most once by its commit, and nothing goes away. */
  lemma AppendLineResult(s: State, line: Line, k: nat)
    requires s.settings.backups >= 1 && 0 in s.disk.files && s.disk.held && s.emergency.lines == []
      && s.history.buffered == []
    requires Carried(s.disk, s.history) && k < |s.history.committed| && s.history.committed[k] == line
    ensures var a := AppendLine(s, line, k);
      && Carried(a.after.disk, a.after.history)
      && a.after.history == s.history.(stored := a.after.history.stored, handed := a.after.history.handed,
                                       overwritten := a.after.history.overwritten)
      && (Combined(a.after.history) == Combined(s.history) || Combined(a.after.history) == Combined(s.history) + [k])
      && a.after.settings == s.settings && a.after.emergency == s.emergency && a.after.healthy == s.healthy
      && (a.ok ==> Combined(a.after.history) == Combined(s.history) + [k] && a.after.history.handed == []
                   && 0 in a.after.disk.files && a.after.disk.held)
  {
    var written := WriteLine(s, line, k);
    WriteMoves(s, line, k);
    if written.ok {
      SettleAfterWrite(written.after);
    }
  }

  /** The due sync and the rotation after a write. */
  lemma SettleAfterWrite(w: State)
    requires w.settings.backups >= 1 && Carried(w.disk, w.history)
    ensures var synced := MaybeFsync(w);
      && Onward(w, synced.after) && Combined(synced.after.history) == Combined(w.history)
      && (synced.ok ==>
            var rotated := MaybeRotate(synced.after);
            && Onward(w, rotated.after) && Combined(rotated.after.history) == Combined(w.history)
            && (rotated.ok ==> rotated.after.history.handed == [] && 0 in rotated.after.disk.files
                               && (w.disk.held ==> rotated.after.disk.held)))
  {
    var synced := MaybeFsync(w);
    FsyncOnward(w);
    SameAccount(w.history, synced.after.history);
    if synced.ok {
      RotateOnward(synced.after);
      RotatedState(synced.after);
      OnwardTwice(w, synced.after, MaybeRotate(synced.after).after);
      SameAccount(w.history, MaybeRotate(synced.after).after.history);
    }
  }

  lemma CommitKeepsSound(s: State, line: Line)
    requires Sound(s)
    ensures Sound(Commit(s, line)) == true
    ensures Commit(s, line).history.committed == s.history.committed + [line]
    ensures Commit(s, line).settings == s.settings && Commit(s, line).history.gone == s.history.gone
  {
    var k := |s.history.committed|;
    var t := s.(history := s.history.(committed := s.history.committed + [line]));
    if !s.healthy {
      BufferKeeps(t, line, k);
    } else {
      var a := AppendLine(t, line, k);
      AppendLineResult(t, line, k);
      Written(s.history, line, a.after.history);
      if !a.ok {
        BufferKeeps(a.after.(healthy := false), line, k);
      }
    }
  }

  /** History after a healthy commit, whether or not the write happened. */
  lemma Written(h: History, line: Line, t: History)
    requires Ordered(h) && Covered(h) && h.buffered == []
    requires t.committed == h.committed + [line] && t.lost == h.lost && t.gone == h.gone && t.buffered == []
    requires Combined(t) == Combined(h) || Combined(t) == Combined(h) + [|h.committed|]
    ensures Ordered(t) && Room(Combined(t), |h.committed|)
    ensures forall p :: 0 <= p < |h.committed| ==> Accounted(t, p) || p in t.gone
    ensures Combined(t) == Combined(h) + [|h.committed|] ==> Covered(t)
  {
    assert Room(Combined(h), |h.committed|);
    AppendSteady(Combined(h), |h.committed|);
    forall p | 0 <= p < |h.committed| ensures Accounted(t, p) || p in t.gone {
      assert Accounted(h, p) || p in h.gone;
    }
  }

  /** Closing keeps the order; what the handle held is written, or gone when closing fails. */
  lemma CloseKeeps(s: State)
    requires Logged(s)
    ensures Logged(CloseHandle(s).after) && CloseHandle(s).after.history.handed == []
    ensures CloseHandle(s).after.history.gone == s.history.gone + (if Fails(s.disk) then s.history.handed else [])
  {
    var h, t := s.history, CloseHandle(s).after.history;
    if Fails(s.disk) {
      RemoveSteady(h.stored, h.handed, h.buffered, 0, |h.committed|);
      assert Combined(t) == h.stored + h.buffered;
      forall p | 0 <= p < |t.committed| ensures Accounted(t, p) || p in t.gone {
        assert Accounted(h, p) || p in h.gone;
      }
    } else {
      SameAccount(h, t);
      assert Landed(h).gone == h.gone + [];
    }
  }

  lemma ReopenedKeeps(s: State)
    requires Logged(s)
    ensures var r := Reopened(s);
      && Logged(r.after) && r.after.history == CloseHandle(s).after.history && r.after.history.handed == []
      && r.after.settings == s.settings && r.after.healthy == s.healthy && r.after.emergency == s.emergency
      && (r.ok ==> 0 in r.after.disk.files && r.after.disk.held)
  {
    CloseKeeps(s);
  }

  lemma RecoverKeepsSound(s: State)
    requires Sound(s)
    ensures Sound(Recover(s).after) == true
    ensures Recover(s).after.history.committed == s.history.committed && Recover(s).after.settings == s.settings
    ensures Recover(s).ok <==> Recover(s).after.healthy
    ensures !s.healthy ==> Combined(Recover(s).after.history) == Combined(CloseHandle(s).after.history)
    ensures !s.healthy ==> Recover(s).after.history.lost == s.history.lost
    ensures !s.healthy ==> Recover(s).after.history.gone == CloseHandle(s).after.history.gone
  {
    if !s.healthy {
      ReopenedKeeps(s);
      var reopened := Reopened(s);
      if reopened.ok {
        var t := reopened.after.(healthy := true);
        DrainEmergencyKeeps(t);
        var drained := DrainEmergency(t);
        SyncOnward(drained.after, None);
        OnwardKeeps(drained.after, Sync(drained.after, None).after);
      }
    }
  }

  lemma MaintainKeepsSound(s: State)
    requires Sound(s)
    ensures Sound(Maintain(s)) == true
    ensures Maintain(s).history.committed == s.history.committed && Maintain(s).settings == s.settings
    ensures s.healthy ==> Combined(Maintain(s).history) == Combined(s.history)
    ensures s.healthy ==> Maintain(s).history.lost == s.history.lost && Maintain(s).history.gone == s.history.gone
  {
    if !s.healthy {
      RecoverKeepsSound(s);
    } else {
      var t := s.(disk := Ticked(s.disk));
      SyncOnward(t, None);
      OnwardKeeps(t, Sync(t, None).after);
    }
  }

  lemma FlushKeepsSound(s: State)
    requires Sound(s)
    ensures Sound(Flush(s)) == true
    ensures Flush(s).history.committed == s.history.committed && Flush(s).settings == s.settings
    ensures Combined(Flush(s).history) == Combined(s.history)
    ensures Flush(s).history.lost == s.history.lost && Flush(s).history.gone == s.history.gone
  {
    if s.healthy {
      DrainEmergencyKeeps(s);
      var drained := DrainEmergency(s);
      SyncOnward(drained.after, None);
      OnwardKeeps(drained.after, Sync(drained.after, None).after);
    }
  }

  // ---------------------------------------------------------------- runs

  datatype Call = CommitCall(line: Line) | MaintainCall | FlushCall(markClean: bool) | RecoverCall

  function Called(s: State, c: Call): State
    requires Ready(s)
  {
    match c
    case CommitCall(line) => Commit(s, line)
    case MaintainCall => Maintain(s)
    case FlushCall(_) => Flush(s)
    case RecoverCall => Recover(s).after
  }

  lemma CallKeepsSound(s: State, c: Call)
    requires Sound(s)
    ensures Sound(Called(s, c)) == true && Called(s, c).settings == s.settings
    ensures Called(s, c).history.committed == s.history.committed + (if c.CommitCall? then [c.line] else [])
  {
    match c
    case CommitCall(line) => CommitKeepsSound(s, line);
    case MaintainCall => MaintainKeepsSound(s);
    case FlushCall(_) => FlushKeepsSound(s);
    case RecoverCall => RecoverKeepsSound(s);
  }

  /** A writer just opened on existing files, with any script of faults and clock readings. */
  ghost predicate Started(s: State) {
    && s.settings.backups >= 1 && s.settings.maxEvents >= 1
    && 0 in s.disk.files && s.disk.held && s.healthy
    && s.disk.pending == [] && s.emergency == Emergency([], 0, 0) && s.history == NO_HISTORY
  }

  ghost function AfterCalls(s: State, calls: seq<Call>): (t: State)
    requires Started(s)
    ensures Sound(t) && t.settings == s.settings
    decreases |calls|
  {
    if calls == [] then s else
      var before := AfterCalls(s, calls[..|calls| - 1]);
      CallKeepsSound(before, calls[|calls| - 1]);
      Called(before, calls[|calls| - 1])
  }

  /** The lines committed by the calls, in order. */
  function LinesOf(calls: seq<Call>): seq<Line> {
    if calls == [] then [] else
      LinesOf(calls[..|calls| - 1]) + (if calls[|calls| - 1].CommitCall? then [calls[|calls| - 1].line] else [])
  }

  lemma {:induction false} AllCommitted(s: State, calls: seq<Call>)
    requires Started(s)
    ensures AfterCalls(s, calls).history.committed == LinesOf(calls)
    decreases |calls|
  {
    if calls != [] {
      AllCommitted(s, calls[..|calls| - 1]);
      CallKeepsSound(AfterCalls(s, calls[..|calls| - 1]), calls[|calls| - 1]);
    }
  }

  /** After any calls under any faults: each committed line reached a file, waits in the handle or the
      buffer, was dropped, or went away with a handle; and the number dropped is the counter.
      (`JournalRetention` says which of those that reached a file are still in one.) */
  lemma NothingVanishes(s: State, calls: seq<Call>)
    requires Started(s)
    ensures var t := AfterCalls(s, calls);
      && (forall k :: 0 <= k < |LinesOf(calls)| ==> Accounted(t.history, k) || k in t.history.gone)
      && |t.history.lost| == t.emergency.dropped
  {
    AllCommitted(s, calls);
  }

  /** After any calls under any faults: the lines written and then the lines buffered, adjacent
      repeats collapsed, are a subsequence of what was committed; none appears three times. */
  lemma CommitOrderKept(s: State, calls: seq<Call>)
    requires Started(s)
    ensures var h := AfterCalls(s, calls).history;
      var places := Collapse(Combined(h));
      && (forall i :: 0 <= i < |places| ==> places[i] < |LinesOf(calls)|)
      && (forall i, j :: 0 <= i < j < |places| ==> places[i] < places[j])
      && (forall i :: 0 <= i < |Combined(h)| - 2 ==> Combined(h)[i] < Combined(h)[i + 2])
  {
    AllCommitted(s, calls);
    var c := Combined(AfterCalls(s, calls).history);
    CollapsedIncreases(c);
    forall i | 0 <= i < |Collapse(c)| ensures Collapse(c)[i] < |LinesOf(calls)| {
      assert Collapse(c)[i] in c;
    }
  }

  /** A healthy journal has nothing in the emergency buffer and nothing in the handle; everything
      committed reached a file or went missing while it was unhealthy. */
  lemma HealthyMeansWritten(s: State, calls: seq<Call>)
    requires Started(s) && AfterCalls(s, calls).healthy
    ensures var t := AfterCalls(s, calls);
      && t.emergency.lines == [] && t.disk.pending == []
      && (forall k :: 0 <= k < |LinesOf(calls)| ==>
            k in t.history.stored || k in t.history.lost || k in t.history.gone)
  {
    AllCommitted(s, calls);
    var h := AfterCalls(s, calls).history;
    forall k | 0 <= k < |LinesOf(calls)| ensures k in h.stored || k in h.lost || k in h.gone {
      assert Accounted(h, k) || k in h.gone;
    }
  }
}
