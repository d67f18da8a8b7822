/** Lines that wait in the file object (journal.py): exactly which calls lose them, and that it happens. */
module JournalHandle {
  import opened Basics
  import opened Journal
  import opened JournalOrder

  /** A recovery whose close fails: the handle goes away with what it holds. */
  predicate LosesHandle(s: State, c: Call) {
    !s.healthy && (c.MaintainCall? || c.RecoverCall?) && Fails(s.disk)
  }

  /** The call loses line `p` for good: it is in the handle and nowhere else. */
  predicate Strands(s: State, c: Call, p: nat) {
    var h := s.history;
    LosesHandle(s, c) && p in h.handed && p !in h.stored && p !in h.buffered && p !in h.lost
  }

  lemma CommitAccount(s: State, line: Line, p: nat)
    requires Sound(s) && p < |s.history.committed|
    ensures Accounted(Commit(s, line).history, p) <==> Accounted(s.history, p)
  {
    var k := |s.history.committed|;
    var t := s.(history := s.history.(committed := s.history.committed + [line]));
    if !s.healthy {
      BufferAccount(t, line, k, p);
    } else {
      var a := AppendLine(t, line, k);
      AppendLineResult(t, line, k);
      if !a.ok {
        BufferAccount(a.after.(healthy := false), line, k, p);
      }
    }
  }

  lemma BufferAccount(s: State, line: Line, k: nat, p: nat)
    requires |s.history.buffered| == |s.emergency.lines| && p != k
    ensures Accounted(Buffer(s, line, k).history, p) <==> Accounted(s.history, p)
  {
    TrimAccount(s.emergency, s.history, Bytes(line), s.settings, p);
  }

  lemma {:induction false} TrimAccount(e: Emergency, h: History, bytes: nat, c: Settings, p: nat)
    requires |h.buffered| == |e.lines|
    ensures Accounted(Trim(e, h, bytes, c).1, p) <==> Accounted(h, p)
    decreases |e.lines|
  {
    if (|e.lines| >= c.maxEvents || e.bytes + bytes > c.emergencyBytes) && e.lines != [] {
      var h1 := h.(buffered := h.buffered[1..], lost := h.lost + [h.buffered[0]]);
      assert h.buffered == [h.buffered[0]] + h.buffered[1..];
      TrimAccount(Emergency(e.lines[1..], e.bytes - Bytes(e.lines[0]), e.dropped + 1), h1, bytes, c, p);
    }
  }

  lemma RecoverAccount(s: State, c: Call, p: nat)
    requires Sound(s) && !s.healthy && (c.MaintainCall? || c.RecoverCall?)
    ensures Accounted(Recover(s).after.history, p) <==> Accounted(s.history, p) && !Strands(s, c, p)
  {
    RecoverKeepsSound(s);
    var h, t := s.history, CloseHandle(s).after.history;
    if Fails(s.disk) {
      assert Combined(t) == h.stored + h.buffered;
    } else {
      SameAccount(h, t);
    }
  }

  /** After a call a line is accounted for iff it was, unless just this call stranded it. */
  lemma AccountExact(s: State, c: Call, p: nat)
    requires Sound(s) && p < |s.history.committed|
    ensures Accounted(Called(s, c).history, p) <==> Accounted(s.history, p) && !Strands(s, c, p)
  {
    match c
    case CommitCall(line) => CommitAccount(s, line, p);
    case MaintainCall =>
      MaintainKeepsSound(s);
      if !s.healthy {
        RecoverAccount(s, c, p);
      }
    case FlushCall(_) => FlushKeepsSound(s);
    case RecoverCall =>
      if !s.healthy {
        RecoverAccount(s, c, p);
      }
  }

  lemma NewAccounted(s: State, line: Line)
    requires Sound(s)
    ensures Accounted(Commit(s, line).history, |s.history.committed|)
  {
    var k := |s.history.committed|;
    var t := s.(history := s.history.(committed := s.history.committed + [line]));
    if s.healthy {
      AppendLineResult(t, line, k);
    }
  }

  /** Some call of the run stranded line `p`. */
  ghost predicate Stranded(s: State, calls: seq<Call>, p: nat)
    requires Started(s)
    decreases |calls|
  {
    calls != [] &&
    var front := calls[..|calls| - 1];
    Stranded(s, front, p) || Strands(AfterCalls(s, front), calls[|calls| - 1], p)
  }

  lemma {:induction false} OnlyCommittedStranded(s: State, calls: seq<Call>, p: nat)
    requires Started(s) && Stranded(s, calls, p)
    ensures p < |LinesOf(calls)|
    decreases |calls|
  {
    var front := calls[..|calls| - 1];
    AllCommitted(s, front);
    if Stranded(s, front, p) {
      OnlyCommittedStranded(s, front, p);
    } else {
      var h := AfterCalls(s, front).history;
      assert p in Combined(h);
    }
  }

  /** Over every run: a committed line reached no file, is not in the handle, not buffered and not counted
      iff some recovery's close failed while the handle was the only place that line was in. */
  lemma {:induction false} VanishesExactly(s: State, calls: seq<Call>, p: nat)
    requires Started(s) && p < |LinesOf(calls)|
    ensures !Accounted(AfterCalls(s, calls).history, p) <==> Stranded(s, calls, p)
    decreases |calls|
  {
    var front, c := calls[..|calls| - 1], calls[|calls| - 1];
    var before := AfterCalls(s, front);
    AllCommitted(s, front);
    if p < |LinesOf(front)| {
      VanishesExactly(s, front, p);
      AccountExact(before, c, p);
    } else {
      NewAccounted(before, c.line);
      assert !Strands(before, c, p);
      if Stranded(s, front, p) {
        OnlyCommittedStranded(s, front, p);
      }
    }
  }

  // ---------------------------------------------------------------- and it does happen

  /** The write of a line fails, the recovery's flush fails, and so does the next recovery's close. */
  const BAD_LUCK: seq<bool> := [true, false, false, false, true, true]

  function Unlucky(s: State): State {
    s.(disk := s.disk.(faults := BAD_LUCK, spills := []))
  }

  /** The line is only in the emergency buffer, then only in the handle. */
  ghost predicate OnlyBuffered(s: State, line: Line) {
    && Sound(s) && !s.healthy && s.history == NO_HISTORY.(committed := [line], buffered := [0])
    && s.emergency.lines == [line] && s.emergency.dropped == 0 && s.disk.pending == [] && s.disk.spills == []
  }

  ghost predicate OnlyHanded(s: State, line: Line) {
    && Sound(s) && !s.healthy && s.history == NO_HISTORY.(committed := [line], handed := [0])
    && s.emergency.dropped == 0
  }

  lemma UnluckyCommit(s: State, line: Line) returns (t: State)
    requires Sound(s) && s.healthy && s.history == NO_HISTORY && s.emergency.dropped == 0
    requires s.disk.pending == [] && s.disk.faults == BAD_LUCK && s.disk.spills == []
    ensures t == Called(s, CommitCall(line)) && OnlyBuffered(t, line) && t.disk.faults == BAD_LUCK[1..]
  {
    t := Commit(s, line);
    CommitKeepsSound(s, line);
  }

  lemma UnluckyDrain(s: State, line: Line) returns (t: State)
    requires s.history == NO_HISTORY.(committed := [line], buffered := [0]) && s.emergency.lines == [line]
    requires s.disk.pending == [] && s.disk.spills == [] && s.disk.faults == [false, true, true]
    ensures t == DrainLines(s).after && DrainLines(s).ok && t.disk.faults == [true, true]
    ensures t.history == NO_HISTORY.(committed := [line], handed := [0])
    ensures t.emergency.dropped == s.emergency.dropped
  {
    t := DrainLines(s).after;
    var w := WriteLine(s, line, 0);
    assert w.ok && w.after.history.handed == [0];
    assert w.after.disk.faults == [true, true];
  }

  lemma UnluckySync(s: State, now: Option<int>)
    requires Fails(s.disk)
    ensures Sync(s, now) == Out(s.(disk := Used(s.disk)), false)
  {
  }

  /** Everything between reopening and giving up. */
  function Refilled(s: State): State
    requires |s.history.buffered| == |s.emergency.lines|
  {
    var drained := DrainEmergency(s);
    if drained.ok then Sync(drained.after, None).after else drained.after
  }

  lemma UnluckyRefill(s: State, line: Line) returns (t: State)
    requires s.history == NO_HISTORY.(committed := [line], buffered := [0]) && s.emergency.lines == [line]
    requires s.disk.pending == [] && s.disk.spills == [] && s.disk.faults == [false, true, true]
    ensures t == Refilled(s) && t.disk.faults == [true]
    ensures t.history == NO_HISTORY.(committed := [line], handed := [0])
    ensures t.emergency.dropped == s.emergency.dropped
    ensures DrainEmergency(s).ok ==> !Sync(DrainEmergency(s).after, None).ok
  {
    t := Refilled(s);
    var u := UnluckyDrain(s, line);
    assert u.disk.faults[1..] == [true];
    UnluckySync(u.(disk := Ticked(u.disk)), Some(Clock(u.disk)));
    UnluckySync(u.(disk := Ticked(u.disk)), None);
  }

  lemma UnluckyReopen(s: State, line: Line) returns (t: State)
    requires OnlyBuffered(s, line) && s.disk.faults == BAD_LUCK[1..]
    ensures Reopened(s) == Out(t, true) && t.history == s.history && t.emergency == s.emergency
    ensures t.disk.pending == [] && t.disk.spills == [] && t.disk.faults == [false, true, true]
  {
    assert s.disk.faults[1..][1..] == [false, true, true];
    t := Reopened(s).after;
  }

  lemma UnluckyRecovery(s: State, line: Line) returns (t: State)
    requires OnlyBuffered(s, line) && s.disk.faults == BAD_LUCK[1..]
    ensures t == Called(s, RecoverCall) && OnlyHanded(t, line) && t.disk.faults == [true]
  {
    var r := UnluckyReopen(s, line);
    var u := UnluckyRefill(r.(healthy := true), line);
    RecoverKeepsSound(s);
    t := u.(healthy := false);
  }

  lemma HandleLost(s: State, line: Line) returns (t: State)
    requires OnlyHanded(s, line) && s.disk.faults == [true]
    ensures t == Called(s, RecoverCall) && !Accounted(t.history, 0)
    ensures t.history.committed == [line] && t.emergency.dropped == 0
  {
    t := Recover(s).after;
    RecoverAccount(s, RecoverCall, 0);
    RecoverKeepsSound(s);
  }

  lemma OneCall(s: State, calls: seq<Call>, a: State, c: Call, b: State, all: seq<Call>)
    requires Started(s) && Ready(a) && AfterCalls(s, calls) == a && all == calls + [c]
    requires b == Called(a, c)
    ensures AfterCalls(s, all) == b
  {
    assert all[..|all| - 1] == calls;
  }

  lemma TwoRecoveries(s: State, line: Line, a: State, b: State, c: State)
    requires Started(s) && Ready(a) && Ready(b)
    requires a == Called(s, CommitCall(line)) && b == Called(a, RecoverCall) && c == Called(b, RecoverCall)
    ensures AfterCalls(s, [CommitCall(line), RecoverCall, RecoverCall]) == c
  {
    var x, first := CommitCall(line), [CommitCall(line)];
    var second := first + [RecoverCall];
    OneCall(s, [], s, x, a, first);
    OneCall(s, first, a, RecoverCall, b, second);
    OneCall(s, second, b, RecoverCall, c, second + [RecoverCall]);
    assert second + [RecoverCall] == [x, RecoverCall, RecoverCall];
  }

  lemma UnluckyRun(s: State, line: Line) returns (t: State)
    requires Started(s) && s.disk.faults == BAD_LUCK && s.disk.spills == []
    ensures t == AfterCalls(s, [CommitCall(line), RecoverCall, RecoverCall])
    ensures !Accounted(t.history, 0) && t.history.committed == [line] && t.emergency.dropped == 0
  {
    var a := UnluckyCommit(s, line);
    var b := UnluckyRecovery(a, line);
    t := HandleLost(b, line);
    TwoRecoveries(s, line, a, b, t);
  }

  /** From every start, with those failures, a committed line vanishes without being counted. */
  lemma LineVanishes(s: State, line: Line)
    requires Started(s)
    ensures var t := AfterCalls(Unlucky(s), [CommitCall(line), RecoverCall, RecoverCall]);
      !Accounted(t.history, 0) && t.history.committed == [line] && t.emergency.dropped == 0
  {
    var t := UnluckyRun(Unlucky(s), line);
  }
}
