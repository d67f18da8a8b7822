/** The emergency buffer stays within its limits, and its byte count is right. */
module JournalBounds {
  import opened Basics
  import opened Journal
  import opened JournalOrder

  /** The counter is the total size, and both limits hold unless exactly one line is held. */
  ghost predicate Bounded(e: Emergency, c: Settings) {
    && e.bytes == Size(e.lines)
    && |e.lines| <= c.maxEvents
    && (e.bytes <= c.emergencyBytes || |e.lines| == 1)
  }

  /** Trimming leaves room for one more line, or nothing. */
  lemma {:induction false} TrimMakesRoom(e: Emergency, h: History, bytes: nat, c: Settings)
    requires |h.buffered| == |e.lines| && e.bytes == Size(e.lines)
    ensures var t := Trim(e, h, bytes, c).0;
      && t.bytes == Size(t.lines)
      && (t.lines == [] || (|t.lines| < c.maxEvents && t.bytes + bytes <= c.emergencyBytes))
    decreases |e.lines|
  {
    if (|e.lines| >= c.maxEvents || e.bytes + bytes > c.emergencyBytes) && e.lines != [] {
      SizeHead(e.lines);
      TrimMakesRoom(Emergency(e.lines[1..], e.bytes - Bytes(e.lines[0]), e.dropped + 1),
                    h.(buffered := h.buffered[1..], lost := h.lost + [h.buffered[0]]), bytes, c);
    }
  }

  lemma BufferBounded(s: State, line: Line, k: nat)
    requires |s.history.buffered| == |s.emergency.lines| && s.emergency.bytes == Size(s.emergency.lines)
    requires s.settings.maxEvents >= 1
    ensures Bounded(Buffer(s, line, k).emergency, s.settings)
  {
    TrimMakesRoom(s.emergency, s.history, Bytes(line), s.settings);
    SizeSnoc(Trim(s.emergency, s.history, Bytes(line), s.settings).0.lines, line);
  }

  /** A shorter buffer is within the limits when the longer one was. */
  lemma {:induction false} DrainBounded(s: State)
    requires |s.history.buffered| == |s.emergency.lines| && Bounded(s.emergency, s.settings)
    ensures Bounded(DrainLines(s).after.emergency, s.settings)
    decreases |s.emergency.lines|
  {
    if s.emergency.lines != [] {
      var w := WriteLine(s, s.emergency.lines[0], s.history.buffered[0]);
      SizeHead(s.emergency.lines);
      if w.ok {
        DrainBounded(w.after.(emergency := FirstGone(s.emergency),
                              history := w.after.history.(buffered := s.history.buffered[1..])));
      }
    }
  }

  lemma DrainEmergencyBounded(s: State)
    requires |s.history.buffered| == |s.emergency.lines| && Bounded(s.emergency, s.settings)
    ensures Bounded(DrainEmergency(s).after.emergency, s.settings)
  {
    DrainBounded(s);
    FsyncUntouched(DrainLines(s).after);
  }

  lemma {:induction false} DrainLinesSettings(s: State)
    requires |s.history.buffered| == |s.emergency.lines|
    ensures DrainLines(s).after.settings == s.settings
    decreases |s.emergency.lines|
  {
    if s.emergency.lines != [] {
      var w := WriteLine(s, s.emergency.lines[0], s.history.buffered[0]);
      if w.ok {
        DrainLinesSettings(w.after.(emergency := FirstGone(s.emergency),
                                    history := w.after.history.(buffered := s.history.buffered[1..])));
      }
    }
  }

  lemma DrainSettings(s: State)
    requires |s.history.buffered| == |s.emergency.lines|
    ensures DrainEmergency(s).after.settings == s.settings
  {
    DrainLinesSettings(s);
    FsyncUntouched(DrainLines(s).after);
  }

  lemma CommitBounded(s: State, line: Line)
    requires Sound(s) && Bounded(s.emergency, s.settings) && s.settings.maxEvents >= 1
    ensures Bounded(Commit(s, line).emergency, s.settings)
  {
    var k := |s.history.committed|;
    var t := s.(history := s.history.(committed := s.history.committed + [line]));
    if !s.healthy {
      BufferBounded(t, line, k);
    } else {
      var a := AppendLine(t, line, k);
      AppendLineKeepsBuffer(t, line, k);
      if !a.ok {
        BufferBounded(a.after.(healthy := false), line, k);
      }
    }
  }

  lemma RecoverBounded(s: State)
    requires Sound(s) && Bounded(s.emergency, s.settings)
    ensures Bounded(Recover(s).after.emergency, s.settings)
  {
    if !s.healthy {
      var reopened := Reopened(s);
      if reopened.ok {
        var t := reopened.after.(healthy := true);
        DrainEmergencyBounded(t);
        DrainSettings(t);
        SyncUntouched(DrainEmergency(t).after, None);
      }
    }
  }

  lemma CallBounded(s: State, c: Call)
    requires Sound(s) && Bounded(s.emergency, s.settings) && s.settings.maxEvents >= 1
    ensures Bounded(Called(s, c).emergency, s.settings) == true
  {
    match c
    case CommitCall(line) => CommitBounded(s, line);
    case MaintainCall =>
      if s.healthy {
        SyncUntouched(s.(disk := Ticked(s.disk)), None);
      } else {
        RecoverBounded(s);
      }
    case FlushCall(_) =>
      if s.healthy {
        DrainEmergencyBounded(s);
        DrainSettings(s);
        SyncUntouched(DrainEmergency(s).after, None);
      }
    case RecoverCall => RecoverBounded(s);
  }

  /** After any calls under any faults: at most `maxEvents` lines are buffered, their size is the
      counter, and it exceeds the byte limit only when a single line does. */
  lemma {:induction false} EmergencyBounded(s: State, calls: seq<Call>)
    requires Started(s)
    ensures Bounded(AfterCalls(s, calls).emergency, s.settings) == true
    decreases |calls|
  {
    if calls != [] {
      EmergencyBounded(s, calls[..|calls| - 1]);
      CallBounded(AfterCalls(s, calls[..|calls| - 1]), calls[|calls| - 1]);
    }
  }
}
