/** The clean-stop marker (journal.py): it never stands while a committed line is outside the files. */
module JournalMarker {
  import opened Basics
  import opened Journal
  import opened JournalOrder

  /** No flush so far forbade the marker. */
  function AllowedAfter(calls: seq<Call>): bool {
    calls == [] ||
    var last := calls[|calls| - 1];
    AllowedAfter(calls[..|calls| - 1]) && (last.FlushCall? ==> last.markClean)
  }

  /** Whether the marker stands after the calls, if `clean` says whether it stood before them. */
  ghost function CleanAfter(s: State, calls: seq<Call>, clean: bool): bool
    requires Started(s)
    decreases |calls|
  {
    if calls == [] then clean else
      match calls[|calls| - 1]
      case CommitCall(_) => false
      case FlushCall(_) =>
        var t := AfterCalls(s, calls);
        AllowedAfter(calls) && t.healthy && t.emergency.lines == []
      case MaintainCall => CleanAfter(s, calls[..|calls| - 1], clean)
      case RecoverCall => CleanAfter(s, calls[..|calls| - 1], clean)
  }

  /** Nothing waits in the handle or the buffer. */
  predicate AtRest(h: History) { h.handed == [] && h.buffered == [] }

  /** With nothing waiting, only a commit changes that. */
  lemma RestStays(s: State, c: Call)
    requires Sound(s) && AtRest(s.history) && (c.MaintainCall? || c.RecoverCall?)
    ensures AtRest(Called(s, c).history)
  {
    assert s.emergency.lines == [];
    if !s.healthy {
      CloseKeeps(s);
      ReopenedKeeps(s);
      var t := Reopened(s).after.(healthy := true);
      SyncOnward(t, None);
    } else {
      SyncOnward(s.(disk := Ticked(s.disk)), None);
    }
  }

  lemma {:induction false} CleanAtRest(s: State, calls: seq<Call>, clean: bool)
    requires Started(s) && CleanAfter(s, calls, clean)
    ensures AtRest(AfterCalls(s, calls).history)
    decreases |calls|
  {
    if calls != [] {
      var front, c := calls[..|calls| - 1], calls[|calls| - 1];
      if c.MaintainCall? || c.RecoverCall? {
        CleanAtRest(s, front, clean);
        RestStays(AfterCalls(s, front), c);
      }
    }
  }

  /** While the marker stands, each committed line reached a file, or was counted as dropped, or went
      away with a handle; nothing still waits. */
  lemma CleanMeansStored(s: State, calls: seq<Call>, clean: bool)
    requires Started(s) && CleanAfter(s, calls, clean)
    ensures var h := AfterCalls(s, calls).history;
      AtRest(h) && forall p :: 0 <= p < |LinesOf(calls)| ==> p in h.stored || p in h.lost || p in h.gone
  {
    CleanAtRest(s, calls, clean);
    AllCommitted(s, calls);
    var h := AfterCalls(s, calls).history;
    forall p | 0 <= p < |LinesOf(calls)| ensures p in h.stored || p in h.lost || p in h.gone {
      assert Accounted(h, p) || p in h.gone;
    }
  }

  /** Right after a flush the marker stands iff the journal is healthy and no flush forbade it. */
  lemma {:induction false} MarkedExactly(s: State, calls: seq<Call>, markClean: bool, clean: bool)
    requires Started(s)
    ensures var all := calls + [FlushCall(markClean)];
      CleanAfter(s, all, clean) <==>
        AfterCalls(s, all).healthy && forall k :: 0 <= k < |all| && all[k].FlushCall? ==> all[k].markClean
  {
    var all := calls + [FlushCall(markClean)];
    AllowedExactly(all);
    assert all[|all| - 1] == FlushCall(markClean);
  }

  lemma {:induction false} AllowedExactly(calls: seq<Call>)
    ensures AllowedAfter(calls) <==> forall k :: 0 <= k < |calls| && calls[k].FlushCall? ==> calls[k].markClean
  {
    if calls != [] {
      AllowedExactly(calls[..|calls| - 1]);
    }
  }

  /** Closing keeps order and account; a healthy close leaves nothing waiting. */
  lemma ShutKeeps(s: State)
    requires Sound(s)
    ensures var t := Shut(s);
      && Logged(t) && t.history.committed == s.history.committed
      && (t.healthy ==> AtRest(t.history) && t.history.gone == s.history.gone)
  {
    FlushKeepsSound(s);
    CloseKeeps(Flush(s));
  }

  /** A marker left by the last call means the same. */
  lemma ShutClean(s: State, calls: seq<Call>)
    requires Started(s) && Shut(AfterCalls(s, calls)).healthy
    ensures var h := Shut(AfterCalls(s, calls)).history;
      AtRest(h) && forall p :: 0 <= p < |LinesOf(calls)| ==> p in h.stored || p in h.lost || p in h.gone
  {
    AllCommitted(s, calls);
    ShutKeeps(AfterCalls(s, calls));
    var h := Shut(AfterCalls(s, calls)).history;
    forall p | 0 <= p < |LinesOf(calls)| ensures p in h.stored || p in h.lost || p in h.gone {
      assert Accounted(h, p) || p in h.gone;
    }
  }
}
