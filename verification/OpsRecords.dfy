/** What the operational state machine says, from the calls alone: of each source what the last reports
    said, and of each reason whether its last call raised it. */
module OpsRecords {
  import opened Basics
  import opened OpsState

  // ---------------------------------------------------------------- sources

  /** The reports on a point, in order. */
  function ReportsOn(calls: seq<Call>, point: string): seq<Update> {
    if calls == [] then [] else
      var last := calls[|calls| - 1];
      ReportsOn(calls[..|calls| - 1], point)
      + (if last.SourceCall? && last.point == point then [last.update] else [])
  }

  /** The last value that was given at all. */
  function LastGiven<T>(values: seq<Option<T>>): Option<T> {
    if values == [] then None
    else if values[|values| - 1].Some? then values[|values| - 1]
    else LastGiven(values[..|values| - 1])
  }

  function LastLink(us: seq<Update>): Link { if us == [] then Unstarted else us[|us| - 1].link }

  function Generations(us: seq<Update>): seq<Option<string>> { seq(|us|, i requires 0 <= i < |us| => us[i].generation) }

  function Packets(us: seq<Update>): seq<Option<nat>> { seq(|us|, i requires 0 <= i < |us| => us[i].packets) }

  function Drops(us: seq<Update>): seq<Option<nat>> { seq(|us|, i requires 0 <= i < |us| => us[i].drops) }

  /** The error of the last report that had one, unless a later one said established or stopped. */
  function LastError(us: seq<Update>): Option<string> {
    if us == [] then None else
      var u := us[|us| - 1];
      if u.error.Some? then u.error
      else if u.link == Up || u.link == Halted then None
      else LastError(us[..|us| - 1])
  }

  lemma GivenSnoc<T>(values: seq<Option<T>>, v: Option<T>)
    ensures LastGiven(values + [v]) == if v.Some? then v else LastGiven(values)
  {
    assert (values + [v])[..|values|] == values;
  }

  lemma ReportsSnoc(us: seq<Update>, u: Update)
    ensures LastLink(us + [u]) == u.link
    ensures LastGiven(Generations(us + [u])) == if u.generation.Some? then u.generation else LastGiven(Generations(us))
    ensures LastGiven(Packets(us + [u])) == if u.packets.Some? then u.packets else LastGiven(Packets(us))
    ensures LastGiven(Drops(us + [u])) == if u.drops.Some? then u.drops else LastGiven(Drops(us))
    ensures LastError(us + [u]) ==
      if u.error.Some? then u.error else if u.link == Up || u.link == Halted then None else LastError(us)
  {
    assert (us + [u])[..|us|] == us;
    assert Generations(us + [u]) == Generations(us) + [u.generation];
    assert Packets(us + [u]) == Packets(us) + [u.packets];
    assert Drops(us + [u]) == Drops(us) + [u.drops];
    GivenSnoc(Generations(us), u.generation);
    GivenSnoc(Packets(us), u.packets);
    GivenSnoc(Drops(us), u.drops);
  }

  function Reported(us: seq<Update>): Source {
    Source(LastLink(us), LastGiven(Generations(us)), LastError(us), Or(LastGiven(Packets(us)), 0),
           Or(LastGiven(Drops(us)), 0))
  }

  /** After any calls the record of a source is what the reports on it say: its state from the last one,
      each other value from the last that gave it, and the last error until the source is up or stopped
      again. */
  lemma {:induction false} SourceExactly(points: set<string>, calls: seq<Call>, point: string)
    requires point in points
    ensures point in CalledAll(points, calls).sources
    ensures CalledAll(points, calls).sources[point] == Reported(ReportsOn(calls, point))
  {
    if calls != [] {
      var front, c := calls[..|calls| - 1], calls[|calls| - 1];
      SourceExactly(points, front, point);
      SourceStep(CalledAll(points, front), c, point);
      if c.SourceCall? && c.point == point {
        PatchedReported(ReportsOn(front, point), c.update);
      } else {
        NothingAfter(ReportsOn(front, point));
      }
    }
  }

  lemma SourceStep(o: Ops, c: Call, point: string)
    requires point in o.sources
    ensures point in Called(o, c).sources
    ensures Called(o, c).sources[point]
      == if c.SourceCall? && c.point == point then Patched(o.sources[point], c.update) else o.sources[point]
  {
  }

  lemma PatchedReported(us: seq<Update>, u: Update)
    ensures Patched(Reported(us), u) == Reported(us + [u])
  {
    ReportsSnoc(us, u);
  }

  // ---------------------------------------------------------------- reasons

  /** What a call says about a reason, if it does. */
  function Says(c: Call, cause: Cause): Option<bool> {
    match cause
    case AppQueueDrops => if c.AppDropsCall?
      && c.count > 0 then Some(true) else if c.ClearAppCall? then Some(false) else None
    case JournalUnavailable => if c.JournalCall? then Some(!c.healthy) else None
    case NoPolicy => if c.SetPolicyCall? then Some(c.policy.None? || c.policy.value == "") else None
    case WorkerDead => if c.WorkerDeadCall? then Some(true) else None
    case ShuttingDown => if c.ShutdownCall? then Some(true) else None
    case _ => None
  }

  function Answers(calls: seq<Call>, cause: Cause): seq<Option<bool>> {
    seq(|calls|, i requires 0 <= i < |calls| => Says(calls[i], cause))
  }

  /** After any calls each of these reasons stands exactly if the last call that is about it raised it. */
  lemma {:induction false} ReasonExactly(points: set<string>, calls: seq<Call>, cause: Cause)
    requires cause != KernelDrops && cause != CapturePointUnavailable
    ensures cause in CalledAll(points, calls).causes <==> LastGiven(Answers(calls, cause)) == Some(true)
  {
    if calls != [] {
      var front, c := calls[..|calls| - 1], calls[|calls| - 1];
      ReasonExactly(points, front, cause);
      assert Answers(calls, cause) == Answers(front, cause) + [Says(c, cause)];
      GivenSnoc(Answers(front, cause), Says(c, cause));
      ReasonStep(CalledAll(points, front), c, cause);
    }
  }

  lemma ReasonStep(o: Ops, c: Call, cause: Cause)
    requires cause != KernelDrops && cause != CapturePointUnavailable
    ensures cause in Called(o, c).causes <==> if Says(c, cause).Some? then Says(c, cause).value else cause in o.causes
  {
  }

  /** Kernel drops stand from a report that raises a point's total until they are cleared, and count what
      the totals grew by. */
  lemma KernelStep(o: Ops, c: Call)
    ensures var t := Called(o, c);
      if c.KernelDropsCall? then
        var before := if c.point in o.lastKernel then o.lastKernel[c.point] else 0;
        && t.lastKernel == o.lastKernel[c.point := c.total]
        && t.kernelDrops == o.kernelDrops + (if c.total > before then c.total - before else 0)
        && (KernelDrops in t.causes <==> KernelDrops in o.causes || c.total > before)
      else
        && t.lastKernel == o.lastKernel && t.kernelDrops == o.kernelDrops
        && (KernelDrops in t.causes <==> KernelDrops in o.causes && !c.ClearKernelCall?)
  {
  }
}
