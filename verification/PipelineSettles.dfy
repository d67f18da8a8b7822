/** What the worker will know once it has handled everything that waits, kept by every step. */
module PipelineSettles {
  import opened Basics
  import opened Control
  import opened OpsState
  import opened Worker
  import opened PipelineSources

  // ---------------------------------------------------------------- one message put into the lane

  /** What is known of a point after the lane's messages. */
  function Later(k: Known, l: Lane, point: string): Known { LearnAll(k, Drained(l), point) }

  function NewStats(l: Lane, m: Message): seq<Message> { if m.kind.Stats? then Store(l.stats, m) else l.stats }

  function NewLifecycle(l: Lane, m: Message): seq<Message> {
    if IsLifecycle(m.kind) then l.lifecycle + [m] else l.lifecycle
  }

  lemma PlacedParts(l: Lane, m: Message, points: set<string>)
    requires Proper(m, points)
    ensures Placed(l, m).stats == NewStats(l, m) && Placed(l, m).lifecycle == NewLifecycle(l, m)
  {
  }

  /** The drain of a tidy lane, through its two parts that matter. */
  lemma LaterPlaced(k: Known, l: Lane, m: Message, points: set<string>, point: string)
    requires Tidy(l, points) && Proper(m, points)
    ensures Later(k, l, point) == LearnAll(LearnAll(k, l.stats, point), l.lifecycle, point)
    ensures Rises(k, Drained(l), point) <==> Rises(k, l.stats, point)
    ensures Later(k, Placed(l, m), point) == LearnAll(LearnAll(k, NewStats(l, m), point), NewLifecycle(l, m), point)
    ensures Rises(k, Drained(Placed(l, m)), point) <==> Rises(k, NewStats(l, m), point)
    ensures StatsSlot(l.stats, points) && LifecycleOnly(l.lifecycle)
  {
    PlacedTidy(l, m, points);
    DrainedTeaches(k, l, points, point);
    DrainedTeaches(k, Placed(l, m), points, point);
    PlacedParts(l, m, points);
  }

  lemma OtherStats(k: Known, stats: seq<Message>, m: Message, points: set<string>, point: string)
    requires StatsSlot(stats, points) && m.kind.Stats? && Proper(m, points) && !About(m, point)
    ensures LearnAll(k, Store(stats, m), point) == LearnAll(k, stats, point)
    ensures Rises(k, Store(stats, m), point) <==> Rises(k, stats, point)
  {
    StoreStats(stats, m, points);
    StoredSlot(stats, m, points, point);
    StatsTeach(k, stats, points, point);
    StatsTeach(k, Store(stats, m), points, point);
  }

  lemma OwnStats(k: Known, stats: seq<Message>, m: Message, points: set<string>, point: string)
    requires StatsSlot(stats, points) && IsStatsOf(m, point) && Proper(m, points)
    ensures LearnAll(k, Store(stats, m), point) == Known(Up, m.stats.value.drops)
    ensures Rises(k, Store(stats, m), point) <==> k.drops <= m.stats.value.drops
  {
    StoreStats(stats, m, points);
    StoredSlot(stats, m, points, point);
    StatsTeach(k, Store(stats, m), points, point);
  }

  lemma LifecycleSnoc(k: Known, ms: seq<Message>, m: Message, point: string)
    ensures LearnAll(k, ms + [m], point) == Learn(LearnAll(k, ms, point), m, point)
  {
    assert (ms + [m])[..|ms|] == ms;
  }

  lemma PlacedOther(k: Known, l: Lane, m: Message, points: set<string>, point: string)
    requires Tidy(l, points) && Proper(m, points) && !About(m, point)
    ensures Later(k, Placed(l, m), point) == Later(k, l, point)
    ensures Rises(k, Drained(Placed(l, m)), point) <==> Rises(k, Drained(l), point)
  {
    LaterPlaced(k, l, m, points, point);
    if m.kind.Stats? {
      OtherStats(k, l.stats, m, points, point);
    } else if IsLifecycle(m.kind) {
      LifecycleSnoc(LearnAll(k, l.stats, point), l.lifecycle, m, point);
    }
  }

  lemma PlacedStats(k: Known, l: Lane, m: Message, points: set<string>, point: string)
    requires Tidy(l, points) && Proper(m, points) && IsStatsOf(m, point)
    ensures Later(k, Placed(l, m), point).drops == m.stats.value.drops
    ensures Rises(k, Drained(Placed(l, m)), point) <==> k.drops <= m.stats.value.drops
    ensures Later(k, Placed(l, m), point).link.Up? || Later(k, Placed(l, m), point).link == Later(k, l, point).link
  {
    LaterPlaced(k, l, m, points, point);
    OwnStats(k, l.stats, m, points, point);
    LifecycleKeepsDrops(Known(Up, m.stats.value.drops), l.lifecycle, point);
    LifecycleDecides(LearnAll(k, l.stats, point), Known(Up, m.stats.value.drops), l.lifecycle, point);
  }

  lemma PlacedLifecycle(k: Known, l: Lane, m: Message, points: set<string>, point: string)
    requires Tidy(l, points) && Proper(m, points) && IsLifecycle(m.kind) && m.point == Some(point)
    ensures Later(k, Placed(l, m), point) == Later(k, l, point).(link := LinkOf(m.kind))
    ensures Rises(k, Drained(Placed(l, m)), point) <==> Rises(k, Drained(l), point)
  {
    LaterPlaced(k, l, m, points, point);
    LifecycleSnoc(LearnAll(k, l.stats, point), l.lifecycle, m, point);
  }

  lemma {:induction false} RisingOnlyAdds(k: Known, ms: seq<Message>, point: string)
    requires Rises(k, ms, point)
    ensures k.drops <= LearnAll(k, ms, point).drops
  {
    if ms != [] {
      RisingOnlyAdds(k, ms[..|ms| - 1], point);
    }
  }

  // ---------------------------------------------------------------- one message handled

  function Of(o: Ops, point: string): Known
    requires point in o.sources && point in o.lastKernel
  {
    Known(o.sources[point].link, o.lastKernel[point])
  }

  ghost predicate Knows(o: Ops, points: set<string>) {
    points <= o.sources.Keys && points <= o.lastKernel.Keys
  }

  /** Nothing recorded of sources or kernel drops changed. */
  predicate SameSources(a: Ops, b: Ops) {
    b.sources == a.sources && b.lastKernel == a.lastKernel && b.kernelDrops == a.kernelDrops
  }

  lemma PublishingLearnsNothing(r: Recorder, w: World)
    ensures SameSources(r.ops, Published(r, w).ops)
  {
  }

  lemma QuietHandling(r: Recorder, m: Message, w: World)
    requires Routable(r.ops, m) && Silent(m)
    ensures SameSources(r.ops, Handled(r, m, w).ops)
  {
    if m.kind.TimerTick? {
      assert SameSources(r.ops, HandledTimer(r, m, w).ops);
      PublishingLearnsNothing(HandledTimer(r, m, w), w);
    } else if m.kind.ReloadRequest? {
      assert SameSources(r.ops, HandledReload(r, m, w).ops);
      PublishingLearnsNothing(HandledReload(r, m, w), w);
    } else if m.kind.ObservationDropped? {
      assert SameSources(r.ops, HandledDrops(r, m).ops);
      PublishingLearnsNothing(HandledDrops(r, m), w);
    }
  }

  lemma LifecycleHandling(r: Recorder, m: Message, w: World)
    requires Routable(r.ops, m) && IsLifecycle(m.kind)
    ensures var o := Handled(r, m, w).ops;
      && o.lastKernel == r.ops.lastKernel && o.kernelDrops == r.ops.kernelDrops
      && o.sources.Keys == r.ops.sources.Keys
      && (forall p :: p in o.sources ==>
            o.sources[p].link == if m.point == Some(p) then LinkOf(m.kind) else r.ops.sources[p].link)
  {
    PublishingLearnsNothing(HandledLifecycle(r, m), w);
  }

  lemma StatsHandling(r: Recorder, m: Message, w: World)
    requires m.kind.Stats? && m.stats.Some? && m.stats.value.point in r.ops.sources
    ensures var o, s := Handled(r, m, w).ops, m.stats.value;
      && o.lastKernel == r.ops.lastKernel[s.point := s.drops]
      && o.kernelDrops == r.ops.kernelDrops + KernelDelta(r.ops, s.point, s.drops)
      && o.sources.Keys == r.ops.sources.Keys
      && (forall p :: p in o.sources ==> o.sources[p].link == if p == s.point then Up else r.ops.sources[p].link)
  {
    PublishingLearnsNothing(HandledStats(r, m), w);
    assert StatsCounted(r, m).ops.sources == r.ops.sources;
  }

  lemma StrikingLearnsNothing(r: Recorder, w: World)
    ensures SameSources(r.ops, Stricken(r, w).ops)
  {
    PublishingLearnsNothing(r.(ops := Raised(r.ops, WorkerDead)), w);
  }

  /** A message whose event is refused has been recorded like any other. */
  lemma RefusingLearns(r: Recorder, m: Message, w: World)
    requires Refusable(m) && Routable(r.ops, m)
    ensures SameSources(Handled(r, m, w).ops, Stricken(Refused(r, m), w).ops)
  {
    StrikingLearnsNothing(Refused(r, m), w);
    if m.kind.ReloadRequest? {
      QuietHandling(r, m, w);
    } else {
      PublishingLearnsNothing(HandledLifecycle(r, m), w);
    }
  }

  /** Handling a message records exactly what it teaches. */
  lemma HandlingLearns(r: Recorder, m: Message, w: World, points: set<string>, point: string)
    requires Routable(r.ops, m) && Proper(m, points) && Knows(r.ops, points) && point in points
    ensures Knows(Handled(r, m, w).ops, points)
    ensures Of(Handled(r, m, w).ops, point) == Learn(Of(r.ops, point), m, point)
  {
    if m.kind.Stats? {
      StatsHandling(r, m, w);
    } else if IsLifecycle(m.kind) {
      LifecycleHandling(r, m, w);
    } else {
      QuietHandling(r, m, w);
    }
  }

  lemma EndingLearnsNothing(r: Recorder, w: World)
    ensures SameSources(r.ops, Ending(r, w).ops)
  {
    PublishingLearnsNothing(r.(ops := Raised(r.ops, ShuttingDown)), w);
  }

  lemma TakingLearns(r: Recorder, m: Message, w: World, points: set<string>, point: string)
    requires Routable(r.ops, m) && Proper(m, points) && Knows(r.ops, points) && point in points
    ensures Knows(Taken(r, m, w).ops, points)
    ensures Of(Taken(r, m, w).ops, point) == Learn(Of(r.ops, point), m, point)
  {
    if StopsWorker(m) {
      EndingLearnsNothing(r, w);
    } else {
      HandlingLearns(r, m, w, points, point);
    }
  }
}
