/** The control lane coalesces and reorders, and the worker's record of the sources does not show it:
    once the lane is empty and its last batch handled, each source's recorded state is the one its
    last lifecycle message names, and the kernel drop total is the sum of all drops reported. */
module PipelineSources {
  import opened Basics
  import opened Control
  import opened OpsState
  import opened Worker

  // ---------------------------------------------------------------- what messages teach about a point

  /** What is recorded of a capture point: its link state and its cumulative kernel drops. */
  datatype Known = Known(link: Link, drops: nat)

  predicate IsStatsOf(m: Message, point: string) { m.kind.Stats? && m.stats.Some? && m.stats.value.point == point }

  predicate About(m: Message, point: string) {
    IsStatsOf(m, point) || (IsLifecycle(m.kind) && m.point == Some(point))
  }

  function Learn(k: Known, m: Message, point: string): Known {
    if IsStatsOf(m, point) then Known(Up, m.stats.value.drops)
    else if About(m, point) then k.(link := LinkOf(m.kind))
    else k
  }

  function LearnAll(k: Known, ms: seq<Message>, point: string): Known {
    if ms == [] then k else Learn(LearnAll(k, ms[..|ms| - 1], point), ms[|ms| - 1], point)
  }

  /** No message reports fewer drops than were known when it is handled. */
  predicate Rises(k: Known, ms: seq<Message>, point: string) {
    ms == [] ||
    (Rises(k, ms[..|ms| - 1], point)
     && (IsStatsOf(ms[|ms| - 1], point) ==>
           LearnAll(k, ms[..|ms| - 1], point).drops <= ms[|ms| - 1].stats.value.drops))
  }

  lemma {:induction false} LearnAppend(k: Known, a: seq<Message>, b: seq<Message>, point: string)
    ensures LearnAll(k, a + b, point) == LearnAll(LearnAll(k, a, point), b, point)
    ensures Rises(k, a + b, point) <==> Rises(k, a, point) && Rises(LearnAll(k, a, point), b, point)
  {
    if b == [] {
      assert a + b == a;
    } else {
      assert (a + b)[..|a + b| - 1] == a + b[..|b| - 1];
      LearnAppend(k, a, b[..|b| - 1], point);
    }
  }

  lemma {:induction false} OthersTeachNothing(k: Known, ms: seq<Message>, point: string)
    requires forall j :: 0 <= j < |ms| ==> !About(ms[j], point)
    ensures LearnAll(k, ms, point) == k && Rises(k, ms, point)
  {
    if ms != [] {
      OthersTeachNothing(k, ms[..|ms| - 1], point);
    }
  }

  /** A message a source of one of the `points`, the timer or an outside request may send. */
  predicate Proper(m: Message, points: set<string>) {
    && (m.kind.Stats? ==> m.stats.Some? && m.point == Some(m.stats.value.point))
    && (m.kind.Stats? || m.kind.ObservationDropped? || IsLifecycle(m.kind) ==>
          Named(m) && m.point.value in points)
  }

  predicate Silent(m: Message) { !m.kind.Stats? && !IsLifecycle(m.kind) }

  ghost predicate SilentAll(ms: seq<Message>, points: set<string>) {
    forall m :: m in ms ==> Silent(m) && Proper(m, points)
  }

  lemma SilenceTeachesNothing(k: Known, ms: seq<Message>, points: set<string>, point: string)
    requires SilentAll(ms, points)
    ensures LearnAll(k, ms, point) == k && Rises(k, ms, point)
  {
    forall j | 0 <= j < |ms| ensures !About(ms[j], point) {
      assert Silent(ms[j]);
    }
    OthersTeachNothing(k, ms, point);
  }

  ghost predicate LifecycleOnly(ms: seq<Message>) { forall j :: 0 <= j < |ms| ==> IsLifecycle(ms[j].kind) }

  lemma {:induction false} LifecycleKeepsDrops(k: Known, ms: seq<Message>, point: string)
    requires LifecycleOnly(ms)
    ensures LearnAll(k, ms, point).drops == k.drops && Rises(k, ms, point)
  {
    if ms != [] {
      LifecycleKeepsDrops(k, ms[..|ms| - 1], point);
    }
  }

  /** The link after lifecycle messages: one of them decides it, or it is what it was before. */
  lemma {:induction false} LifecycleDecides(k: Known, k': Known, ms: seq<Message>, point: string)
    requires LifecycleOnly(ms)
    ensures LearnAll(k, ms, point).link == LearnAll(k', ms, point).link
            || (LearnAll(k, ms, point).link == k.link && LearnAll(k', ms, point).link == k'.link)
  {
    if ms != [] {
      LifecycleDecides(k, k', ms[..|ms| - 1], point);
      assert !IsStatsOf(ms[|ms| - 1], point);
    }
  }

  // ---------------------------------------------------------------- the lane

  /** Statistics of known points, once per point. */
  ghost predicate StatsSlot(stats: seq<Message>, points: set<string>) {
    && (forall j :: 0 <= j < |stats| ==> stats[j].kind.Stats? && Proper(stats[j], points))
    && (forall i, j :: 0 <= i < j < |stats| ==> stats[i].point != stats[j].point)
  }

  ghost predicate LifecycleSlot(ms: seq<Message>, points: set<string>) {
    forall j :: 0 <= j < |ms| ==> IsLifecycle(ms[j].kind) && Proper(ms[j], points)
  }

  /** Each kind in its own slot. */
  ghost predicate Tidy(l: Lane, points: set<string>) {
    && l.items == []
    && StatsSlot(l.stats, points) && LifecycleSlot(l.lifecycle, points)
    && SilentAll(l.dropped, points)
    && SilentAll(Pending(l.force), points) && SilentAll(Pending(l.reload), points)
      && SilentAll(Pending(l.timer), points) && SilentAll(Pending(l.shutdown), points)
  }

  /** A source's statistics teach what its one entry says. */
  lemma {:induction false} StatsTeach(k: Known, stats: seq<Message>, points: set<string>, point: string)
    requires StatsSlot(stats, points)
    ensures var i := Slot(stats, Some(point));
      LearnAll(k, stats, point) == if i < |stats| then Known(Up, stats[i].stats.value.drops) else k
    ensures var i := Slot(stats, Some(point));
      Rises(k, stats, point) <==> (i < |stats| ==> k.drops <= stats[i].stats.value.drops)
  {
    if stats != [] {
      var front, last := stats[..|stats| - 1], stats[|stats| - 1];
      StatsTeach(k, front, points, point);
      assert stats == front + [last];
      SlotSnoc(front, last, Some(point));
      LearnAppend(k, front, [last], point);
      OneTeaches(LearnAll(k, front, point), last, point);
      OnePerPoint(front, last, stats, points, point);
    }
  }

  lemma OnePerPoint(front: seq<Message>, last: Message, stats: seq<Message>, points: set<string>, point: string)
    requires stats == front + [last] && StatsSlot(stats, points)
    ensures Slot(front, Some(point)) < |front| ==> !IsStatsOf(last, point)
    ensures IsStatsOf(last, point) <==> last.point == Some(point)
  {
    assert stats[|front|] == last;
    if Slot(front, Some(point)) < |front| {
      assert stats[Slot(front, Some(point))].point != stats[|front|].point;
    }
  }

  lemma {:induction false} SlotSnoc(entries: seq<Message>, m: Message, point: Option<string>)
    ensures Slot(entries + [m], point) ==
      if Slot(entries, point) < |entries| || m.point == point then Slot(entries, point) else |entries| + 1
  {
    if entries != [] {
      assert (entries + [m])[1..] == entries[1..] + [m];
      SlotSnoc(entries[1..], m, point);
    }
  }

  lemma OneTeaches(k: Known, m: Message, point: string)
    ensures LearnAll(k, [m], point) == Learn(k, m, point)
    ensures Rises(k, [m], point) <==> (IsStatsOf(m, point) ==> k.drops <= m.stats.value.drops)
  {
    assert [m][..0] == [];
  }

  /** Out of the whole lane, only statistics and then lifecycle messages teach anything. */
  lemma DrainedTeaches(k: Known, l: Lane, points: set<string>, point: string)
    requires Tidy(l, points)
    ensures LearnAll(k, Drained(l), point) == LearnAll(LearnAll(k, l.stats, point), l.lifecycle, point)
    ensures Rises(k, Drained(l), point) <==> Rises(k, l.stats, point)
  {
    var last := if l.force.Some? then [] else Pending(l.shutdown);
    var upToStats := Urgent(l) + l.stats;
    LearnAppend(k, Urgent(l), l.stats, point);
    SilenceTeachesNothing(k, Urgent(l), points, point);
    LearnAppend(k, upToStats, l.dropped, point);
    SilenceTeachesNothing(LearnAll(k, l.stats, point), l.dropped, points, point);
    LearnAppend(k, upToStats + l.dropped, l.lifecycle, point);
    LifecycleKeepsDrops(LearnAll(k, l.stats, point), l.lifecycle, point);
    LearnAppend(k, upToStats + l.dropped + l.lifecycle, l.items, point);
    LearnAppend(k, upToStats + l.dropped + l.lifecycle + l.items, last, point);
    SilenceTeachesNothing(LearnAll(LearnAll(k, l.stats, point), l.lifecycle, point), last, points, point);
  }

  lemma StoreStats(stats: seq<Message>, m: Message, points: set<string>)
    requires StatsSlot(stats, points) && m.kind.Stats? && Proper(m, points)
    ensures StatsSlot(Store(stats, m), points)
  {
  }

  lemma StoreSilent(entries: seq<Message>, m: Message, points: set<string>)
    requires SilentAll(entries, points) && Silent(m) && Proper(m, points)
    ensures SilentAll(Store(entries, m), points)
  {
  }

  lemma PlacedTidy(l: Lane, m: Message, points: set<string>)
    requires Tidy(l, points) && Proper(m, points)
    ensures Tidy(Placed(l, m), points) == true
  {
    if m.kind.Stats? {
      StoreStats(l.stats, m, points);
    } else if m.kind.ObservationDropped? {
      StoreSilent(l.dropped, Summed(l.dropped, m), points);
    }
  }

  /** After statistics were put: their own point has just this entry, other points are unaffected. */
  lemma StoredSlot(stats: seq<Message>, m: Message, points: set<string>, point: string)
    requires StatsSlot(stats, points) && m.kind.Stats? && Proper(m, points)
    ensures var t, i := Store(stats, m), Slot(Store(stats, m), Some(point));
      if m.stats.value.point == point then i < |t| && t[i] == m
      else (i < |t| <==> Slot(stats, Some(point)) < |stats|) && (i < |t| ==> t[i] == stats[Slot(stats, Some(point))])
  {
    var t, at := Store(stats, m), Slot(stats, m.point);
    if m.stats.value.point == point {
      SlotIs(t, Some(point), at);
    } else {
      var j := Slot(stats, Some(point));
      if j < |stats| {
        SlotIs(t, Some(point), j);
      } else {
        SlotMissing(t, Some(point));
      }
    }
  }

  lemma SlotIs(entries: seq<Message>, point: Option<string>, i: nat)
    requires i < |entries| && entries[i].point == point
    requires forall j :: 0 <= j < i ==> entries[j].point != point
    ensures Slot(entries, point) == i
  {
  }

  lemma SlotMissing(entries: seq<Message>, point: Option<string>)
    requires forall j :: 0 <= j < |entries| ==> entries[j].point != point
    ensures Slot(entries, point) == |entries|
  {
  }
}
