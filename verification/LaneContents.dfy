/** What a drain of the control lane returns, from the messages put since the last one: the last of each
    request and statistic, the sum of drops, every lifecycle message, in a fixed order. */
module LaneContents {
  import opened Basics
  import opened Control

  /** The lane after these messages were put into an empty one. */
  function PutAll(ms: seq<Message>): Lane {
    if ms == [] then EMPTY_LANE else Placed(PutAll(ms[..|ms| - 1]), ms[|ms| - 1])
  }

  // ---------------------------------------------------------------- what was put

  /** The last message of a kind. */
  function LastOf(ms: seq<Message>, kind: Kind): Option<Message> {
    if ms == [] then None
    else if ms[|ms| - 1].kind == kind then Some(ms[|ms| - 1])
    else LastOf(ms[..|ms| - 1], kind)
  }

  /** The last statistics of a capture point. */
  function LastStats(ms: seq<Message>, point: string): Option<Message> {
    if ms == [] then None else
      var m := ms[|ms| - 1];
      if m.kind == Stats && m.point == Some(point) then Some(m) else LastStats(ms[..|ms| - 1], point)
  }

  /** The drop reports of a capture point as one: their sum, at the time of the last. */
  function DropsOf(ms: seq<Message>, point: string): Option<Message> {
    if ms == [] then None else
      var m, before := ms[|ms| - 1], DropsOf(ms[..|ms| - 1], point);
      if m.kind == ObservationDropped && m.point == Some(point)
      then Some(Dropped(m.at, point, m.drops + (if before.Some? then before.value.drops else 0)))
      else before
  }

  /** Messages of a source about its life. */
  predicate OfLife(m: Message) {
    && m.point.Some? && m.point.value != ""
    && (m.kind == Established || m.kind == Failed || m.kind == Retrying || m.kind == Recovered || m.kind == Stopped)
  }

  function LivesOf(ms: seq<Message>): seq<Message> {
    if ms == [] then [] else LivesOf(ms[..|ms| - 1]) + (if OfLife(ms[|ms| - 1]) then [ms[|ms| - 1]] else [])
  }

  /** The entry of a point. */
  function EntryOf(entries: seq<Message>, point: string): Option<Message> {
    var i := Slot(entries, Some(point));
    if i < |entries| then Some(entries[i]) else None
  }

  ghost predicate OnePerPoint(entries: seq<Message>, kind: Kind) {
    && (forall j :: 0 <= j < |entries| ==> entries[j].kind == kind && Named(entries[j]))
    && (forall i, j :: 0 <= i < j < |entries| ==> entries[i].point != entries[j].point)
  }

  lemma StoredEntry(entries: seq<Message>, m: Message, point: string)
    requires m.point.Some?
    ensures EntryOf(Store(entries, m), point) == if m.point == Some(point) then Some(m) else EntryOf(entries, point)
  {
    var i, k := Slot(entries, m.point), Slot(entries, Some(point));
    var stored := Store(entries, m);
    var n := Slot(stored, Some(point));
    if i < |entries| {
      assert forall j :: 0 <= j < |entries| ==> stored[j].point == entries[j].point;
      SameSlot(entries, stored, Some(point));
    } else {
      SlotBefore(entries, m, Some(point));
    }
  }

  lemma {:induction false} SameSlot(a: seq<Message>, b: seq<Message>, point: Option<string>)
    requires |a| == |b| && forall j :: 0 <= j < |a| ==> a[j].point == b[j].point
    ensures Slot(a, point) == Slot(b, point)
  {
    if a != [] && a[0].point != point {
      SameSlot(a[1..], b[1..], point);
    }
  }

  lemma SlotBefore(entries: seq<Message>, m: Message, point: Option<string>)
    ensures Slot(entries + [m], point)
      == if Slot(entries, point) < |entries| then Slot(entries, point)
         else if m.point == point then |entries| else |entries| + 1
  {
    var all, i := entries + [m], Slot(entries, point);
    var n := Slot(all, point);
    assert forall j :: 0 <= j < |entries| ==> all[j] == entries[j];
    assert all[|entries|] == m;
  }

  lemma StoredOnePerPoint(entries: seq<Message>, m: Message)
    requires OnePerPoint(entries, m.kind) && Named(m)
    ensures OnePerPoint(Store(entries, m), m.kind)
  {
  }

  // ---------------------------------------------------------------- what the lane holds

  /** The last of each request, a forced shutdown instead of any graceful one. */
  predicate HoldsRequests(ms: seq<Message>, l: Lane) {
    && l.force == LastOf(ms, ForceShutdown)
    && l.shutdown == (if LastOf(ms, ForceShutdown).Some? then None else LastOf(ms, ShutdownRequest))
    && l.reload == LastOf(ms, ReloadRequest) && l.timer == LastOf(ms, TimerTick)
  }

  ghost predicate HoldsStats(ms: seq<Message>, stats: seq<Message>) {
    OnePerPoint(stats, Stats) && forall p :: p != "" ==> EntryOf(stats, p) == LastStats(ms, p)
  }

  ghost predicate HoldsDrops(ms: seq<Message>, dropped: seq<Message>) {
    OnePerPoint(dropped, ObservationDropped) && forall p :: p != "" ==> EntryOf(dropped, p) == DropsOf(ms, p)
  }

  /** The lane holds exactly what the messages leave to be drained. */
  ghost predicate Holds(ms: seq<Message>, l: Lane) {
    && HoldsRequests(ms, l) && l.lifecycle == LivesOf(ms)
    && HoldsStats(ms, l.stats) && HoldsDrops(ms, l.dropped)
  }

  lemma LastSnoc(ms: seq<Message>, m: Message, kind: Kind)
    ensures LastOf(ms + [m], kind) == if m.kind == kind then Some(m) else LastOf(ms, kind)
  {
    assert (ms + [m])[..|ms|] == ms;
  }

  lemma LivesSnoc(ms: seq<Message>, m: Message)
    ensures OfLife(m) ==> LivesOf(ms + [m]) == LivesOf(ms) + [m]
    ensures !OfLife(m) ==> LivesOf(ms + [m]) == LivesOf(ms)
  {
    assert (ms + [m])[..|ms|] == ms;
    NothingAfter(LivesOf(ms));
  }

  lemma PlacedLives(l: Lane, m: Message)
    ensures Placed(l, m).lifecycle == if OfLife(m) then l.lifecycle + [m] else l.lifecycle
  {
  }

  lemma StatsSnoc(ms: seq<Message>, m: Message, p: string)
    ensures LastStats(ms + [m], p) == if m.kind == Stats && m.point == Some(p) then Some(m) else LastStats(ms, p)
  {
    assert (ms + [m])[..|ms|] == ms;
  }

  lemma DropsSnoc(ms: seq<Message>, m: Message, p: string)
    ensures DropsOf(ms + [m], p) ==
      if m.kind == ObservationDropped && m.point == Some(p)
      then Some(Dropped(m.at, p, m.drops + (if DropsOf(ms, p).Some? then DropsOf(ms, p).value.drops else 0)))
      else DropsOf(ms, p)
  {
    assert (ms + [m])[..|ms|] == ms;
  }

  lemma PutRequests(ms: seq<Message>, l: Lane, m: Message)
    requires HoldsRequests(ms, l)
    ensures HoldsRequests(ms + [m], Placed(l, m))
  {
    LastSnoc(ms, m, ForceShutdown);
    LastSnoc(ms, m, ShutdownRequest);
    LastSnoc(ms, m, ReloadRequest);
    LastSnoc(ms, m, TimerTick);
  }

  lemma PutLives(ms: seq<Message>, l: Lane, m: Message)
    requires l.lifecycle == LivesOf(ms)
    ensures Placed(l, m).lifecycle == LivesOf(ms + [m])
  {
    LivesSnoc(ms, m);
    PlacedLives(l, m);
  }

  lemma PutStats(ms: seq<Message>, l: Lane, m: Message)
    requires HoldsStats(ms, l.stats)
    ensures HoldsStats(ms + [m], Placed(l, m).stats)
  {
    if m.kind.Stats? && Named(m) {
      StoredOnePerPoint(l.stats, m);
    }
    forall p | p != "" ensures EntryOf(Placed(l, m).stats, p) == LastStats(ms + [m], p) {
      StatsSnoc(ms, m, p);
      if m.kind.Stats? && Named(m) {
        StoredEntry(l.stats, m, p);
      }
    }
  }

  lemma PutDrops(ms: seq<Message>, l: Lane, m: Message)
    requires HoldsDrops(ms, l.dropped)
    ensures HoldsDrops(ms + [m], Placed(l, m).dropped)
  {
    if m.kind.ObservationDropped? && Named(m) {
      var sum := Summed(l.dropped, m);
      StoredOnePerPoint(l.dropped, sum);
      assert EntryOf(l.dropped, m.point.value) == DropsOf(ms, m.point.value);
      forall p | p != "" ensures EntryOf(Store(l.dropped, sum), p) == DropsOf(ms + [m], p) {
        DropsSnoc(ms, m, p);
        StoredEntry(l.dropped, sum, p);
      }
    } else {
      forall p | p != "" ensures DropsOf(ms + [m], p) == DropsOf(ms, p) {
        DropsSnoc(ms, m, p);
      }
    }
  }

  /** Whatever was put since the last drain: the lane holds the last of each request (a forced shutdown
      instead of any graceful one), the last statistics and the sum of drops of each point, and every
      lifecycle message in order. */
  lemma {:induction false} LaneHolds(ms: seq<Message>)
    ensures Holds(ms, PutAll(ms))
  {
    if ms != [] {
      LaneHolds(ms[..|ms| - 1]);
      var front, l, m := ms[..|ms| - 1], PutAll(ms[..|ms| - 1]), ms[|ms| - 1];
      assert front + [m] == ms;
      PutRequests(front, l, m);
      PutLives(front, l, m);
      PutStats(front, l, m);
      PutDrops(front, l, m);
    }
  }

  // ---------------------------------------------------------------- the order of a drain

  /** When the worker sees a message of a batch: forced shutdown, reload, timer, statistics, drops, lifecycle
      messages, anything without a point, graceful shutdown. */
  function Rank(m: Message): nat {
    match m.kind
    case ForceShutdown => 0
    case ReloadRequest => 1
    case TimerTick => 2
    case Stats => if Named(m) then 3 else 6
    case ObservationDropped => if Named(m) then 4 else 6
    case ShutdownRequest => 7
    case _ => if Named(m) then 5 else 6
  }

  ghost predicate Ranked(ms: seq<Message>, low: nat, high: nat) {
    && (forall j :: 0 <= j < |ms| ==> low <= Rank(ms[j]) <= high)
    && (forall i, j :: 0 <= i < j < |ms| ==> Rank(ms[i]) <= Rank(ms[j]))
  }

  lemma RankedJoin(a: seq<Message>, b: seq<Message>, low: nat, mid: nat, up: nat, high: nat)
    requires Ranked(a, low, mid) && Ranked(b, up, high) && low <= mid <= up <= high
    ensures Ranked(a + b, low, high)
  {
  }

  /** Each slot holds its own kind. */
  ghost predicate Sorted(l: Lane) {
    && (l.force.Some? ==> Rank(l.force.value) == 0) && (l.reload.Some? ==> Rank(l.reload.value) == 1)
    && (l.timer.Some? ==> Rank(l.timer.value) == 2) && (l.shutdown.Some? ==> Rank(l.shutdown.value) == 7)
    && Ranked(l.stats, 3, 3) && Ranked(l.dropped, 4, 4) && Ranked(l.lifecycle, 5, 5) && Ranked(l.items, 6, 6)
  }

  lemma StoreRanked(entries: seq<Message>, m: Message, rank: nat)
    requires Ranked(entries, rank, rank) && Rank(m) == rank
    ensures Ranked(Store(entries, m), rank, rank) && Ranked(entries + [m], rank, rank)
  {
  }

  lemma PlacedSorted(l: Lane, m: Message)
    requires Sorted(l)
    ensures Sorted(Placed(l, m)) == true
  {
    if m.kind.Stats? && Named(m) {
      StoreRanked(l.stats, m, 3);
    } else if m.kind.ObservationDropped? && Named(m) {
      StoreRanked(l.dropped, Summed(l.dropped, m), 4);
    } else if Named(m) && IsLifecycle(m.kind) {
      StoreRanked(l.lifecycle, m, 5);
    } else if Rank(m) == 6 {
      StoreRanked(l.items, m, 6);
    }
  }

  lemma {:induction false} PutSorted(ms: seq<Message>)
    ensures Sorted(PutAll(ms))
  {
    if ms != [] {
      PutSorted(ms[..|ms| - 1]);
      PlacedSorted(PutAll(ms[..|ms| - 1]), ms[|ms| - 1]);
    }
  }

  /** Whatever was put, a drain returns it in rank order: a forced shutdown first, then reload and timer,
      statistics before drops before lifecycle messages, and a graceful shutdown behind everything. */
  lemma DrainInOrder(ms: seq<Message>)
    ensures Ranked(Drained(PutAll(ms)), 0, 7)
  {
    PutSorted(ms);
    var l := PutAll(ms);
    RankedJoin(Pending(l.force), Pending(l.reload), 0, 0, 1, 1);
    RankedJoin(Pending(l.force) + Pending(l.reload), Pending(l.timer), 0, 1, 2, 2);
    RankedJoin(Urgent(l), l.stats, 0, 2, 3, 3);
    RankedJoin(Urgent(l) + l.stats, l.dropped, 0, 3, 4, 4);
    RankedJoin(Urgent(l) + l.stats + l.dropped, l.lifecycle, 0, 4, 5, 5);
    RankedJoin(Urgent(l) + l.stats + l.dropped + l.lifecycle, l.items, 0, 5, 6, 6);
    var last := if l.force.Some? then [] else Pending(l.shutdown);
    RankedJoin(Urgent(l) + l.stats + l.dropped + l.lifecycle + l.items, last, 0, 6, 7, 7);
  }
}
