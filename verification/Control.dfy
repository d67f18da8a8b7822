/** The two channels into the pipeline worker (pipeline.py): the drop-oldest observation queue and
    the control lane, which coalesces and reorders messages.  Every method is one lock-protected
    call, so it is one atomic step of the pipeline. */
module Control {
  import opened Basics
  import opened Models

  datatype Kind =
    | TimerTick | ShutdownRequest | ForceShutdown | ReloadRequest
    | Established | Failed | Retrying | Recovered | Stopped
    | Stats | ObservationDropped

  /** The counters a source reports with its statistics that the worker reads. */
  datatype SourceStats = SourceStats(point: string, generation: string, packets: nat, drops: nat)

  datatype Message = Message(
    kind: Kind,
    at: int,
    point: Option<string>,
    generation: Option<string>,
    stats: Option<SourceStats>,
    detail: Option<string>,
    drops: nat
  )

  function Plain(kind: Kind, at: int): Message {
    Message(kind, at, None, None, None, None, 0)
  }

  function Dropped(at: int, point: string, drops: nat): Message {
    Message(ObservationDropped, at, Some(point), None, None, None, drops)
  }

  function StatsMessage(at: int, stats: SourceStats): Message {
    Message(Stats, at, Some(stats.point), Some(stats.generation), Some(stats), None, 0)
  }

  function Event(kind: Kind, at: int, point: string, generation: Option<string>, detail: Option<string>): Message {
    Message(kind, at, Some(point), generation, None, detail, 0)
  }

  /** A message names its capture point unless the name is absent or empty. */
  predicate Named(m: Message) { m.point.Some? && m.point.value != "" }

  predicate IsLifecycle(kind: Kind) {
    kind.Established? || kind.Failed? || kind.Retrying? || kind.Recovered? || kind.Stopped?
  }

  // ---------------------------------------------------------------- the lane as a value

  /** Sticky slots, the two dictionaries keyed by capture point in insertion order, two queues. */
  datatype Lane = Lane(
    force: Option<Message>,
    shutdown: Option<Message>,
    reload: Option<Message>,
    timer: Option<Message>,
    stats: seq<Message>,
    dropped: seq<Message>,
    lifecycle: seq<Message>,
    items: seq<Message>
  )

  const EMPTY_LANE := Lane(None, None, None, None, [], [], [], [])

  /** The entry for `m`'s capture point, or the length when there is none. */
  function Slot(entries: seq<Message>, point: Option<string>): (i: nat)
    ensures i <= |entries| && (i < |entries| ==> entries[i].point == point)
    ensures forall j :: 0 <= j < i ==> entries[j].point != point
  {
    if entries == [] then 0 else if entries[0].point == point then 0 else 1 + Slot(entries[1..], point)
  }

  /** Dictionary assignment: an existing key keeps its place. */
  function Store(entries: seq<Message>, m: Message): seq<Message> {
    var i := Slot(entries, m.point);
    if i < |entries| then entries[i := m] else entries + [m]
  }

  /** A drop report added to the one already waiting for its capture point. */
  function Summed(entries: seq<Message>, m: Message): Message
    requires Named(m)
  {
    var i := Slot(entries, m.point);
    Dropped(m.at, m.point.value, m.drops + (if i < |entries| then entries[i].drops else 0))
  }

  function Placed(l: Lane, m: Message): Lane {
    if m.kind.ForceShutdown? then l.(force := Some(m), shutdown := None)
    else if m.kind.ShutdownRequest? then (if l.force.None? then l.(shutdown := Some(m)) else l)
    else if m.kind.ReloadRequest? then l.(reload := Some(m))
    else if m.kind.TimerTick? then l.(timer := Some(m))
    else if m.kind.Stats? && Named(m) then l.(stats := Store(l.stats, m))
    else if m.kind.ObservationDropped? && Named(m) then l.(dropped := Store(l.dropped, Summed(l.dropped, m)))
    else if Named(m) && IsLifecycle(m.kind) then l.(lifecycle := l.lifecycle + [m])
    else l.(items := l.items + [m])
  }

  function Pending(slot: Option<Message>): seq<Message> {
    if slot.Some? then [slot.value] else []
  }

  function Urgent(l: Lane): seq<Message> {
    Pending(l.force) + Pending(l.reload) + Pending(l.timer)
  }

  /** Everything waiting, in the order the worker will see it. */
  function Drained(l: Lane): seq<Message> {
    Urgent(l) + l.stats + l.dropped + l.lifecycle + l.items
    + (if l.force.Some? then [] else Pending(l.shutdown))
  }

  // ---------------------------------------------------------------- the observation queue as a value

  /** What `put_drop_oldest` leaves and how many it evicts from the front. */
  function Evicted<T>(items: seq<T>, capacity: nat): (n: nat)
    requires capacity >= 1
    ensures n <= |items| && |items| - n < capacity
    ensures n > 0 ==> |items| - n == capacity - 1
  {
    if |items| < capacity then 0 else |items| - capacity + 1
  }

  class ObservationQueue {
    const capacity: nat
    var items: seq<Observation>

    constructor (capacity: nat)
      ensures this.capacity == capacity && items == []
    {
      this.capacity, items := capacity, [];
    }

    method PutDropOldest(item: Observation) returns (evicted: nat)
      requires capacity >= 1
      modifies this
      ensures evicted == Evicted(old(items), capacity)
      ensures items == old(items)[evicted..] + [item]
      ensures |old(items)| <= capacity ==> |items| <= capacity && evicted <= 1
    {
      evicted := 0;
      while |items| >= capacity
        invariant evicted <= |old(items)| && items == old(items)[evicted..]
        invariant evicted > 0 ==> |items| >= capacity - 1
        decreases |items|
      {
        items := items[1..];
        evicted := evicted + 1;
      }
      items := items + [item];
    }

    /** The oldest item, if there is one; an empty queue is waited on, and `arrived` is what others
        have put by the end of the wait. */
    method Get(arrived: seq<Observation>) returns (item: Option<Observation>)
      modifies this
      ensures var waiting := if old(items) == [] then arrived else old(items);
        && (waiting == [] ==> item == None && items == [])
        && (waiting != [] ==> item == Some(waiting[0]) && items == waiting[1..])
    {
      if items == [] {
        items := arrived;
      }
      if items == [] {
        return None;
      }
      item := Some(items[0]);
      items := items[1..];
    }

    function Size(): nat
      reads this
    {
      |items|
    }

    /** At most `maxItems` of the oldest, or all of them. */
    method Drain(maxItems: Option<nat>) returns (result: seq<Observation>)
      modifies this
      ensures result + items == old(items)
      ensures |result| == if maxItems.None? then |old(items)| else Min(maxItems.value, |old(items)|)
    {
      if maxItems.None? {
        result := items;
        items := [];
        return;
      }
      result := [];
      while items != [] && |result| < maxItems.value
        invariant result + items == old(items)
        invariant |result| <= maxItems.value
        decreases |items|
      {
        result, items := result + [items[0]], items[1..];
      }
    }
  }

  class ControlLane {
    var force: Option<Message>
    var shutdown: Option<Message>
    var reloadPending: Option<Message>
    var latestTimer: Option<Message>
    var latestStats: seq<Message>
    var droppedSum: seq<Message>
    var lifecycle: seq<Message>
    var items: seq<Message>

    ghost function View(): Lane
      reads this
    {
      Lane(force, shutdown, reloadPending, latestTimer, latestStats, droppedSum, lifecycle, items)
    }

    constructor ()
      ensures View() == EMPTY_LANE
    {
      force, shutdown, reloadPending, latestTimer := None, None, None, None;
      latestStats, droppedSum, lifecycle, items := [], [], [], [];
    }

    method Put(m: Message)
      modifies this
      ensures View() == Placed(old(View()), m)
    {
      if m.kind.ForceShutdown? {
        force, shutdown := Some(m), None;
      } else if m.kind.ShutdownRequest? {
        if force.None? {
          shutdown := Some(m);
        }
      } else if m.kind.ReloadRequest? {
        reloadPending := Some(m);
      } else if m.kind.TimerTick? {
        latestTimer := Some(m);
      } else if m.kind.Stats? && Named(m) {
        latestStats := Store(latestStats, m);
      } else if m.kind.ObservationDropped? && Named(m) {
        droppedSum := Store(droppedSum, Summed(droppedSum, m));
      } else if Named(m) && IsLifecycle(m.kind) {
        lifecycle := lifecycle + [m];
      } else {
        items := items + [m];
      }
    }

    /** The sticky slots that go first; a forced shutdown also cancels a graceful one. */
    method TakeUrgent() returns (messages: seq<Message>)
      modifies this
      ensures messages == Urgent(old(View()))
      ensures View() == old(View()).(force := None, reload := None, timer := None,
                                     shutdown := if old(force).Some? then None else old(shutdown))
    {
      messages := Pending(force);
      if force.Some? {
        force, shutdown := None, None;
      }
      if reloadPending.Some? {
        messages := messages + [reloadPending.value];
        reloadPending := None;
      }
      if latestTimer.Some? {
        messages := messages + [latestTimer.value];
        latestTimer := None;
      }
    }

    method Drain() returns (messages: seq<Message>)
      modifies this
      ensures messages == Drained(old(View())) && View() == EMPTY_LANE
    {
      messages := TakeUrgent();
      messages := messages + latestStats + droppedSum + lifecycle;
      latestStats, droppedSum, lifecycle := [], [], [];
      ghost var front := messages;
      while items != []
        invariant messages + items == front + old(items)
        invariant View() == EMPTY_LANE.(items := items, shutdown := shutdown)
        invariant shutdown == if old(force).Some? then None else old(shutdown)
        decreases |items|
      {
        messages, items := messages + [items[0]], items[1..];
      }
      assert messages == front + old(items);
      if shutdown.Some? {
        messages := messages + [shutdown.value];
        shutdown := None;
      }
    }
  }
}
