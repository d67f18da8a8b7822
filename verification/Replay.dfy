/** Event-time replay (replay.py): a heap and a watermark in front of the episode processor.  `PcapReplay`
    feeds it a capture file. */
module Replay {
  import opened Basics
  import opened Models
  import opened Ordering
  import opened Policy
  import opened Processing
  import opened Runs

  /** A time, or minus infinity. */
  datatype Stamp = NegInf | At(micros: int) {
    predicate Above(t: int) { At? && micros > t }      // t < this

    function Raise(t: int): Stamp { if Above(t) then this else At(t) }

    function Minus(d: int): Stamp { if NegInf? then NegInf else At(micros - d) }

    function MaxWith(other: Stamp): Stamp { if other.NegInf? then this else Raise(other.micros) }
  }

  // ---------------------------------------------------------------- the reference schedule

  /** One call of the processor: an observation and the lifecycle time it is processed at. */
  datatype Item = Item(time: int, observation: Observation)

  predicate ByTime(a: Item, b: Item) { a.time <= b.time }

  predicate ByCapture(a: Observation, b: Observation) { a.capturedAt <= b.capturedAt }

  /** The largest capture time. */
  function Latest(records: seq<Observation>): Stamp {
    if records == [] then NegInf else Latest(records[..|records| - 1]).Raise(records[|records| - 1].capturedAt)
  }

  /** A record is late iff it is older than the largest earlier time minus the lateness. */
  predicate LateAfter(earlier: seq<Observation>, o: Observation, lateness: int) {
    Latest(earlier).Minus(lateness).Above(o.capturedAt)
  }

  /** On time: processed at its own time.  Late: marked, and processed at the watermark. */
  function ItemAfter(earlier: seq<Observation>, o: Observation, lateness: int): Item {
    if LateAfter(earlier, o, lateness) then Item(Latest(earlier).Minus(lateness).micros, o.(late := true))
    else Item(o.capturedAt, o)
  }

  function Items(records: seq<Observation>, lateness: int): (r: seq<Item>)
    ensures |r| == |records|
  {
    if records == [] then [] else
      var n := |records| - 1;
      Items(records[..n], lateness) + [ItemAfter(records[..n], records[n], lateness)]
  }

  /** All records once each, stably sorted by the time they are to be processed at. */
  function Schedule(records: seq<Observation>, lateness: int): seq<Item> {
    StableSort(ByTime, Items(records, lateness))
  }

  function OpOf(item: Item): Op {
    ObserveOp(item.observation, item.time, item.time)
  }

  function OpsOf(items: seq<Item>): (ops: seq<Op>)
    ensures |ops| == |items|
    ensures forall op :: op in ops ==> op.ObserveOp?
  {
    if items == [] then [] else OpsOf(items[..|items| - 1]) + [OpOf(items[|items| - 1])]
  }

  lemma OpsSnoc(items: seq<Item>, item: Item)
    ensures OpsOf(items + [item]) == OpsOf(items) + [OpOf(item)]
  {
    assert (items + [item])[..|items|] == items;
  }

  /** The operations of a whole replay: the schedule, then one close of everything. */
  function ReplayOps(records: seq<Observation>, lateness: int): seq<Op> {
    var items := Schedule(records, lateness);
    OpsOf(items) + (if records == [] then [] else
      var end := Max(items[|items| - 1].time, 0);
      [CloseAllOp(SourceExhausted, end, end)])
  }

  lemma TimeOrder()
    ensures TotalPreorder(ByTime) && TotalPreorder(ByCapture)
  {
  }

  // ---------------------------------------------------------------- the heap: entries in pop order

  datatype Entry = Entry(time: int, ordinal: nat, observation: Observation)

  predicate EntryLeq(a: Entry, b: Entry) {
    a.time < b.time || (a.time == b.time && a.ordinal <= b.ordinal)
  }

  function ItemOf(e: Entry): Item {
    Item(e.time, e.observation)
  }

  function Pending(entries: seq<Entry>): seq<Item> {
    if entries == [] then [] else Pending(entries[..|entries| - 1]) + [ItemOf(entries[|entries| - 1])]
  }

  lemma PendingSnoc(entries: seq<Entry>, e: Entry)
    ensures Pending(entries + [e]) == Pending(entries) + [ItemOf(e)]
  {
    assert (entries + [e])[..|entries|] == entries;
  }

  lemma {:induction false} PendingAppend(a: seq<Entry>, b: seq<Entry>)
    ensures Pending(a + b) == Pending(a) + Pending(b)
    ensures |Pending(b)| == |b|
  {
    if b == [] {
      assert a + b == a;
    } else {
      var front, last := b[..|b| - 1], b[|b| - 1];
      PendingAppend(a, front);
      PendingSnoc(a + front, last);
      PendingSnoc(front, last);
      assert a + b == a + front + [last] && b == front + [last];
    }
  }

  lemma PopIsHead(entries: seq<Entry>)
    requires entries != []
    ensures Pending(entries) == [ItemOf(entries[0])] + Pending(entries[1..])
  {
    var first := [entries[0]];
    PendingAppend(first, entries[1..]);
    assert first + entries[1..] == entries && first[..0] == [];
    assert Pending(first) == [] + [ItemOf(entries[0])];
  }

  lemma {:induction false} PendingFrom(entries: seq<Entry>, y: Item)
    requires y in Pending(entries)
    ensures exists e :: e in entries && ItemOf(e) == y
  {
    if entries != [] {
      var n := |entries| - 1;
      if y in Pending(entries[..n]) {
        PendingFrom(entries[..n], y);
      } else {
        assert entries[n] in entries;
      }
    }
  }

  /** A newcomer has the largest ordinal, so the heap order is the stable order by time. */
  lemma {:induction false} PushIsStable(entries: seq<Entry>, e: Entry)
    requires forall x :: x in entries ==> x.ordinal < e.ordinal
    ensures Pending(Insert(EntryLeq, entries, e)) == Insert(ByTime, Pending(entries), ItemOf(e))
  {
    PendingSnoc(entries, e);
    if entries != [] {
      var front, last := entries[..|entries| - 1], entries[|entries| - 1];
      assert last in entries;
      PushIsStable(front, e);
      PendingSnoc(Insert(EntryLeq, front, e), last);
      var pending := Pending(entries);
      assert pending[..|pending| - 1] == Pending(front) && pending[|pending| - 1] == ItemOf(last);
    }
  }

  lemma {:induction false} PushMembers(entries: seq<Entry>, e: Entry)
    ensures forall x :: x in Insert(EntryLeq, entries, e) <==> x in entries || x == e
  {
    InsertMultiset(EntryLeq, entries, e);
    forall x ensures x in Insert(EntryLeq, entries, e) <==> x in entries || x == e {
      assert x in Insert(EntryLeq, entries, e) <==> x in multiset(Insert(EntryLeq, entries, e));
      assert x in entries <==> x in multiset(entries);
    }
  }

  // ---------------------------------------------------------------- the algorithm

  /** Processed items followed by waiting ones are the reference schedule, and the heap pops in
      (time, ordinal) order. */
  ghost predicate Waiting(done: seq<Item>, entries: seq<Entry>, records: seq<Observation>, lateness: int) {
    && done + Pending(entries) == Schedule(records, lateness)
    && Sorted(EntryLeq, entries)
  }

  /** Everything processed is at or below the watermark. */
  ghost predicate UpTo(done: seq<Item>, watermark: Stamp) {
    forall d :: d in done ==> watermark.At? && d.time <= watermark.micros
  }

  ghost predicate Beyond(entries: seq<Entry>, watermark: Stamp) {
    forall e :: e in entries ==> !(watermark.At? && e.time <= watermark.micros)
  }

  ghost predicate Numbered(entries: seq<Entry>, ordinal: nat) {
    forall e :: e in entries ==> e.ordinal < ordinal
  }

  /** The lifecycle clock shows the time of the last call. */
  function ClockOf(done: seq<Item>): Stamp {
    if done == [] then NegInf else At(done[|done| - 1].time)
  }

  lemma ScheduleSnoc(records: seq<Observation>, o: Observation, lateness: int)
    ensures Schedule(records + [o], lateness)
      == Insert(ByTime, Schedule(records, lateness), ItemAfter(records, o, lateness))
    ensures Latest(records + [o]) == Latest(records).Raise(o.capturedAt)
  {
    var all := records + [o];
    assert all[..|all| - 1] == records;
    var items := Items(all, lateness);
    assert items[..|items| - 1] == Items(records, lateness);
  }

  /** A late record joins right behind everything processed so far. */
  lemma LateStep(done: seq<Item>, entries: seq<Entry>, records: seq<Observation>, o: Observation, lateness: int)
    requires lateness >= 0 && LateAfter(records, o, lateness)
    requires Waiting(done, entries, records, lateness)
    requires UpTo(done, Latest(records).Minus(lateness)) && Beyond(entries, Latest(records).Minus(lateness))
    ensures var now := done + [ItemAfter(records, o, lateness)];
      && Waiting(now, entries, records + [o], lateness) && UpTo(now, Latest(records).Minus(lateness))
      && Latest(records + [o]) == Latest(records)
      && !ClockOf(done).Above(ItemAfter(records, o, lateness).time)
  {
    var x, pending := ItemAfter(records, o, lateness), Pending(entries);
    ScheduleSnoc(records, o, lateness);
    forall y | y in pending ensures !ByTime(y, x) {
      PendingFrom(entries, y);
    }
    InsertAfter(ByTime, done, pending, x);
    InsertBelow(ByTime, pending, x);
    Regroup(done, x, pending);
    if done != [] {
      assert done[|done| - 1] in done;
    }
  }

  /** An on-time record joins the heap. */
  lemma OnTimeStep(done: seq<Item>, entries: seq<Entry>, records: seq<Observation>, o: Observation, ordinal: nat,
      lateness: int)
    requires !LateAfter(records, o, lateness)
    requires Waiting(done, entries, records, lateness) && Numbered(entries, ordinal)
    requires UpTo(done, Latest(records).Minus(lateness))
    ensures var after, raised := Insert(EntryLeq, entries, Entry(o.capturedAt, ordinal, o)), Latest(records + [o]);
      && Waiting(done, after, records + [o], lateness) && Numbered(after, ordinal + 1)
      && raised == Latest(records).Raise(o.capturedAt)
      && UpTo(done, raised.Minus(lateness))
      && Latest(records).Minus(lateness).MaxWith(raised.Minus(lateness)) == raised.Minus(lateness)
  {
    ScheduleSnoc(records, o, lateness);
    EntryOrder();
    InsertSorted(EntryLeq, entries, Entry(o.capturedAt, ordinal, o));
    PushIsStable(entries, Entry(o.capturedAt, ordinal, o));
    PushMembers(entries, Entry(o.capturedAt, ordinal, o));
    InsertAfter(ByTime, done, Pending(entries), Item(o.capturedAt, o));
  }

  lemma ScheduleSorted(records: seq<Observation>, lateness: int)
    ensures Sorted(ByTime, Schedule(records, lateness))
    ensures multiset(Schedule(records, lateness)) == multiset(Items(records, lateness))
  {
    TimeOrder();
    StableSortPermutes(ByTime, Items(records, lateness));
  }

  /** Processing the least waiting entry keeps to the schedule, and its time is not before the clock. */
  lemma HeadStep(done: seq<Item>, entries: seq<Entry>, records: seq<Observation>, lateness: int)
    requires Waiting(done, entries, records, lateness) && entries != []
    ensures Waiting(done + [ItemOf(entries[0])], entries[1..], records, lateness)
    ensures !ClockOf(done).Above(entries[0].time)
  {
    ScheduleSorted(records, lateness);
    PopIsHead(entries);
    Regroup(done, ItemOf(entries[0]), Pending(entries[1..]));
    if done != [] {
      SortedNeighbours(done, ItemOf(entries[0]), Pending(entries[1..]));
    }
  }

  lemma Regroup<T>(a: seq<T>, x: T, b: seq<T>)
    ensures a + ([x] + b) == a + [x] + b
  {
  }

  lemma SortedNeighbours(a: seq<Item>, x: Item, b: seq<Item>)
    requires Sorted(ByTime, a + ([x] + b)) && a != []
    ensures a[|a| - 1].time <= x.time
  {
    var all := a + ([x] + b);
    assert ByTime(all[|a| - 1], all[|a|]);
  }

  lemma EntryOrder()
    ensures TotalPreorder(EntryLeq)
  {
  }

  lemma AllBeyond(entries: seq<Entry>, watermark: int)
    requires Sorted(EntryLeq, entries)
    requires entries == [] || entries[0].time > watermark
    ensures Beyond(entries, Stamp.At(watermark))
  {
    forall i | 0 <= i < |entries| ensures entries[i].time > watermark {
      assert i > 0 ==> EntryLeq(entries[0], entries[i]);
    }
  }

  lemma NothingWaits(done: seq<Item>, records: seq<Observation>, lateness: int)
    requires Waiting(done, [], records, lateness)
    ensures done == Schedule(records, lateness)
  {
    assert done + [] == done;
  }

  lemma FeedStep(config: Config, ops: seq<Op>, op: Op)
    requires ValidRun(config, ops) && Admissible(op)
    ensures ValidRun(config, ops + [op])
    ensures After(config, ops + [op]) == Step(After(config, ops), op)
    ensures Trace(config, ops + [op]) == Trace(config, ops) + StepEnvelopes(After(config, ops), op)
  {
    assert (ops + [op])[..|ops|] == ops;
  }

  /** State, output and clock after the calls in `done`. */
  ghost predicate Fed(config: Config, done: seq<Item>, s: State, output: seq<Envelope>, clock: Stamp) {
    && ValidRun(config, OpsOf(done)) && s == After(config, OpsOf(done))
    && output == Trace(config, OpsOf(done)) && clock == ClockOf(done)
  }

  lemma FedStep(config: Config, done: seq<Item>, s: State, output: seq<Envelope>, clock: Stamp, item: Item,
      t: State, more: seq<Envelope>)
    requires Fed(config, done, s, output, clock) && RulesWellFormed(s.config.rules)
    requires t == Step(s, OpOf(item)) && more == StepEnvelopes(s, OpOf(item))
    ensures Fed(config, done + [item], t, output + more, At(item.time)) == true
  {
    OpsSnoc(done, item);
    FeedStep(config, OpsOf(done), OpOf(item));
  }

  /** While the heap is being drained up to the watermark.  (Here and below, a comparison with `true`
      keeps a condition in one piece for the verifier.) */
  ghost predicate Draining(done: seq<Item>, entries: seq<Entry>, records: seq<Observation>, lateness: int,
      watermark: Stamp, ordinal: nat) {
    (Waiting(done, entries, records, lateness) && UpTo(done, watermark) && Numbered(entries, ordinal)) == true
  }

  lemma DrainStep(done: seq<Item>, entries: seq<Entry>, records: seq<Observation>, lateness: int, watermark: Stamp,
      ordinal: nat, e: Entry, rest: seq<Entry>)
    requires Draining(done, entries, records, lateness, watermark, ordinal)
    requires entries != [] && e == entries[0] && rest == entries[1..] && watermark.At? && e.time <= watermark.micros
    ensures Draining(done + [Item(e.time, e.observation)], rest, records, lateness, watermark, ordinal) == true
  {
    HeadStep(done, entries, records, lateness);
  }

  /** The least entry is not before the clock. */
  lemma HeadInTime(done: seq<Item>, entries: seq<Entry>, records: seq<Observation>, lateness: int, watermark: Stamp,
      ordinal: nat)
    requires Draining(done, entries, records, lateness, watermark, ordinal) && entries != []
    ensures !ClockOf(done).Above(entries[0].time)
  {
    HeadStep(done, entries, records, lateness);
  }

  /** Between arrivals everything up to the watermark is processed, the rest waits. */
  ghost predicate CaughtUp(done: seq<Item>, heap: seq<Entry>, records: seq<Observation>, lateness: int,
                          maxSeen: Stamp, finalized: Stamp, ordinal: nat) {
    && Draining(done, heap, records, lateness, finalized, ordinal) && Beyond(heap, finalized)
    && maxSeen == Latest(records) && finalized == Latest(records).Minus(lateness)
  }

  lemma NothingSettled(lateness: int)
    ensures CaughtUp([], [], [], lateness, NegInf, NegInf, 0) == true
  {
    assert Schedule([], lateness) == [];
  }

  lemma NothingFed(config: Config)
    requires config.capacity >= 1 && RulesWellFormed(config.rules)
    ensures Fed(config, [], Initial(config), [], NegInf) == true
  {
  }

  /** A late record is processed at the watermark; nothing else changes. */
  lemma LateSettles(done: seq<Item>, heap: seq<Entry>, records: seq<Observation>, o: Observation, lateness: int,
                    maxSeen: Stamp, finalized: Stamp, ordinal: nat)
    requires lateness >= 0 && CaughtUp(done, heap, records, lateness, maxSeen, finalized, ordinal)
      && finalized.Above(o.capturedAt)
    ensures CaughtUp(done + [Item(finalized.micros, o.(late := true))], heap, records + [o], lateness, maxSeen,
      finalized, ordinal) == true
    ensures !ClockOf(done).Above(finalized.micros)
  {
    LateStep(done, heap, records, o, lateness);
  }

  /** An on-time record is in the heap and the new watermark is known. */
  lemma OnTimeDrains(done: seq<Item>, heap: seq<Entry>, records: seq<Observation>, o: Observation, lateness: int,
                     maxSeen: Stamp, finalized: Stamp, ordinal: nat, watermark: Stamp)
    requires CaughtUp(done, heap, records, lateness, maxSeen, finalized, ordinal) && !finalized.Above(o.capturedAt)
    requires watermark == maxSeen.Raise(o.capturedAt).Minus(lateness)
    ensures Draining(done, Insert(EntryLeq, heap, Entry(o.capturedAt, ordinal, o)), records + [o], lateness, watermark,
      ordinal + 1) == true
    ensures watermark.At? && finalized.MaxWith(watermark) == watermark
    ensures maxSeen.Raise(o.capturedAt) == Latest(records + [o]) && watermark == Latest(records + [o]).Minus(lateness)
  {
    OnTimeStep(done, heap, records, o, ordinal, lateness);
  }

  /** The items up to a time, of a list sorted by time. */
  function UpToMark(items: seq<Item>, mark: Stamp): seq<Item> {
    if items == [] || mark.NegInf? || items[0].time > mark.micros then [] else [items[0]] + UpToMark(items[1..], mark)
  }

  /** What the watermark has released by the end of the records: the schedule up to it. */
  function Released(records: seq<Observation>, lateness: int): seq<Item> {
    UpToMark(Schedule(records, lateness), Latest(records).Minus(lateness))
  }

  lemma {:induction false} CutAtMark(done: seq<Item>, rest: seq<Item>, mark: Stamp)
    requires UpTo(done, mark) && (rest == [] || mark.NegInf? || rest[0].time > mark.micros)
    ensures UpToMark(done + rest, mark) == done
  {
    if done == [] {
      NothingBefore(rest);
    } else {
      assert done[0] in done;
      CutAtMark(done[1..], rest, mark);
      assert (done + rest)[0] == done[0] && (done + rest)[1..] == done[1..] + rest;
    }
  }

  /** Between arrivals exactly the schedule up to the watermark has been processed. */
  lemma ReleasedByNow(done: seq<Item>, heap: seq<Entry>, records: seq<Observation>, lateness: int,
                      maxSeen: Stamp, finalized: Stamp, ordinal: nat)
    requires CaughtUp(done, heap, records, lateness, maxSeen, finalized, ordinal)
    ensures Released(records, lateness) == done
  {
    if heap != [] {
      PopIsHead(heap);
    }
    CutAtMark(done, Pending(heap), finalized);
  }

  /** The variables of one replay.  `done` is history: what the processor has been fed, in order. */
  class ReplayRun {
    const config: Config
    const processor: EpisodeProcessor
    var clock: Stamp
    var output: seq<Envelope>
    ghost var done: seq<Item>
    var heap: seq<Entry>
    var maxSeen: Stamp
    var finalized: Stamp
    var ordinal: nat

    ghost predicate Valid()
      reads `clock, `output, `done, processor, processor.tracker, processor.tracker.Repr, processor.sequencer
    {
      (processor.Valid() && Fed(config, done, processor.View(), output, clock)) == true
    }

    ghost predicate CaughtUpOn(records: seq<Observation>)
      reads `done, `heap, `maxSeen, `finalized, `ordinal
    {
      CaughtUp(done, heap, records, config.lateness, maxSeen, finalized, ordinal) == true
    }

    constructor (config: Config)
      requires config.capacity >= 1 && RulesWellFormed(config.rules)
      ensures Valid() && CaughtUpOn([]) && this.config == config
      ensures fresh(processor) && fresh(processor.tracker) && fresh(processor.tracker.Repr)
        && fresh(processor.sequencer)
    {
      this.config := config;
      processor := new EpisodeProcessor(config);
      clock, output, done := NegInf, [], [];
      heap, maxSeen, finalized, ordinal := [], NegInf, NegInf, 0;
      new;
      NothingSettled(config.lateness);
      NothingFed(config);
    }

    /** Advance the lifecycle clock to `time` and process one observation there. */
    method Process(o: Observation, time: int)
      requires Valid() && !clock.Above(time)
      modifies `clock, `output, `done, processor, processor.tracker, processor.tracker.Repr, processor.sequencer
      ensures Valid() && fresh(processor.tracker.Repr - old(processor.tracker.Repr))
      ensures done == old(done) + [Item(time, o)]
    {
      ghost var s, before := processor.View(), clock;
      clock := clock.MaxWith(At(time));
      var more := processor.Observe(o, clock.micros, clock.micros);
      FedStep(config, done, s, output, before, Item(time, o), processor.View(), more);
      output := output + more;
      done := done + [Item(time, o)];
    }

    /** Process everything in the heap up to the watermark, in heap order. */
    method DrainReady(watermark: int, ghost records: seq<Observation>)
      requires Valid() && Draining(done, heap, records, config.lateness, Stamp.At(watermark), ordinal)
      modifies `clock, `output, `done, `heap, processor, processor.tracker, processor.tracker.Repr, processor.sequencer
      ensures Valid() && fresh(processor.tracker.Repr - old(processor.tracker.Repr))
      ensures Draining(done, heap, records, config.lateness, Stamp.At(watermark), ordinal)
      ensures Beyond(heap, Stamp.At(watermark))
    {
      while heap != [] && heap[0].time <= watermark
        invariant Valid() && fresh(processor.tracker.Repr - old(processor.tracker.Repr))
        invariant Draining(done, heap, records, config.lateness, Stamp.At(watermark), ordinal)
        decreases |heap|
      {
        var e, rest := heap[0], heap[1..];
        ghost var before, entries := done, heap;
        HeadInTime(before, entries, records, config.lateness, Stamp.At(watermark), ordinal);
        heap := rest;
        Process(e.observation, e.time);
        DrainStep(before, entries, records, config.lateness, Stamp.At(watermark), ordinal, e, rest);
      }
      AllBeyond(heap, watermark);
    }

    /** One record arrives. */
    method Arrive(o: Observation, ghost records: seq<Observation>)
      requires Valid() && CaughtUpOn(records) && config.lateness >= 0
      modifies this, processor, processor.tracker, processor.tracker.Repr, processor.sequencer
      ensures Valid() && CaughtUpOn(records + [o])
      ensures fresh(processor.tracker.Repr - old(processor.tracker.Repr))
    {
      if finalized.Above(o.capturedAt) {
        ProcessLate(o, records);
      } else {
        Enqueue(o, records);
      }
    }

    method ProcessLate(o: Observation, ghost records: seq<Observation>)
      requires Valid() && CaughtUpOn(records) && config.lateness >= 0 && finalized.Above(o.capturedAt)
      modifies this, processor, processor.tracker, processor.tracker.Repr, processor.sequencer
      ensures Valid() && CaughtUpOn(records + [o])
      ensures fresh(processor.tracker.Repr - old(processor.tracker.Repr))
    {
      LateSettles(done, heap, records, o, config.lateness, maxSeen, finalized, ordinal);
      Process(o.(late := true), finalized.micros);
    }

    method Enqueue(o: Observation, ghost records: seq<Observation>)
      requires Valid() && CaughtUpOn(records) && !finalized.Above(o.capturedAt)
      modifies this, processor, processor.tracker, processor.tracker.Repr, processor.sequencer
      ensures Valid() && CaughtUpOn(records + [o])
      ensures fresh(processor.tracker.Repr - old(processor.tracker.Repr))
    {
      ghost var entries, latest, next := heap, maxSeen, ordinal;
      var watermark := Push(o);
      OnTimeDrains(done, entries, records, o, config.lateness, latest, finalized, next, watermark);
      DrainReady(watermark.micros, records + [o]);
      finalized := finalized.MaxWith(watermark);
    }

    method Push(o: Observation) returns (watermark: Stamp)
      requires Valid()
      modifies `heap, `ordinal, `maxSeen
      ensures Valid()
      ensures heap == Insert(EntryLeq, old(heap), Entry(o.capturedAt, old(ordinal), o)) && ordinal == old(ordinal) + 1
      ensures maxSeen == old(maxSeen).Raise(o.capturedAt) && watermark == maxSeen.Minus(config.lateness)
    {
      var entries, raised := Insert(EntryLeq, heap, Entry(o.capturedAt, ordinal, o)), maxSeen.Raise(o.capturedAt);
      heap, ordinal, maxSeen := entries, ordinal + 1, raised;
      watermark := raised.Minus(config.lateness);
    }

    /** Process what is left in the heap, in (time, ordinal) order. */
    method DrainAll(ghost records: seq<Observation>)
      requires Valid() && Waiting(done, heap, records, config.lateness)
      modifies `clock, `output, `done, `heap, processor, processor.tracker, processor.tracker.Repr, processor.sequencer
      ensures Valid() && done == Schedule(records, config.lateness)
      ensures fresh(processor.tracker.Repr - old(processor.tracker.Repr))
    {
      SortSorted(EntryLeq, heap);
      var rest := StableSort(EntryLeq, heap);
      heap := [];
      while rest != []
        invariant Valid() && fresh(processor.tracker.Repr - old(processor.tracker.Repr))
        invariant Waiting(done, rest, records, config.lateness)
        decreases |rest|
      {
        HeadStep(done, rest, records, config.lateness);
        var e := rest[0];
        rest := rest[1..];
        Process(e.observation, e.time);
      }
      NothingWaits(done, records, config.lateness);
    }

    /** The final close, at the clock's time but not before the epoch. */
    method Exhausted() returns (closed: seq<Envelope>)
      requires Valid() && done != []
      modifies processor, processor.tracker, processor.sequencer
      ensures var end := Max(done[|done| - 1].time, 0);
        var s, op := After(config, OpsOf(done)), CloseAllOp(SourceExhausted, end, end);
        closed == StepEnvelopes(s, op) && processor.View() == Step(s, op)
    {
      var end := Max(clock.micros, 0);
      closed := processor.CloseAll(SourceExhausted, end, end);
    }

    /** Whatever still waits, and the close, unless nothing was seen. */
    method Complete(seen: nat, ghost records: seq<Observation>) returns (closed: seq<Envelope>)
      requires Valid() && CaughtUpOn(records) && seen == |records|
      modifies `clock, `output, `done, `heap, processor, processor.tracker, processor.tracker.Repr, processor.sequencer
      ensures ValidRun(config, ReplayOps(records, config.lateness))
      ensures output + closed == Trace(config, ReplayOps(records, config.lateness))
      ensures processor.counts == After(config, ReplayOps(records, config.lateness)).counts
    {
      if seen == 0 {
        NothingScheduled(config.lateness);
        return [];
      }
      DrainAll(records);
      var end := Max(done[|done| - 1].time, 0);
      FeedStep(config, OpsOf(done), CloseAllOp(SourceExhausted, end, end));
      closed := Exhausted();
    }
  }

  lemma NothingScheduled(lateness: int)
    ensures Schedule([], lateness) == [] && ReplayOps([], lateness) == []
    ensures Released([], lateness) == [] && OpsOf([]) == []
  {
  }
}
