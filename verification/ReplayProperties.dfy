/** What the reference schedule of replay means: exact lateness, stable event-time order,
    insensitivity to bounded disorder, and session windows end to end. */
module ReplayProperties {
  import opened Basics
  import opened Models
  import opened Ordering
  import opened Policy
  import opened Episodes
  import opened Processing
  import opened Runs
  import opened Ledger
  import opened Sessions
  import opened Replay

  // ---------------------------------------------------------------- lateness

  lemma {:induction false} LatestIsMaximum(records: seq<Observation>)
    ensures Latest(records).NegInf? <==> records == []
    ensures forall o :: o in records ==> o.capturedAt <= Latest(records).micros
    ensures records != [] ==> exists o :: o in records && o.capturedAt == Latest(records).micros
  {
    if records != [] {
      var n := |records| - 1;
      LatestIsMaximum(records[..n]);
      assert records[n] in records;
      if Latest(records[..n]).Above(records[n].capturedAt) {
        var o :| o in records[..n] && o.capturedAt == Latest(records[..n]).micros;
        assert o in records;
      }
    }
  }

  /** A record is late exactly when some earlier one is more than the lateness ahead of it. */
  lemma LateExactly(earlier: seq<Observation>, o: Observation, lateness: int)
    ensures LateAfter(earlier, o, lateness) <==> exists e :: e in earlier && o.capturedAt < e.capturedAt - lateness
  {
    LatestIsMaximum(earlier);
  }

  lemma {:induction false} ItemsAt(records: seq<Observation>, lateness: int, i: nat)
    requires i < |records|
    ensures Items(records, lateness)[i] == ItemAfter(records[..i], records[i], lateness)
  {
    if i < |records| - 1 {
      var front := records[..|records| - 1];
      ItemsAt(front, lateness, i);
      assert front[..i] == records[..i];
    }
  }

  /** Every record is processed exactly once, at lifecycle times that never decrease, and records
      processed at the same time keep their order of arrival.  An on-time record is processed at
      exactly its own time; a late one, marked, at the watermark, which is later than its time. */
  lemma ScheduleExact(records: seq<Observation>, lateness: int, i: nat, x: Item)
    requires i < |records|
    ensures var s := Schedule(records, lateness);
      && multiset(s) == multiset(Items(records, lateness))
      && Sorted(ByTime, s)
      && TiedWith(ByTime, s, x) == TiedWith(ByTime, Items(records, lateness), x)
    ensures var item := Items(records, lateness)[i];
      if exists e :: e in records[..i] && records[i].capturedAt < e.capturedAt - lateness
      then && item.observation == records[i].(late := true)
           && item.time == Latest(records[..i]).micros - lateness > records[i].capturedAt
      else item == Item(records[i].capturedAt, records[i])
  {
    TimeOrder();
    ScheduleSorted(records, lateness);
    StableSortStable(ByTime, Items(records, lateness), x);
    ItemsAt(records, lateness, i);
    LateExactly(records[..i], records[i], lateness);
    LatestIsMaximum(records[..i]);
  }

  // ---------------------------------------------------------------- bounded disorder

  /** Every record is within the lateness of the largest earlier time. */
  ghost predicate BoundedDisorder(records: seq<Observation>, lateness: int) {
    forall i, j :: 0 <= i < j < |records| ==> records[j].capturedAt >= records[i].capturedAt - lateness
  }

  function Plain(records: seq<Observation>): seq<Item> {
    if records == [] then [] else
      Plain(records[..|records| - 1]) + [Item(records[|records| - 1].capturedAt, records[|records| - 1])]
  }

  lemma PlainSnoc(records: seq<Observation>, o: Observation)
    ensures Plain(records + [o]) == Plain(records) + [Item(o.capturedAt, o)]
  {
    assert (records + [o])[..|records|] == records;
  }

  lemma {:induction false} NobodyLate(records: seq<Observation>, lateness: int)
    requires BoundedDisorder(records, lateness)
    ensures Items(records, lateness) == Plain(records)
  {
    if records != [] {
      var n := |records| - 1;
      NobodyLate(records[..n], lateness);
      LateExactly(records[..n], records[n], lateness);
      forall e | e in records[..n] ensures records[n].capturedAt >= e.capturedAt - lateness {
        var k :| 0 <= k < n && records[k] == e;
      }
    }
  }

  lemma {:induction false} PlainInsert(s: seq<Observation>, o: Observation)
    ensures Plain(Insert(ByCapture, s, o)) == Insert(ByTime, Plain(s), Item(o.capturedAt, o))
  {
    PlainSnoc(s, o);
    if s != [] {
      var front, last := s[..|s| - 1], s[|s| - 1];
      PlainInsert(front, o);
      PlainSnoc(Insert(ByCapture, front, o), last);
      var p := Plain(s);
      assert p[..|p| - 1] == Plain(front) && p[|p| - 1] == Item(last.capturedAt, last);
    }
  }

  lemma {:induction false} PlainSort(s: seq<Observation>)
    ensures StableSort(ByTime, Plain(s)) == Plain(StableSort(ByCapture, s))
  {
    if s != [] {
      var front, last := s[..|s| - 1], s[|s| - 1];
      PlainSort(front);
      PlainInsert(StableSort(ByCapture, front), last);
      var p := Plain(s);
      assert p[..|p| - 1] == Plain(front) && p[|p| - 1] == Item(last.capturedAt, last);
    }
  }

  lemma SortedIsBounded(records: seq<Observation>, lateness: int)
    requires lateness >= 0
    ensures var s := StableSort(ByCapture, records);
      BoundedDisorder(s, lateness) && StableSort(ByCapture, s) == s && (s == [] <==> records == [])
  {
    TimeOrder();
    StableSortPermutes(ByCapture, records);
    var s := StableSort(ByCapture, records);
    SortSorted(ByCapture, s);
    forall i, j | 0 <= i < j < |s| ensures s[j].capturedAt >= s[i].capturedAt - lateness {
      assert ByCapture(s[i], s[j]);
    }
  }

  /** Disorder within the lateness is invisible: replay runs exactly the operations it runs on the
      records stably sorted by capture time, none of them marked late. */
  lemma BoundedDisorderInvisible(records: seq<Observation>, lateness: int)
    requires lateness >= 0 && BoundedDisorder(records, lateness)
    ensures Schedule(records, lateness) == Plain(StableSort(ByCapture, records))
    ensures ReplayOps(records, lateness) == ReplayOps(StableSort(ByCapture, records), lateness)
  {
    var s := StableSort(ByCapture, records);
    NobodyLate(records, lateness);
    PlainSort(records);
    SortedIsBounded(records, lateness);
    NobodyLate(s, lateness);
    PlainSort(s);
  }

  /** Two such captures with the same stable sort give the same evidence and the same counts. */
  lemma SameSortSameEvidence(config: Config, a: seq<Observation>, b: seq<Observation>)
    requires config.lateness >= 0
    requires BoundedDisorder(a, config.lateness) && BoundedDisorder(b, config.lateness)
    requires StableSort(ByCapture, a) == StableSort(ByCapture, b)
    requires ValidRun(config, ReplayOps(a, config.lateness))
    ensures ValidRun(config, ReplayOps(b, config.lateness))
    ensures Trace(config, ReplayOps(a, config.lateness)) == Trace(config, ReplayOps(b, config.lateness))
    ensures After(config, ReplayOps(a, config.lateness)).counts == After(config, ReplayOps(b, config.lateness)).counts
  {
    BoundedDisorderInvisible(a, config.lateness);
    BoundedDisorderInvisible(b, config.lateness);
  }

  // ---------------------------------------------------------------- end to end

  lemma {:induction false} OpsAt(items: seq<Item>, i: nat)
    requires i < |items|
    ensures OpsOf(items)[i] == OpOf(items[i])
  {
    if i < |items| - 1 {
      OpsAt(items[..|items| - 1], i);
    }
  }

  /** Lifecycle times never decrease over a replay. */
  lemma ReplayIsSteady(records: seq<Observation>, lateness: int)
    ensures SteadyRun(OpsOf(Schedule(records, lateness)))
  {
    var items := Schedule(records, lateness);
    ScheduleSorted(records, lateness);
    forall i, j | 0 <= i < j < |items| ensures OpsOf(items)[i].time <= OpsOf(items)[j].time {
      OpsAt(items, i);
      OpsAt(items, j);
      assert ByTime(items[i], items[j]);
    }
  }

  lemma {:induction false} ClosedOutTotals(open: seq<Record>, now: int, reason: CloseReason, key: EpisodeKey)
    requires DistinctKeys(open)
    ensures ClosedTotals(ClosedOut(open, now, reason), key) == OpenTotals(open, key)
  {
    if open != [] {
      ClosedOutTotals(open[1..], now, reason, key);
      assert ClosedOut(open, now, reason)[1..] == ClosedOut(open[1..], now, reason);
      if open[0].key == key {
        AtNone(open[1..], key);
      }
    }
  }

  /** At the end of a replay without evictions, the close transitions of each key are exactly the
      session windows of the scheduled records that matched under it. */
  lemma ReplayEpisodesAreWindows(config: Config, records: seq<Observation>, key: EpisodeKey)
    requires config.capacity >= 1 && RulesWellFormed(config.rules) && UniqueIds(config.rules) && config.idle > 0
    requires records != []
    requires NoEviction(Transitions(config, OpsOf(Schedule(records, config.lateness))))
    ensures ValidRun(config, ReplayOps(records, config.lateness))
    ensures Match(ClosedTotals(Transitions(config, ReplayOps(records, config.lateness)), key),
                  Windows(config.idle, Samples(config, OpsOf(Schedule(records, config.lateness)), key)))
    ensures After(config, ReplayOps(records, config.lateness)).table.open == []
  {
    var ops, all := OpsOf(Schedule(records, config.lateness)), ReplayOps(records, config.lateness);
    var close := all[|ops|];
    assert all == ops + [close] && all[..|ops|] == ops;
    ReplayIsSteady(records, config.lateness);
    EpisodesAreWindows(config, ops, key);
    OpenEpisodesBounded(config, ops);
    ClosedOutTotals(After(config, ops).table.open, close.time, SourceExhausted, key);
    ClosedTotalsAppend(Transitions(config, ops), StepOut(After(config, ops), close), key);
  }

  /** Whatever the capacity and the disorder, a finished replay has nothing open and its close
      transitions account for every match. */
  lemma ReplayAccountsForEveryMatch(m: Measure, config: Config, records: seq<Observation>)
    requires config.capacity >= 1 && RulesWellFormed(config.rules)
    ensures ValidRun(config, ReplayOps(records, config.lateness))
    ensures var s := After(config, ReplayOps(records, config.lateness));
      && s.table.open == []
      && s.counts.started == s.counts.closed
      && Settled(m, Transitions(config, ReplayOps(records, config.lateness)))
           == Charged(m, config, OpsOf(Schedule(records, config.lateness)))
  {
    var ops, all := OpsOf(Schedule(records, config.lateness)), ReplayOps(records, config.lateness);
    if records == [] {
      NothingScheduled(config.lateness);
    } else {
      var close := all[|ops|];
      assert all == ops + [close];
      NothingLeftAfterCloseAll(m, config, ops, SourceExhausted, close.time, close.at);
    }
  }

  /** Each call is stamped with its own lifecycle time, none after the last. */
  lemma OpsInTime(items: seq<Item>)
    requires items != [] && Sorted(ByTime, items)
    ensures forall i :: 0 <= i < |items| ==>
      var op := OpsOf(items)[i];
      op.ObserveOp? && op.at == op.time && op.time == items[i].time && op.time <= items[|items| - 1].time
  {
    forall i | 0 <= i < |items|
      ensures OpsOf(items)[i] == OpOf(items[i]) && items[i].time <= items[|items| - 1].time {
      OpsAt(items, i);
      if i < |items| - 1 {
        assert ByTime(items[i], items[|items| - 1]);
      }
    }
  }

  /** The calls of a replay: observations, each stamped with its lifecycle time, then one close of everything
      at the last of these times or, if that is before it, at the epoch. */
  ghost predicate EndsOnce(ops: seq<Op>, n: nat) {
    && n > 0 && |ops| == n + 1 && ops[n - 1].ObserveOp?
    && (forall i :: 0 <= i < n ==> ops[i].ObserveOp? && ops[i].at == ops[i].time && ops[i].time <= ops[n - 1].time)
    && ops[n].CloseAllOp? && ops[n].reason == SourceExhausted && ops[n].at == ops[n].time
    && ops[n].time == if ops[n - 1].time < 0 then 0 else ops[n - 1].time
  }

  lemma ReplayEndsOnce(records: seq<Observation>, lateness: int)
    requires records != []
    ensures EndsOnce(ReplayOps(records, lateness), |records|)
  {
    var items := Schedule(records, lateness);
    ScheduleSorted(records, lateness);
    OpsInTime(items);
    var ops := OpsOf(items);
    var end := Max(items[|items| - 1].time, 0);
    assert ReplayOps(records, lateness) == ops + [CloseAllOp(SourceExhausted, end, end)];
  }
}
