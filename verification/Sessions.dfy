/** Episodes are session windows: with a clock that never steps back, no eviction and no reload,
    a key's matches are grouped by splitting them wherever two neighbours are `idle` apart. */
module Sessions {
  import opened Basics
  import opened Models
  import opened Policy
  import opened Episodes
  import opened Processing
  import opened Runs
  import opened Ledger

  datatype Sample = Sample(time: int, observation: Observation)

  // ---------------------------------------------------------------- windows

  function Windows(idle: int, samples: seq<Sample>): (w: seq<seq<Sample>>)
    ensures samples == [] <==> w == []
  {
    if samples == [] then [] else
      var n := |samples| - 1;
      var before := Windows(idle, samples[..n]);
      if n == 0 || samples[n].time - samples[n - 1].time >= idle then before + [[samples[n]]]
      else before[..|before| - 1] + [before[|before| - 1] + [samples[n]]]
  }

  function Flatten<T>(w: seq<seq<T>>): seq<T> {
    if w == [] then [] else Flatten(w[..|w| - 1]) + w[|w| - 1]
  }

  ghost predicate Tight(idle: int, window: seq<Sample>) {
    window != [] && forall i :: 0 <= i < |window| - 1 ==> window[i + 1].time - window[i].time < idle
  }

  ghost predicate Apart(idle: int, a: seq<Sample>, b: seq<Sample>) {
    a != [] && b != [] && b[0].time - a[|a| - 1].time >= idle
  }

  ghost predicate MaximalRuns(idle: int, w: seq<seq<Sample>>) {
    && (forall i :: 0 <= i < |w| ==> Tight(idle, w[i]))
    && (forall i :: 0 <= i < |w| - 1 ==> Apart(idle, w[i], w[i + 1]))
  }

  lemma RunsGrow(idle: int, w: seq<seq<Sample>>, s: Sample)
    requires MaximalRuns(idle, w) && w != []
    ensures var m := |w| - 1;
      var last := w[m];
      && last != []
      && (s.time - last[|last| - 1].time < idle ==> MaximalRuns(idle, w[..m] + [last + [s]]))
      && (s.time - last[|last| - 1].time >= idle ==> MaximalRuns(idle, w + [[s]]))
  {
    var m := |w| - 1;
    assert Tight(idle, w[m]);
    var grown := w[..m] + [w[m] + [s]];
    if s.time - w[m][|w[m]| - 1].time < idle {
      forall i | 0 <= i < |grown| ensures Tight(idle, grown[i]) {
        assert i < m ==> grown[i] == w[i];
      }
      forall i | 0 <= i < |grown| - 1 ensures Apart(idle, grown[i], grown[i + 1]) {
        assert Apart(idle, w[i], w[i + 1]);
      }
    } else {
      var added := w + [[s]];
      forall i | 0 <= i < |added| - 1 ensures Apart(idle, added[i], added[i + 1]) {
        assert i < m ==> Apart(idle, w[i], w[i + 1]);
      }
    }
  }

  lemma FlattenSnoc<T>(w: seq<seq<T>>, last: seq<T>)
    ensures Flatten(w + [last]) == Flatten(w) + last
  {
    assert (w + [last])[..|w|] == w;
  }

  lemma FlattenLast<T>(w: seq<seq<T>>, x: T)
    requires w != []
    ensures Flatten(w[..|w| - 1] + [w[|w| - 1] + [x]]) == Flatten(w) + [x]
  {
    var m := |w| - 1;
    FlattenSnoc(w[..m], w[m] + [x]);
    assert Flatten(w[..m]) + (w[m] + [x]) == Flatten(w[..m]) + w[m] + [x];
  }

  /** The windows partition the samples, in order. */
  lemma {:induction false} WindowsPartition(idle: int, samples: seq<Sample>)
    ensures Flatten(Windows(idle, samples)) == samples
  {
    if samples != [] {
      var n := |samples| - 1;
      var before := Windows(idle, samples[..n]);
      WindowsPartition(idle, samples[..n]);
      FlattenSnoc(before, [samples[n]]);
      if n > 0 {
        FlattenLast(before, samples[n]);
      }
      assert samples == samples[..n] + [samples[n]];
    }
  }

  ghost predicate EndsWith(w: seq<seq<Sample>>, s: Sample) {
    w != [] && w[|w| - 1] != [] && w[|w| - 1][|w[|w| - 1]| - 1] == s
  }

  /** No window has an idle gap inside, and any two neighbouring windows have one between them:
      the windows are the maximal runs. */
  lemma {:induction false} WindowsAreMaximalRuns(idle: int, samples: seq<Sample>)
    ensures MaximalRuns(idle, Windows(idle, samples))
    ensures samples != [] ==> EndsWith(Windows(idle, samples), samples[|samples| - 1])
  {
    if samples != [] {
      var n := |samples| - 1;
      WindowsAreMaximalRuns(idle, samples[..n]);
      if n > 0 {
        RunsGrow(idle, Windows(idle, samples[..n]), samples[n]);
      } else {
        assert samples[..n] == [];
      }
    }
  }

  // ---------------------------------------------------------------- what an episode reports

  datatype Totals = Totals(count: nat, bytes: nat, late: nat, first: int, last: int, points: map<string, PointCount>)

  function TotalsOf(e: Record): Totals {
    Totals(e.count, e.bytes, e.lateCount, e.firstObserved, e.lastObserved, e.perPoint)
  }

  function TotalsOfClose(t: Transition): Totals {
    Totals(t.observationCount, t.observedBytes, t.lateCount, t.firstObserved, t.lastObserved, t.perPoint)
  }

  function Sum(m: Measure, window: seq<Sample>): nat {
    if window == [] then 0 else Sum(m, window[..|window| - 1]) + Worth(m, window[|window| - 1].observation)
  }

  /** `t` is the earliest (latest) capture time among the first member and the members on time. */
  ghost predicate Spans(first: int, last: int, window: seq<Sample>) {
    && window != []
    && (forall s :: s in window && (s == window[0] || !s.observation.late) ==>
          first <= s.observation.capturedAt <= last)
    && (exists s :: s in window && (s == window[0] || !s.observation.late) && first == s.observation.capturedAt)
    && (exists s :: s in window && (s == window[0] || !s.observation.late) && last == s.observation.capturedAt)
  }

  /** The totals are exactly those of the window's members. */
  ghost predicate Aggregates(t: Totals, window: seq<Sample>) {
    && (forall m: Measure :: Tally(m, t.count, t.bytes, t.late, t.points) == Sum(m, window))
    && (forall p :: p in t.points <==> exists s :: s in window && s.observation.capturePoint == p)
    && Spans(t.first, t.last, window)
  }

  lemma AggregatesOne(id: nat, key: EpisodeKey, rule: PolicyRule, o: Observation, t: int)
    ensures Aggregates(TotalsOf(Opened(id, key, rule, o, t)), [Sample(t, o)])
  {
    var s := Sample(t, o);
    assert [s][..0] == [];
    assert s in [s];
    forall m: Measure ensures Sum(m, [s]) == Worth(m, o) {
    }
  }

  lemma AggregatesMore(e: Record, window: seq<Sample>, o: Observation, t: int)
    requires Aggregates(TotalsOf(e), window)
    ensures Aggregates(TotalsOf(Updated(e, o, t)), window + [Sample(t, o)])
  {
    var s, more := Sample(t, o), window + [Sample(t, o)];
    var a := TotalsOf(Updated(e, o, t));
    assert more[..|window|] == window;
    forall m: Measure ensures Tally(m, a.count, a.bytes, a.late, a.points) == Sum(m, more) {
    }
    PointsMore(e, window, o, t);
    SpansMore(e.firstObserved, e.lastObserved, window, s);
  }

  lemma PointsMore(e: Record, window: seq<Sample>, o: Observation, t: int)
    requires forall p :: p in e.perPoint <==> exists s :: s in window && s.observation.capturePoint == p
    ensures forall p :: p in Updated(e, o, t).perPoint <==> exists s ::
      s in window + [Sample(t, o)] && s.observation.capturePoint == p
  {
    var more := window + [Sample(t, o)];
    forall p ensures p in Updated(e, o, t).perPoint <==> exists s :: s in more && s.observation.capturePoint == p {
      if p in e.perPoint {
        var s :| s in window && s.observation.capturePoint == p;
        assert s in more;
      }
      assert Sample(t, o) in more;
    }
  }

  lemma SpansMore(first: int, last: int, window: seq<Sample>, s: Sample)
    requires Spans(first, last, window)
    ensures Spans(if s.observation.late then first else Min(first, s.observation.capturedAt),
                  if s.observation.late then last else Max(last, s.observation.capturedAt), window + [s])
  {
    var more := window + [s];
    var f :| f in window && (f == window[0] || !f.observation.late) && first == f.observation.capturedAt;
    var l :| l in window && (l == window[0] || !l.observation.late) && last == l.observation.capturedAt;
    assert f in more && l in more && s in more && more[0] == window[0];
    forall x | x in more && (x == more[0] || !x.observation.late)
      ensures x in window || (x == s && !s.observation.late)
    {
    }
  }

  lemma SpansUnique(f: int, l: int, g: int, k: int, window: seq<Sample>)
    requires Spans(f, l, window) && Spans(g, k, window)
    ensures f == g && l == k
  {
  }

  /** Totals are determined by the window. */
  lemma AggregatesUnique(a: Totals, b: Totals, window: seq<Sample>)
    requires Aggregates(a, window) && Aggregates(b, window)
    ensures a == b
  {
    SpansUnique(a.first, a.last, b.first, b.last, window);
    assert a.count == Tally(Matches, a.count, a.bytes, a.late, a.points) == b.count by {
      assert b.count == Tally(Matches, b.count, b.bytes, b.late, b.points);
    }
    assert a.bytes == Tally(Bytes, a.count, a.bytes, a.late, a.points) == b.bytes by {
      assert b.bytes == Tally(Bytes, b.count, b.bytes, b.late, b.points);
    }
    assert a.late == Tally(Lates, a.count, a.bytes, a.late, a.points) == b.late by {
      assert b.late == Tally(Lates, b.count, b.bytes, b.late, b.points);
    }
    forall p | p in a.points ensures p in b.points && a.points[p] == b.points[p] {
      assert AtPoint(a.points, p).observations == Tally(MatchesAt(p), a.count, a.bytes, a.late, a.points);
      assert AtPoint(b.points, p).observations == Tally(MatchesAt(p), b.count, b.bytes, b.late, b.points);
      assert AtPoint(a.points, p).bytes == Tally(BytesAt(p), a.count, a.bytes, a.late, a.points);
      assert AtPoint(b.points, p).bytes == Tally(BytesAt(p), b.count, b.bytes, b.late, b.points);
    }
    assert a.points == b.points;
  }

  // ---------------------------------------------------------------- one key's episodes in a run

  function ClosedTotals(ts: seq<Transition>, key: EpisodeKey): seq<Totals> {
    if ts == [] then [] else
      (if ts[0].phase.Close? && ts[0].key == key then [TotalsOfClose(ts[0])] else []) + ClosedTotals(ts[1..], key)
  }

  function OpenTotals(open: seq<Record>, key: EpisodeKey): seq<Totals> {
    if At(open, key).Some? then [TotalsOf(At(open, key).value)] else []
  }

  lemma {:induction false} ClosedTotalsAppend(a: seq<Transition>, b: seq<Transition>, key: EpisodeKey)
    ensures ClosedTotals(a + b, key) == ClosedTotals(a, key) + ClosedTotals(b, key)
  {
    if a == [] {
      assert a + b == b;
    } else {
      assert (a + b)[1..] == a[1..] + b;
      ClosedTotalsAppend(a[1..], b, key);
    }
  }

  ghost predicate Match(ts: seq<Totals>, windows: seq<seq<Sample>>) {
    |ts| == |windows| && forall i :: 0 <= i < |ts| ==> Aggregates(ts[i], windows[i])
  }

  /** The invariant of one key, given its open record if there is one. */
  ghost predicate InvAt(c: Settings, e: Option<Record>, closed: seq<Totals>, samples: seq<Sample>, now: int) {
    && Match(closed + (if e.Some? then [TotalsOf(e.value)] else []), Windows(c.idle, samples))
    && (samples != [] ==> samples[|samples| - 1].time <= now)
    && (e.Some? ==> samples != [] && e.value.lastLifecycle == samples[|samples| - 1].time)
    && (e.None? && samples != [] ==> now - samples[|samples| - 1].time >= c.idle)
  }

  ghost predicate Inv(c: Settings, open: seq<Record>, closed: seq<Totals>, samples: seq<Sample>, key: EpisodeKey,
      now: int) {
    DistinctKeys(open) && InvAt(c, At(open, key), closed, samples, now)
  }

  /** The open episode of `key`, if any, is not due to be closed. */
  predicate NotIdle(c: Settings, open: seq<Record>, key: EpisodeKey, now: int) {
    At(open, key).Some? ==> now - At(open, key).value.lastLifecycle < c.idle
  }

  /** The record under `key`, if it is open. */
  function At(open: seq<Record>, key: EpisodeKey): Option<Record> {
    if open == [] then None else if open[0].key == key then Some(open[0]) else At(open[1..], key)
  }

  lemma {:induction false} AtIsFind(open: seq<Record>, key: EpisodeKey)
    ensures At(open, key) == if Find(open, key) < |open| then Some(open[Find(open, key)]) else None
  {
    if open != [] {
      AtIsFind(open[1..], key);
    }
  }

  lemma {:induction false} AtNone(open: seq<Record>, key: EpisodeKey)
    requires forall i :: 0 <= i < |open| ==> open[i].key != key
    ensures At(open, key) == None
  {
    if open != [] {
      AtNone(open[1..], key);
    }
  }

  /** What running the timers does to one key. */
  lemma {:induction false} AdvanceOneKey(c: Settings, open: seq<Record>, key: EpisodeKey, now: int)
    requires DistinctKeys(open)
    ensures At(Advanced(c, open, now), key) ==
      if At(open, key).Some? && !IdleAt(c, At(open, key).value, now)
      then Some(Ticked(c, At(open, key).value, now)) else None
    ensures ClosedTotals(AdvancedOut(c, open, now), key) ==
      if At(open, key).Some? && IdleAt(c, At(open, key).value, now) then [TotalsOf(At(open, key).value)] else []
  {
    if open != [] {
      var e, rest := open[0], open[1..];
      AdvanceOneKey(c, rest, key, now);
      ClosedTotalsAppend(TickedOut(c, e, now), AdvancedOut(c, rest, now), key);
      ClosedTotalsOne(c, e, key, now);
      if e.key == key {
        AtNone(rest, key);
      }
      var after := Advanced(c, rest, now);
      assert IdleAt(c, e, now) ==> Advanced(c, open, now) == after;
      assert !IdleAt(c, e, now) ==> Advanced(c, open, now)[1..] == after;
    }
  }

  lemma ClosedTotalsOne(c: Settings, e: Record, key: EpisodeKey, now: int)
    ensures ClosedTotals(TickedOut(c, e, now), key) == if IdleAt(c, e, now) && e.key == key then [TotalsOf(e)] else []
  {
    var out := TickedOut(c, e, now);
    if out != [] {
      assert out[1..] == [];
    }
  }

  lemma AdvanceKeepsInv(c: Settings, open: seq<Record>, closed: seq<Totals>, samples: seq<Sample>, key: EpisodeKey,
      now: int, then_: int)
    requires Inv(c, open, closed, samples, key, now) && now <= then_
    ensures Inv(c, Advanced(c, open, then_), closed + ClosedTotals(AdvancedOut(c, open, then_), key), samples, key,
      then_)
    ensures NotIdle(c, Advanced(c, open, then_), key, then_)
  {
    AdvanceOneKey(c, open, key, then_);
    AdvancedKeys(c, open, then_);
    var after, out := Advanced(c, open, then_), ClosedTotals(AdvancedOut(c, open, then_), key);
    assert closed + out + OpenTotals(after, key) == closed + OpenTotals(open, key);
  }

  ghost predicate NoEviction(ts: seq<Transition>) {
    forall t :: t in ts ==> t.closeReason != Some(CapacityEvicted)
  }

  lemma {:induction false} AtSome(open: seq<Record>, i: nat)
    requires DistinctKeys(open) && i < |open|
    ensures At(open, open[i].key) == Some(open[i])
  {
    if i > 0 {
      AtSome(open[1..], i - 1);
    }
  }

  /** Where an episode of another key stands after a match that does not evict. */
  lemma OtherKept(c: Settings, t: Table, rule: PolicyRule, o: Observation, revision: string, now: int, i: nat)
      returns (j: nat)
    requires c.capacity >= 1 && i < |t.open| && t.open[i].key != KeyOf(rule, o, revision)
    requires NoEviction(ObservedOut(c, t, rule, o, revision, now))
    ensures j < |Observed(c, t, rule, o, revision, now).open|
    ensures Observed(c, t, rule, o, revision, now).open[j] == t.open[i]
  {
    var k := Find(t.open, KeyOf(rule, o, revision));
    if k == |t.open| {
      NoEvictionMeansRoom(c, t, rule, o, revision, now);
    }
    j := if k < i then i - 1 else i;
  }

  /** A match of another key leaves this key's episode alone unless it evicts. */
  lemma OtherKey(c: Settings, t: Table, rule: PolicyRule, o: Observation, revision: string, now: int, key: EpisodeKey)
    requires DistinctKeys(t.open) && c.capacity >= 1
    requires KeyOf(rule, o, revision) != key
    requires NoEviction(ObservedOut(c, t, rule, o, revision, now))
    ensures At(Observed(c, t, rule, o, revision, now).open, key) == At(t.open, key)
    ensures ClosedTotals(ObservedOut(c, t, rule, o, revision, now), key) == []
  {
    var k, i := Find(t.open, KeyOf(rule, o, revision)), Find(t.open, key);
    var out, after := ObservedOut(c, t, rule, o, revision, now), Observed(c, t, rule, o, revision, now).open;
    ObservedKeys(c, t, rule, o, revision, now);
    AtIsFind(t.open, key);
    if k == |t.open| {
      NoEvictionMeansRoom(c, t, rule, o, revision, now);
      assert out[1..] == [];
    }
    if i < |t.open| {
      var j := OtherKept(c, t, rule, o, revision, now, i);
      AtSome(after, j);
    } else {
      AtNone(after, key);
    }
  }

  lemma NoEvictionMeansRoom(c: Settings, t: Table, rule: PolicyRule, o: Observation, revision: string, now: int)
    requires c.capacity >= 1 && Find(t.open, KeyOf(rule, o, revision)) == |t.open|
    requires NoEviction(ObservedOut(c, t, rule, o, revision, now))
    ensures |t.open| < c.capacity
  {
    var out := ObservedOut(c, t, rule, o, revision, now);
    assert |t.open| >= c.capacity ==> out[0] == Closing(t.open[0], now, CapacityEvicted);
    assert out[0] in out;
  }

  lemma WindowGrows(c: Settings, e: Record, o: Observation, now: int, closed: seq<Totals>, samples: seq<Sample>)
    requires InvAt(c, Some(e), closed, samples, now) && now - e.lastLifecycle < c.idle
    ensures InvAt(c, Some(Updated(e, o, now)), closed, samples + [Sample(now, o)], now)
  {
    assert (samples + [Sample(now, o)])[..|samples|] == samples;
    AggregatesMore(e, Windows(c.idle, samples)[|closed|], o, now);
  }

  lemma WindowOpens(c: Settings, id: nat, key: EpisodeKey, rule: PolicyRule, o: Observation, now: int,
      closed: seq<Totals>, samples: seq<Sample>)
    requires InvAt(c, None, closed, samples, now)
    ensures InvAt(c, Some(Opened(id, key, rule, o, now)), closed, samples + [Sample(now, o)], now)
  {
    assert (samples + [Sample(now, o)])[..|samples|] == samples;
    assert closed + [] == closed;
    AggregatesOne(id, key, rule, o, now);
  }

  /** A match of the open key: its episode grows by one sample and moves to the end. */
  lemma OwnKeyOpen(c: Settings, t: Table, rule: PolicyRule, o: Observation, revision: string, now: int,
      closed: seq<Totals>, samples: seq<Sample>)
    requires c.capacity >= 1 && Find(t.open, KeyOf(rule, o, revision)) < |t.open|
    requires Inv(c, t.open, closed, samples, KeyOf(rule, o, revision), now)
    requires NotIdle(c, t.open, KeyOf(rule, o, revision), now)
    ensures Inv(c, Observed(c, t, rule, o, revision, now).open, closed, samples + [Sample(now, o)],
      KeyOf(rule, o, revision), now)
    ensures At(Observed(c, t, rule, o, revision, now).open, KeyOf(rule, o, revision)).Some?
  {
    var key := KeyOf(rule, o, revision);
    var after := Observed(c, t, rule, o, revision, now).open;
    ObservedKeys(c, t, rule, o, revision, now);
    AtIsFind(t.open, key);
    AtSome(after, |after| - 1);
    WindowGrows(c, t.open[Find(t.open, key)], o, now, closed, samples);
  }

  /** A match of a key with no open episode opens a new window. */
  lemma OwnKeyNew(c: Settings, t: Table, rule: PolicyRule, o: Observation, revision: string, now: int,
      closed: seq<Totals>, samples: seq<Sample>)
    requires c.capacity >= 1 && Find(t.open, KeyOf(rule, o, revision)) == |t.open|
    requires Inv(c, t.open, closed, samples, KeyOf(rule, o, revision), now)
    ensures Inv(c, Observed(c, t, rule, o, revision, now).open, closed, samples + [Sample(now, o)],
      KeyOf(rule, o, revision), now)
    ensures At(Observed(c, t, rule, o, revision, now).open, KeyOf(rule, o, revision)).Some?
  {
    var key := KeyOf(rule, o, revision);
    var after := Observed(c, t, rule, o, revision, now).open;
    ObservedKeys(c, t, rule, o, revision, now);
    AtIsFind(t.open, key);
    AtSome(after, |after| - 1);
    WindowOpens(c, t.nextId, key, rule, o, now, closed, samples);
  }

  lemma StartClosesNothing(c: Settings, t: Table, rule: PolicyRule, o: Observation, revision: string, now: int)
    requires c.capacity >= 1 && NoEviction(ObservedOut(c, t, rule, o, revision, now))
    ensures ClosedTotals(ObservedOut(c, t, rule, o, revision, now), KeyOf(rule, o, revision)) == []
  {
    if Find(t.open, KeyOf(rule, o, revision)) == |t.open| {
      NoEvictionMeansRoom(c, t, rule, o, revision, now);
      assert ObservedOut(c, t, rule, o, revision, now)[1..] == [];
    }
  }

  /** A match of the key itself extends the open window or opens a new one. */
  lemma OwnKey(c: Settings, t: Table, rule: PolicyRule, o: Observation, revision: string, now: int,
      closed: seq<Totals>, samples: seq<Sample>)
    requires c.capacity >= 1
    requires Inv(c, t.open, closed, samples, KeyOf(rule, o, revision), now)
    requires NotIdle(c, t.open, KeyOf(rule, o, revision), now)
    requires NoEviction(ObservedOut(c, t, rule, o, revision, now))
    ensures Inv(c, Observed(c, t, rule, o, revision, now).open, closed, samples + [Sample(now, o)],
      KeyOf(rule, o, revision), now)
    ensures At(Observed(c, t, rule, o, revision, now).open, KeyOf(rule, o, revision)).Some?
    ensures ClosedTotals(ObservedOut(c, t, rule, o, revision, now), KeyOf(rule, o, revision)) == []
  {
    StartClosesNothing(c, t, rule, o, revision, now);
    if Find(t.open, KeyOf(rule, o, revision)) < |t.open| {
      OwnKeyOpen(c, t, rule, o, revision, now, closed, samples);
    } else {
      OwnKeyNew(c, t, rule, o, revision, now, closed, samples);
    }
  }

  // ---------------------------------------------------------------- whole runs

  /** Some matching rule puts the observation under this key. */
  predicate Hits(rules: seq<PolicyRule>, o: Observation, revision: string, key: EpisodeKey) {
    exists r :: r in rules && KeyOf(r, o, revision) == key
  }

  lemma {:induction false} MatchAll(c: Settings, t: Table, rules: seq<PolicyRule>, o: Observation, revision: string,
      now: int,
                                    key: EpisodeKey, closed: seq<Totals>, samples: seq<Sample>)
    requires c.capacity >= 1 && c.idle > 0 && UniqueIds(rules)
    requires Inv(c, t.open, closed, samples, key, now)
    requires NotIdle(c, t.open, key, now)
    requires NoEviction(ObservedAllOut(c, t, rules, o, revision, now))
    ensures ClosedTotals(ObservedAllOut(c, t, rules, o, revision, now), key) == []
    ensures Inv(c, ObservedAll(c, t, rules, o, revision, now).open, closed,
                if Hits(rules, o, revision, key) then samples + [Sample(now, o)] else samples, key, now)
    ensures NotIdle(c, ObservedAll(c, t, rules, o, revision, now).open, key, now)
  {
    if rules != [] {
      var n := |rules| - 1;
      var front, last := rules[..n], rules[n];
      var mid := ObservedAll(c, t, front, o, revision, now);
      var early, late := ObservedAllOut(c, t, front, o, revision, now), ObservedOut(c, mid, last, o, revision, now);
      assert forall x :: x in early ==> x in early + late;
      assert forall x :: x in late ==> x in early + late;
      MatchAll(c, t, front, o, revision, now, key, closed, samples);
      ClosedTotalsAppend(early, late, key);
      HitsSplit(rules, o, revision, key);
      if KeyOf(last, o, revision) == key {
        OwnKey(c, mid, last, o, revision, now, closed, samples);
      } else {
        OtherKey(c, mid, last, o, revision, now, key);
        ObservedKeys(c, mid, last, o, revision, now);
      }
    }
  }

  lemma HitsSplit(rules: seq<PolicyRule>, o: Observation, revision: string, key: EpisodeKey)
    requires UniqueIds(rules) && rules != []
    ensures var n := |rules| - 1;
      && (Hits(rules, o, revision, key) <==> Hits(rules[..n], o, revision, key) || KeyOf(rules[n], o, revision) == key)
      && !(Hits(rules[..n], o, revision, key) && KeyOf(rules[n], o, revision) == key)
  {
    var n := |rules| - 1;
    if Hits(rules[..n], o, revision, key) {
      var r :| r in rules[..n] && KeyOf(r, o, revision) == key;
      assert r in rules;
      assert r.id == key.ruleId;
    }
    if KeyOf(rules[n], o, revision) == key {
      assert rules[n] in rules;
    }
  }

  /** Observations and ticks only, with clock readings that never decrease. */
  ghost predicate SteadyRun(ops: seq<Op>) {
    && (forall op :: op in ops ==> op.ObserveOp? || op.TickOp?)
    && (forall i, j :: 0 <= i < j < |ops| ==> ops[i].time <= ops[j].time)
  }

  /** The observations of a run that matched a rule under `key`, with their lifecycle times. */
  function Samples(config: Config, ops: seq<Op>, key: EpisodeKey): seq<Sample>
    requires RulesWellFormed(config.rules)
    requires forall op :: op in ops ==> op.ObserveOp? || op.TickOp?
  {
    if ops == [] then [] else
      Samples(config, ops[..|ops| - 1], key) + SampleOf(config, ops[|ops| - 1], key)
  }

  function SampleOf(config: Config, op: Op, key: EpisodeKey): seq<Sample>
    requires RulesWellFormed(config.rules)
  {
    if op.ObserveOp? && Hits(MatchedRules(config, op.observation), op.observation, config.revision, key)
    then [Sample(op.time, op.observation)] else []
  }

  lemma {:induction false} SteadyConfig(config: Config, ops: seq<Op>)
    requires ValidRun(config, ops)
    requires forall op :: op in ops ==> op.ObserveOp? || op.TickOp?
    ensures After(config, ops).config == config
  {
    if ops != [] {
      SteadyConfig(config, ops[..|ops| - 1]);
      assert ops[|ops| - 1] in ops;
    }
  }

  lemma StepWindows(s: State, op: Op, key: EpisodeKey, closed: seq<Totals>, samples: seq<Sample>, now: int)
    requires RulesWellFormed(s.config.rules) && UniqueIds(s.config.rules) && s.settings.capacity >= 1
      && s.settings.idle > 0
    requires op.ObserveOp? || op.TickOp?
    requires Inv(s.settings, s.table.open, closed, samples, key, now) && now <= op.time
    requires NoEviction(StepOut(s, op))
    ensures var hit := op.ObserveOp?
      && Hits(MatchedRules(s.config, op.observation), op.observation, s.config.revision, key);
      Inv(s.settings, StepTable(s, op).open, closed + ClosedTotals(StepOut(s, op), key),
          if hit then samples + [Sample(op.time, op.observation)] else samples, key, op.time)
  {
    var early := AdvancedOut(s.settings, s.table.open, op.time);
    AdvanceKeepsInv(s.settings, s.table.open, closed, samples, key, now, op.time);
    if op.ObserveOp? {
      var o, mid := op.observation, s.table.(open := Advanced(s.settings, s.table.open, op.time));
      var rules := MatchedRules(s.config, o);
      var late := ObservedAllOut(s.settings, mid, rules, o, s.config.revision, op.time);
      DetectorIsExact(s.config.rules, o);
      assert forall x :: x in late ==> x in early + late;
      MatchAll(s.settings, mid, rules, o, s.config.revision, op.time, key, closed + ClosedTotals(early, key), samples);
      ClosedTotalsAppend(early, late, key);
      assert ClosedTotals(early, key) + [] == ClosedTotals(early, key);
    }
  }

  lemma NoEvictionParts(a: seq<Transition>, b: seq<Transition>)
    requires NoEviction(a + b)
    ensures NoEviction(a) && NoEviction(b)
  {
    assert forall x :: x in a ==> x in a + b;
    assert forall x :: x in b ==> x in a + b;
  }

  lemma SteadyFront(config: Config, ops: seq<Op>)
    requires ValidRun(config, ops) && SteadyRun(ops) && ops != []
    requires NoEviction(Transitions(config, ops))
    ensures var front, op := ops[..|ops| - 1], ops[|ops| - 1];
      && ValidRun(config, front) && SteadyRun(front) && After(config, front).config == config
      && NoEviction(Transitions(config, front)) && NoEviction(StepOut(After(config, front), op))
      && (op.ObserveOp? || op.TickOp?) && (front != [] ==> front[|front| - 1].time <= op.time)
  {
    var front, op := ops[..|ops| - 1], ops[|ops| - 1];
    assert op in ops;
    SteadyConfig(config, front);
    NoEvictionParts(Transitions(config, front), StepOut(After(config, front), op));
  }

  function LastTime(ops: seq<Op>, default: int): int
    requires forall op :: op in ops ==> op.ObserveOp? || op.TickOp?
  {
    if ops == [] then default else ops[|ops| - 1].time
  }

  ghost predicate WindowsSoFar(config: Config, ops: seq<Op>, key: EpisodeKey, now: int)
    requires ValidRun(config, ops)
    requires forall op :: op in ops ==> op.ObserveOp? || op.TickOp?
  {
    Inv(Initial(config).settings, After(config, ops).table.open, ClosedTotals(Transitions(config, ops), key),
        Samples(config, ops, key), key, now)
  }

  lemma {:induction false} WindowsInv(config: Config, ops: seq<Op>, key: EpisodeKey, now: int)
    requires ValidRun(config, ops) && UniqueIds(config.rules) && config.idle > 0
    requires SteadyRun(ops) && NoEviction(Transitions(config, ops))
    requires ops == [] || now == ops[|ops| - 1].time
    ensures WindowsSoFar(config, ops, key, now)
  {
    if ops != [] {
      var front, op := ops[..|ops| - 1], ops[|ops| - 1];
      var before := LastTime(front, op.time);
      SteadyFront(config, ops);
      WindowsInv(config, front, key, before);
      StepWindows(After(config, front), op, key, ClosedTotals(Transitions(config, front), key),
        Samples(config, front, key), before);
      ClosedTotalsAppend(Transitions(config, front), StepOut(After(config, front), op), key);
      NothingMore(Samples(config, front, key));
    }
  }

  lemma NothingMore<T>(s: seq<T>)
    ensures s + [] == s
  {
  }

  /** The episodes of a key, closed ones first and then the one still open if any, are exactly the
      session windows of its matches: one episode a window, in order, with the window's totals. */
  lemma EpisodesAreWindows(config: Config, ops: seq<Op>, key: EpisodeKey)
    requires ValidRun(config, ops) && UniqueIds(config.rules) && config.idle > 0
    requires SteadyRun(ops) && NoEviction(Transitions(config, ops))
    ensures Match(ClosedTotals(Transitions(config, ops), key) + OpenTotals(After(config, ops).table.open, key),
                  Windows(config.idle, Samples(config, ops, key)))
  {
    WindowsInv(config, ops, key, LastTime(ops, 0));
  }

  /** Neither ticks nor unrelated observations influence a key: two steady runs in which it was
      matched by the same observations at the same times give it the same episodes. */
  lemma OnlyOwnMatchesCount(config: Config, a: seq<Op>, b: seq<Op>, key: EpisodeKey)
    requires ValidRun(config, a) && ValidRun(config, b) && UniqueIds(config.rules) && config.idle > 0
    requires SteadyRun(a) && NoEviction(Transitions(config, a))
    requires SteadyRun(b) && NoEviction(Transitions(config, b))
    requires Samples(config, a, key) == Samples(config, b, key)
    ensures ClosedTotals(Transitions(config, a), key) + OpenTotals(After(config, a).table.open, key)
         == ClosedTotals(Transitions(config, b), key) + OpenTotals(After(config, b).table.open, key)
  {
    EpisodesAreWindows(config, a, key);
    EpisodesAreWindows(config, b, key);
    var windows := Windows(config.idle, Samples(config, a, key));
    var x := ClosedTotals(Transitions(config, a), key) + OpenTotals(After(config, a).table.open, key);
    var y := ClosedTotals(Transitions(config, b), key) + OpenTotals(After(config, b).table.open, key);
    forall i | 0 <= i < |x| ensures x[i] == y[i] {
      AggregatesUnique(x[i], y[i], windows[i]);
    }
  }

  lemma SamplesSnoc(config: Config, front: seq<Op>, op: Op, ops: seq<Op>, key: EpisodeKey)
    requires RulesWellFormed(config.rules) && ops == front + [op]
    requires forall x :: x in ops ==> x.ObserveOp? || x.TickOp?
    ensures forall x :: x in front ==> x in ops
    ensures Samples(config, ops, key) == Samples(config, front, key) + SampleOf(config, op, key)
  {
    assert ops[..|ops| - 1] == front;
  }

  /** An operation that gives the key no sample can be left out. */
  lemma {:induction false} SamplesWithout(config: Config, a: seq<Op>, op: Op, b: seq<Op>, key: EpisodeKey)
    requires RulesWellFormed(config.rules) && SampleOf(config, op, key) == []
    requires forall x :: x in a + [op] + b ==> x.ObserveOp? || x.TickOp?
    requires forall x :: x in a + b ==> x.ObserveOp? || x.TickOp?
    ensures Samples(config, a + [op] + b, key) == Samples(config, a + b, key)
  {
    if b == [] {
      assert a + [op] + b == a + [op] && a + b == a;
      SamplesSnoc(config, a, op, a + [op] + b, key);
      assert Samples(config, a, key) + [] == Samples(config, a, key);
    } else {
      var front, last := b[..|b| - 1], b[|b| - 1];
      assert a + [op] + b == a + [op] + front + [last] && a + b == a + front + [last];
      SamplesSnoc(config, a + [op] + front, last, a + [op] + b, key);
      SamplesSnoc(config, a + front, last, a + b, key);
      SamplesWithout(config, a, op, front, key);
    }
  }
}
