/** Leaving a tick or an unrelated observation out of a run: the shorter run evicts nothing the longer
    one did not, and every other key keeps its episodes. */
module Insertions {
  import opened Models
  import opened Policy
  import opened Episodes
  import opened Processing
  import opened Runs
  import opened Sessions

  // ---------------------------------------------------------------- one table covers another

  ghost predicate Later(e: Record, open: seq<Record>) {
    exists f :: f in open && f.key == e.key && f.lastLifecycle >= e.lastLifecycle
  }

  /** Every episode of `short` is in `long` too, matched no earlier there. */
  ghost predicate Fresher(short: seq<Record>, long: seq<Record>) {
    forall e :: e in short ==> Later(e, long)
  }

  /** The same, but for episodes that the timers close at `now`. */
  ghost predicate Covers(short: seq<Record>, long: seq<Record>, c: Settings, now: int) {
    forall e :: e in short ==> IdleAt(c, e, now) || Later(e, long)
  }

  lemma CoversItself(open: seq<Record>, c: Settings, now: int)
    ensures Covers(open, open, c, now)
  {
    forall e | e in open ensures Later(e, open) {
    }
  }

  lemma {:induction false} Survives(c: Settings, open: seq<Record>, f: Record, now: int)
    requires f in open && !IdleAt(c, f, now)
    ensures Ticked(c, f, now) in Advanced(c, open, now)
  {
    if f != open[0] {
      Survives(c, open[1..], f, now);
    }
  }

  lemma {:induction false} Survivor(c: Settings, open: seq<Record>, e: Record, now: int) returns (f: Record)
    requires e in Advanced(c, open, now)
    ensures f in open && !IdleAt(c, f, now) && e == Ticked(c, f, now)
  {
    if e in Advanced(c, open[1..], now) {
      f := Survivor(c, open[1..], e, now);
    } else {
      f := open[0];
    }
  }

  lemma AdvanceLonger(short: seq<Record>, long: seq<Record>, c: Settings, now: int, next: int)
    requires Covers(short, long, c, now) && now <= next
    ensures Covers(short, Advanced(c, long, next), c, next)
  {
    forall e | e in short ensures IdleAt(c, e, next) || Later(e, Advanced(c, long, next)) {
      if !IdleAt(c, e, next) {
        var f :| f in long && f.key == e.key && f.lastLifecycle >= e.lastLifecycle;
        Survives(c, long, f, next);
        assert Ticked(c, f, next).key == e.key;
      }
    }
  }

  lemma AdvanceShorter(short: seq<Record>, long: seq<Record>, c: Settings, now: int)
    requires Covers(short, long, c, now)
    ensures Fresher(Advanced(c, short, now), long)
  {
    forall e | e in Advanced(c, short, now) ensures Later(e, long) {
      var g := Survivor(c, short, e, now);
      assert Later(g, long);
      var f :| f in long && f.key == g.key && f.lastLifecycle >= g.lastLifecycle;
    }
  }

  // ---------------------------------------------------------------- one match

  /** A match that evicts nothing keeps every episode, with a later match at the most. */
  lemma MatchKeeps(c: Settings, t: Table, rule: PolicyRule, o: Observation, revision: string, now: int, f: Record)
    requires c.capacity >= 1 && NoEviction(ObservedOut(c, t, rule, o, revision, now)) && f in t.open
    ensures Later(f, Observed(c, t, rule, o, revision, now).open)
  {
    var key, after := KeyOf(rule, o, revision), Observed(c, t, rule, o, revision, now).open;
    var i := Find(t.open, key);
    if i == |t.open| {
      NoEvictionMeansRoom(c, t, rule, o, revision, now);
      assert f in after;
    } else if f == t.open[i] {
      assert Updated(f, o, now) in after;
    } else {
      var j :| 0 <= j < |t.open| && t.open[j] == f;
      assert after[if j < i then j else j - 1] == f;
    }
  }

  lemma LaterTwice(e: Record, f: Record, open: seq<Record>)
    requires f.key == e.key && f.lastLifecycle >= e.lastLifecycle && Later(f, open)
    ensures Later(e, open)
  {
  }

  lemma MatchLonger(short: seq<Record>, c: Settings, t: Table, rule: PolicyRule, o: Observation, revision: string,
      now: int)
    requires c.capacity >= 1 && NoEviction(ObservedOut(c, t, rule, o, revision, now)) && Fresher(short, t.open)
    ensures Fresher(short, Observed(c, t, rule, o, revision, now).open)
  {
    forall e | e in short ensures Later(e, Observed(c, t, rule, o, revision, now).open) {
      assert Later(e, t.open);
      var f :| f in t.open && f.key == e.key && f.lastLifecycle >= e.lastLifecycle;
      MatchKeeps(c, t, rule, o, revision, now, f);
      LaterTwice(e, f, Observed(c, t, rule, o, revision, now).open);
    }
  }

  /** The matched episode itself, in the shorter and the longer run. */
  lemma MatchedLater(c: Settings, s: Table, t: Table, rule: PolicyRule, o: Observation, revision: string, now: int)
    requires Fresher(s.open, t.open) && DistinctKeys(t.open)
    ensures var newest := Observed(c, s, rule, o, revision, now).open;
      newest != [] && Later(newest[|newest| - 1], Observed(c, t, rule, o, revision, now).open)
  {
    var key, long := KeyOf(rule, o, revision), Observed(c, t, rule, o, revision, now).open;
    var i, j := Find(s.open, key), Find(t.open, key);
    var x := long[|long| - 1];
    if i < |s.open| {
      var e := s.open[i];
      assert Later(e, t.open);
      var f :| f in t.open && f.key == e.key && f.lastLifecycle >= e.lastLifecycle;
      var k :| 0 <= k < |t.open| && t.open[k] == f;
      assert j <= k && j == k;
    }
    assert x in long && x.key == key;
  }

  lemma EvictingNothing(c: Settings, t: Table, rule: PolicyRule, o: Observation, revision: string, now: int)
    requires Find(t.open, KeyOf(rule, o, revision)) < |t.open| || |t.open| < c.capacity || t.open == []
    ensures NoEviction(ObservedOut(c, t, rule, o, revision, now))
  {
  }

  function Keys(open: seq<Record>): (keys: set<EpisodeKey>)
    ensures forall e :: e in open ==> e.key in keys
    ensures forall k :: k in keys ==> exists e :: e in open && e.key == k
  {
    set e | e in open :: e.key
  }

  lemma {:induction false} KeysCount(open: seq<Record>)
    requires DistinctKeys(open)
    ensures |Keys(open)| == |open|
  {
    if open != [] {
      var front, last := open[..|open| - 1], open[|open| - 1];
      KeysCount(front);
      assert open == front + [last];
      assert Keys(open) == Keys(front) + {last.key};
      assert last.key !in Keys(front);
    }
  }

  lemma {:induction false} SubsetCount<T>(a: set<T>, b: set<T>)
    requires a <= b
    ensures |a| <= |b|
  {
    if a != {} {
      var x :| x in a;
      SubsetCount(a - {x}, b - {x});
    }
  }

  lemma FresherKeys(short: seq<Record>, long: seq<Record>)
    requires Fresher(short, long)
    ensures Keys(short) <= Keys(long)
  {
    forall k | k in Keys(short) ensures k in Keys(long) {
      var e :| e in short && e.key == k;
      assert Later(e, long);
    }
  }

  /** What the longer run has room for, the shorter has. */
  lemma RoomToo(c: Settings, s: Table, t: Table, rule: PolicyRule, o: Observation, revision: string, now: int)
    requires c.capacity >= 1 && NoEviction(ObservedOut(c, t, rule, o, revision, now))
    requires Fresher(s.open, t.open) && DistinctKeys(s.open) && DistinctKeys(t.open) && |t.open| <= c.capacity
    ensures NoEviction(ObservedOut(c, s, rule, o, revision, now))
  {
    var key := KeyOf(rule, o, revision);
    if Find(s.open, key) == |s.open| {
      FresherKeys(s.open, t.open);
      KeysCount(s.open);
      KeysCount(t.open);
      if Find(t.open, key) == |t.open| {
        NoEvictionMeansRoom(c, t, rule, o, revision, now);
        SubsetCount(Keys(s.open), Keys(t.open));
      } else {
        NotFound(s.open, key);
        assert t.open[Find(t.open, key)].key in Keys(t.open);
        SubsetCount(Keys(s.open) + {key}, Keys(t.open));
      }
    }
    EvictingNothing(c, s, rule, o, revision, now);
  }

  lemma NotFound(open: seq<Record>, key: EpisodeKey)
    requires Find(open, key) == |open|
    ensures key !in Keys(open)
  {
    assert forall e :: e in open ==> e.key != key;
  }

  lemma MatchBoth(c: Settings, s: Table, t: Table, rule: PolicyRule, o: Observation, revision: string, now: int)
    requires c.capacity >= 1 && NoEviction(ObservedOut(c, t, rule, o, revision, now))
    requires Fresher(s.open, t.open) && DistinctKeys(s.open) && DistinctKeys(t.open) && |t.open| <= c.capacity
    ensures NoEviction(ObservedOut(c, s, rule, o, revision, now))
    ensures Fresher(Observed(c, s, rule, o, revision, now).open, Observed(c, t, rule, o, revision, now).open)
  {
    RoomToo(c, s, t, rule, o, revision, now);
    MatchLonger(s.open, c, t, rule, o, revision, now);
    MatchedLater(c, s, t, rule, o, revision, now);
    var short, long := Observed(c, s, rule, o, revision, now).open, Observed(c, t, rule, o, revision, now).open;
    forall e | e in short ensures Later(e, long) {
      if e != short[|short| - 1] {
        assert e in s.open;
      }
    }
  }

  // ---------------------------------------------------------------- all matches of an observation

  lemma {:induction false} MatchAllBoth(c: Settings, s: Table, t: Table, rules: seq<PolicyRule>, o: Observation,
      revision: string, now: int)
    requires c.capacity >= 1 && NoEviction(ObservedAllOut(c, t, rules, o, revision, now))
    requires Fresher(s.open, t.open) && DistinctKeys(s.open) && DistinctKeys(t.open)
    requires |s.open| <= c.capacity && |t.open| <= c.capacity
    ensures NoEviction(ObservedAllOut(c, s, rules, o, revision, now))
    ensures Fresher(ObservedAll(c, s, rules, o, revision, now).open, ObservedAll(c, t, rules, o, revision, now).open)
  {
    if rules != [] {
      var n := |rules| - 1;
      var front := rules[..n];
      var u, v := ObservedAll(c, s, front, o, revision, now), ObservedAll(c, t, front, o, revision, now);
      NoEvictionParts(ObservedAllOut(c, t, front, o, revision, now), ObservedOut(c, v, rules[n], o, revision, now));
      MatchAllBoth(c, s, t, front, o, revision, now);
      ObservedAllKeys(c, s, front, o, revision, now);
      ObservedAllKeys(c, t, front, o, revision, now);
      MatchBoth(c, u, v, rules[n], o, revision, now);
    }
  }

  lemma {:induction false} MatchAllLonger(short: seq<Record>, c: Settings, t: Table, rules: seq<PolicyRule>,
      o: Observation, revision: string, now: int)
    requires c.capacity >= 1 && NoEviction(ObservedAllOut(c, t, rules, o, revision, now)) && Fresher(short, t.open)
    ensures Fresher(short, ObservedAll(c, t, rules, o, revision, now).open)
  {
    if rules != [] {
      var n := |rules| - 1;
      var front := rules[..n];
      var v := ObservedAll(c, t, front, o, revision, now);
      NoEvictionParts(ObservedAllOut(c, t, front, o, revision, now), ObservedOut(c, v, rules[n], o, revision, now));
      MatchAllLonger(short, c, t, front, o, revision, now);
      MatchLonger(short, c, v, rules[n], o, revision, now);
    }
  }

  // ---------------------------------------------------------------- one operation

  /** Tables as every run keeps them. */
  ghost predicate Sane(s: State) {
    && RulesWellFormed(s.config.rules) && s.settings.capacity >= 1
    && DistinctKeys(s.table.open) && |s.table.open| <= s.settings.capacity
  }

  function Met(s: State, time: int): Table { s.table.(open := Advanced(s.settings, s.table.open, time)) }

  lemma MetSane(s: State, time: int)
    requires Sane(s)
    ensures DistinctKeys(Met(s, time).open) && |Met(s, time).open| <= s.settings.capacity
  {
    AdvancedKeys(s.settings, s.table.open, time);
    AdvancedFrom(s.settings, s.table.open, time);
  }

  lemma {:induction false} TimersEvictNothing(c: Settings, open: seq<Record>, now: int)
    ensures NoEviction(AdvancedOut(c, open, now))
  {
    if open != [] {
      TimersEvictNothing(c, open[1..], now);
    }
  }

  lemma NoEvictionJoins(a: seq<Transition>, b: seq<Transition>)
    requires NoEviction(a) && NoEviction(b)
    ensures NoEviction(a + b)
  {
  }

  /** The longer run alone makes a step. */
  lemma StepLonger(s: State, t: State, op: Op, now: int)
    requires Sane(t) && t.settings == s.settings && (op.ObserveOp? || op.TickOp?) && now <= op.time
    requires Covers(s.table.open, t.table.open, s.settings, now) && NoEviction(StepOut(t, op))
    ensures Covers(s.table.open, Step(t, op).table.open, s.settings, op.time)
  {
    var c, short, met := s.settings, s.table.open, Met(t, op.time);
    AdvanceLonger(short, t.table.open, c, now, op.time);
    if op.ObserveOp? {
      var rules, o, revision := MatchedRules(t.config, op.observation), op.observation, t.config.revision;
      NoEvictionParts(AdvancedOut(c, t.table.open, op.time), ObservedAllOut(c, met, rules, o, revision, op.time));
      forall e | e in short && !IdleAt(c, e, op.time) ensures Later(e, Step(t, op).table.open) {
        assert Later(e, met.open);
        assert Fresher([e], met.open);
        MatchAllLonger([e], c, met, rules, o, revision, op.time);
        assert e in [e];
      }
    }
  }

  /** Both runs make the same step. */
  lemma StepBoth(s: State, t: State, op: Op, now: int)
    requires Sane(s) && Sane(t) && t.settings == s.settings && t.config == s.config
    requires (op.ObserveOp? || op.TickOp?) && now <= op.time
    requires Covers(s.table.open, t.table.open, s.settings, now) && NoEviction(StepOut(t, op))
    ensures NoEviction(StepOut(s, op))
    ensures Covers(Step(s, op).table.open, Step(t, op).table.open, s.settings, op.time)
  {
    var c, short, long := s.settings, Met(s, op.time), Met(t, op.time);
    AdvanceLonger(s.table.open, t.table.open, c, now, op.time);
    AdvanceShorter(s.table.open, long.open, c, op.time);
    TimersEvictNothing(c, s.table.open, op.time);
    if op.ObserveOp? {
      var rules, o, revision := MatchedRules(t.config, op.observation), op.observation, t.config.revision;
      NoEvictionParts(AdvancedOut(c, t.table.open, op.time), ObservedAllOut(c, long, rules, o, revision, op.time));
      MetSane(s, op.time);
      MetSane(t, op.time);
      MatchAllBoth(c, short, long, rules, o, revision, op.time);
      NoEvictionJoins(AdvancedOut(c, s.table.open, op.time), ObservedAllOut(c, short, rules, o, revision, op.time));
    }
  }

  // ---------------------------------------------------------------- whole runs

  lemma RunSane(config: Config, ops: seq<Op>)
    requires ValidRun(config, ops) && (forall op :: op in ops ==> op.ObserveOp? || op.TickOp?)
    ensures Sane(After(config, ops)) && After(config, ops).config == config
  {
    OpenEpisodesBounded(config, ops);
    SteadyConfig(config, ops);
  }

  /** A run without one of its operations is a run, and its clock does not go back either. */
  lemma WithoutIsSteady(config: Config, a: seq<Op>, op: Op, b: seq<Op>)
    requires ValidRun(config, a + [op] + b) && SteadyRun(a + [op] + b)
    ensures ValidRun(config, a + b) && SteadyRun(a + b) && ValidRun(config, a) && SteadyRun(a)
    ensures ValidRun(config, a + [op]) && SteadyRun(a + [op])
  {
    var all := a + [op] + b;
    assert forall x :: x in a + b ==> x in all;
    assert forall x :: x in a + [op] ==> x in all;
    assert forall x :: x in a ==> x in all;
    assert forall i :: 0 <= i < |a + b| ==> (a + b)[i] == all[if i < |a| then i else i + 1];
    assert forall i :: 0 <= i < |a + [op]| ==> (a + [op])[i] == all[i];
    assert forall i :: 0 <= i < |a| ==> a[i] == all[i];
  }

  /** The shorter run evicts nothing, and its table is covered by the longer one's at `now`. */
  ghost predicate Compared(config: Config, short: seq<Op>, long: seq<Op>, now: int) {
    && ValidRun(config, short) && SteadyRun(short) && ValidRun(config, long) && SteadyRun(long)
    && NoEviction(Transitions(config, short))
    && Covers(After(config, short).table.open, After(config, long).table.open, Initial(config).settings, now)
  }

  /** Where the two runs part. */
  lemma ComparedStart(config: Config, a: seq<Op>, op: Op, all: seq<Op>)
    requires ValidRun(config, all) && SteadyRun(all) && NoEviction(Transitions(config, all)) && all == a + [op]
    ensures Compared(config, a, all, op.time)
  {
    assert all[..|all| - 1] == a;
    SteadyFront(config, all);
    RunSane(config, a);
    var s := After(config, a);
    CoversItself(s.table.open, s.settings, op.time);
    StepLonger(s, s, op, op.time);
  }

  /** Both runs go on with the same operation. */
  lemma ComparedStep(config: Config, short: seq<Op>, long: seq<Op>, op: Op, now: int, shorter: seq<Op>, longer: seq<Op>)
    requires Compared(config, short, long, now) && shorter == short + [op] && longer == long + [op]
    requires ValidRun(config, shorter) && SteadyRun(shorter) && ValidRun(config, longer) && SteadyRun(longer)
    requires NoEviction(Transitions(config, longer)) && now <= op.time
    ensures Compared(config, shorter, longer, op.time)
  {
    assert shorter[..|shorter| - 1] == short && longer[..|longer| - 1] == long;
    SteadyFront(config, longer);
    RunSane(config, short);
    RunSane(config, long);
    StepBoth(After(config, short), After(config, long), op, now);
    NoEvictionJoins(Transitions(config, short), StepOut(After(config, short), op));
  }

  lemma Peeled<T>(a: seq<T>, x: T, b: seq<T>, all: seq<T>, longer: seq<T>)
    requires all == a + [x] + b && b != [] && longer == a + [x] + b[..|b| - 1]
    ensures all[..|all| - 1] == longer && all == longer + [b[|b| - 1]]
    ensures a + b == a + b[..|b| - 1] + [b[|b| - 1]]
  {
    var front, last := b[..|b| - 1], b[|b| - 1];
    assert b == front + [last];
    assert a + [x] + (front + [last]) == a + [x] + front + [last];
    assert a + (front + [last]) == a + front + [last];
  }

  lemma {:induction false} ShorterEvictsNothing(config: Config, a: seq<Op>, op: Op, b: seq<Op>, all: seq<Op>)
    returns (now: int)
    requires all == a + [op] + b
    requires ValidRun(config, all) && SteadyRun(all) && NoEviction(Transitions(config, all))
    ensures now == all[|all| - 1].time && Compared(config, a + b, all, now)
    decreases |b|
  {
    if b == [] {
      assert a + b == a && all == a + [op];
      ComparedStart(config, a, op, all);
      now := op.time;
    } else {
      var n := |b| - 1;
      var last, longer := b[n], a + [op] + b[..n];
      Peeled(a, op, b, all, longer);
      SteadyFront(config, all);
      var before := ShorterEvictsNothing(config, a, op, b[..n], longer);
      WithoutIsSteady(config, a, op, b);
      ComparedStep(config, a + b[..n], longer, last, before, a + b, all);
      now := last.time;
    }
  }

  /** Leaving a tick, or an observation that does not match under the key, out of a steady run that
      evicts nothing leaves the key's episodes as they were. */
  lemma InsertionInvisible(config: Config, a: seq<Op>, op: Op, b: seq<Op>, key: EpisodeKey)
    requires ValidRun(config, a + [op] + b) && SteadyRun(a + [op] + b) && UniqueIds(config.rules) && config.idle > 0
    requires NoEviction(Transitions(config, a + [op] + b))
    requires !(op.ObserveOp? && Hits(MatchedRules(config, op.observation), op.observation, config.revision, key))
    ensures ValidRun(config, a + b)
    ensures ClosedTotals(Transitions(config, a + [op] + b), key)
      + OpenTotals(After(config, a + [op] + b).table.open, key)
         == ClosedTotals(Transitions(config, a + b), key) + OpenTotals(After(config, a + b).table.open, key)
  {
    var now := ShorterEvictsNothing(config, a, op, b, a + [op] + b);
    SamplesWithout(config, a, op, b, key);
    OnlyOwnMatchesCount(config, a + [op] + b, a + b, key);
  }
}
