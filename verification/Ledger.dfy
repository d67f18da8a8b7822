/** Conservation: nothing that was matched is lost or counted twice between open episodes and
    close transitions, whatever mix of operations is run. */
module Ledger {
  import opened Basics
  import opened Models
  import opened Policy
  import opened Episodes
  import opened Processing
  import opened Runs

  /** The additive quantities an episode accumulates. */
  datatype Measure = Matches | Bytes | Lates | MatchesAt(point: string) | BytesAt(point: string)

  /** What one match contributes. */
  function Worth(m: Measure, o: Observation): nat {
    match m
    case Matches => 1
    case Bytes => o.wireLength
    case Lates => if o.late then 1 else 0
    case MatchesAt(p) => if o.capturePoint == p then 1 else 0
    case BytesAt(p) => if o.capturePoint == p then o.wireLength else 0
  }

  function AtPoint(points: map<string, PointCount>, p: string): PointCount {
    if p in points then points[p] else PointCount(0, 0)
  }

  function Tally(m: Measure, count: nat, bytes: nat, late: nat, points: map<string, PointCount>): nat {
    match m
    case Matches => count
    case Bytes => bytes
    case Lates => late
    case MatchesAt(p) => AtPoint(points, p).observations
    case BytesAt(p) => AtPoint(points, p).bytes
  }

  function Held(m: Measure, e: Record): nat {
    Tally(m, e.count, e.bytes, e.lateCount, e.perPoint)
  }

  function HeldByAll(m: Measure, open: seq<Record>): nat {
    if open == [] then 0 else Held(m, open[0]) + HeldByAll(m, open[1..])
  }

  /** What the close transitions report. */
  function Settled(m: Measure, ts: seq<Transition>): nat {
    if ts == [] then 0 else
      (if ts[0].phase.Close? then
         Tally(m, ts[0].observationCount, ts[0].observedBytes, ts[0].lateCount, ts[0].perPoint)
       else 0)
      + Settled(m, ts[1..])
  }

  function OfPhase(p: Phase, ts: seq<Transition>): nat {
    if ts == [] then 0 else (if ts[0].phase == p then 1 else 0) + OfPhase(p, ts[1..])
  }

  function Times(n: nat, worth: nat): (r: nat)
    ensures r == n * worth
  {
    if n == 0 then 0 else Times(n - 1, worth) + worth
  }

  /** What the run's observations contributed, once per rule they matched. */
  function Charged(m: Measure, config: Config, ops: seq<Op>): nat
    requires ValidRun(config, ops)
  {
    if ops == [] then 0 else
      var s, op := After(config, ops[..|ops| - 1]), ops[|ops| - 1];
      Charged(m, config, ops[..|ops| - 1])
      + (if op.ObserveOp? then Times(|MatchedRules(s.config, op.observation)|, Worth(m, op.observation)) else 0)
  }

  lemma {:induction false} HeldAppend(m: Measure, a: seq<Record>, b: seq<Record>)
    ensures HeldByAll(m, a + b) == HeldByAll(m, a) + HeldByAll(m, b)
  {
    if a == [] {
      assert a + b == b;
    } else {
      assert (a + b)[1..] == a[1..] + b;
      HeldAppend(m, a[1..], b);
    }
  }

  lemma {:induction false} SettledAppend(m: Measure, a: seq<Transition>, b: seq<Transition>)
    ensures Settled(m, a + b) == Settled(m, a) + Settled(m, b)
    ensures forall p :: OfPhase(p, a + b) == OfPhase(p, a) + OfPhase(p, b)
  {
    if a == [] {
      assert a + b == b;
    } else {
      assert (a + b)[1..] == a[1..] + b;
      SettledAppend(m, a[1..], b);
    }
  }

  lemma SettledOne(m: Measure, t: Transition)
    ensures Settled(m, [t]) == if t.phase.Close? then
      Tally(m, t.observationCount, t.observedBytes, t.lateCount, t.perPoint) else 0
    ensures forall p :: OfPhase(p, [t]) == if t.phase == p then 1 else 0
  {
    assert [t][1..] == [];
  }

  lemma HeldWithout(m: Measure, open: seq<Record>, i: nat)
    requires i < |open|
    ensures HeldByAll(m, open) == HeldByAll(m, RemoveAt(open, i)) + Held(m, open[i])
  {
    assert open == open[..i] + ([open[i]] + open[i + 1..]);
    HeldAppend(m, open[..i], [open[i]] + open[i + 1..]);
    HeldAppend(m, open[..i], open[i + 1..]);
  }

  /** One match moves exactly its own worth onto the books. */
  lemma ObservedBalances(m: Measure, c: Settings, t: Table, rule: PolicyRule, o: Observation, revision: string,
      now: int)
    requires c.capacity >= 1
    ensures HeldByAll(m, Observed(c, t, rule, o, revision, now).open)
      + Settled(m, ObservedOut(c, t, rule, o, revision, now))
         == HeldByAll(m, t.open) + Worth(m, o)
    ensures |Observed(c, t, rule, o, revision, now).open| + OfPhase(Close, ObservedOut(c, t, rule, o, revision, now))
         == |t.open| + OfPhase(Start, ObservedOut(c, t, rule, o, revision, now))
  {
    var i := Find(t.open, KeyOf(rule, o, revision));
    if i < |t.open| {
      HeldWithout(m, t.open, i);
      HeldAppend(m, RemoveAt(t.open, i), [Updated(t.open[i], o, now)]);
    } else {
      OpenedBalances(m, c, t, rule, o, revision, now);
    }
  }

  lemma OpenedBalances(m: Measure, c: Settings, t: Table, rule: PolicyRule, o: Observation, revision: string, now: int)
    requires c.capacity >= 1 && Find(t.open, KeyOf(rule, o, revision)) == |t.open|
    ensures HeldByAll(m, Observed(c, t, rule, o, revision, now).open)
      + Settled(m, ObservedOut(c, t, rule, o, revision, now))
         == HeldByAll(m, t.open) + Worth(m, o)
    ensures |Observed(c, t, rule, o, revision, now).open| + OfPhase(Close, ObservedOut(c, t, rule, o, revision, now))
         == |t.open| + OfPhase(Start, ObservedOut(c, t, rule, o, revision, now))
  {
    var fresh_ := Opened(t.nextId, KeyOf(rule, o, revision), rule, o, now);
    var start := Report(fresh_, Start, now, false, None);
    assert HeldByAll(m, [fresh_]) == Worth(m, o);
    SettledOne(m, start);
    if |t.open| >= c.capacity {
      var close := Closing(t.open[0], now, CapacityEvicted);
      HeldAppend(m, t.open[1..], [fresh_]);
      SettledOne(m, close);
      SettledAppend(m, [close], [start]);
    } else {
      HeldAppend(m, t.open, [fresh_]);
      assert [] + [start] == [start];
    }
  }

  lemma {:induction false} ObservedAllBalances(m: Measure, c: Settings, t: Table, rules: seq<PolicyRule>,
      o: Observation, revision: string, now: int)
    requires c.capacity >= 1
    ensures var after, out := ObservedAll(c, t, rules, o, revision, now), ObservedAllOut(c, t, rules, o, revision, now);
      && HeldByAll(m, after.open) + Settled(m, out) == HeldByAll(m, t.open) + Times(|rules|, Worth(m, o))
      && |after.open| + OfPhase(Close, out) == |t.open| + OfPhase(Start, out)
  {
    if rules != [] {
      var n := |rules| - 1;
      var mid := ObservedAll(c, t, rules[..n], o, revision, now);
      ObservedAllBalances(m, c, t, rules[..n], o, revision, now);
      ObservedBalances(m, c, mid, rules[n], o, revision, now);
      SettledAppend(m, ObservedAllOut(c, t, rules[..n], o, revision, now),
        ObservedOut(c, mid, rules[n], o, revision, now));
    }
  }

  lemma {:induction false} AdvancedBalances(m: Measure, c: Settings, open: seq<Record>, now: int)
    ensures HeldByAll(m, Advanced(c, open, now)) + Settled(m, AdvancedOut(c, open, now)) == HeldByAll(m, open)
    ensures |Advanced(c, open, now)| + OfPhase(Close, AdvancedOut(c, open, now)) == |open|
    ensures OfPhase(Start, AdvancedOut(c, open, now)) == 0
  {
    if open != [] {
      var first := TickedOut(c, open[0], now);
      AdvancedBalances(m, c, open[1..], now);
      SettledAppend(m, first, AdvancedOut(c, open[1..], now));
      var kept := if IdleAt(c, open[0], now) then [] else [Ticked(c, open[0], now)];
      HeldAppend(m, kept, Advanced(c, open[1..], now));
      assert first != [] ==> first[1..] == [];
    }
  }

  lemma {:induction false} ClosedBalances(m: Measure, open: seq<Record>, now: int, reason: CloseReason)
    ensures Settled(m, ClosedOut(open, now, reason)) == HeldByAll(m, open)
    ensures OfPhase(Close, ClosedOut(open, now, reason)) == |open|
    ensures OfPhase(Start, ClosedOut(open, now, reason)) == 0
  {
    if open != [] {
      ClosedBalances(m, open[1..], now, reason);
      assert ClosedOut(open, now, reason)[1..] == ClosedOut(open[1..], now, reason);
    }
  }

  lemma StepBalances(m: Measure, s: State, op: Op)
    requires RulesWellFormed(s.config.rules) && s.settings.capacity >= 1
    ensures HeldByAll(m, StepTable(s, op).open) + Settled(m, StepOut(s, op)) == HeldByAll(m, s.table.open)
      + if op.ObserveOp? then Times(|MatchedRules(s.config, op.observation)|, Worth(m, op.observation)) else 0
    ensures |StepTable(s, op).open| + OfPhase(Close, StepOut(s, op)) == |s.table.open| + OfPhase(Start, StepOut(s, op))
  {
    match op
    case ObserveOp(o, t, _) =>
      var mid := s.table.(open := Advanced(s.settings, s.table.open, t));
      var rules := MatchedRules(s.config, o);
      AdvancedBalances(m, s.settings, s.table.open, t);
      ObservedAllBalances(m, s.settings, mid, rules, o, s.config.revision, t);
      SettledAppend(m, AdvancedOut(s.settings, s.table.open, t),
        ObservedAllOut(s.settings, mid, rules, o, s.config.revision, t));
    case TickOp(t, _) => AdvancedBalances(m, s.settings, s.table.open, t);
    case CloseAllOp(reason, t, _) => ClosedBalances(m, s.table.open, t, reason);
    case ReloadOp(_, t, _) => ClosedBalances(m, s.table.open, t, PolicyReload);
    case ReloadFailedOp(_, _, _) =>
    case SystemOp(_, _, _, _) =>
  }

  lemma {:induction false} CountPhasesCounts(c: Counts, ts: seq<Transition>)
    ensures CountPhases(c, ts).started == c.started + OfPhase(Start, ts)
    ensures CountPhases(c, ts).progressed == c.progressed + OfPhase(Progress, ts)
    ensures CountPhases(c, ts).closed == c.closed + OfPhase(Close, ts)
    ensures CountPhases(c, ts).ruleMatches == c.ruleMatches
  {
    if ts != [] {
      var n := |ts| - 1;
      CountPhasesCounts(c, ts[..n]);
      SettledAppend(Matches, ts[..n], [ts[n]]);
      assert ts == ts[..n] + [ts[n]];
      SettledOne(Matches, ts[n]);
    }
  }

  /** At every point of every run, each quantity charged by matches is either reported by a close
      transition or held by an open episode. */
  lemma {:induction false} Conservation(m: Measure, config: Config, ops: seq<Op>)
    requires ValidRun(config, ops)
    ensures Settled(m, Transitions(config, ops)) + HeldByAll(m, After(config, ops).table.open)
      == Charged(m, config, ops)
  {
    if ops != [] {
      var front, op := ops[..|ops| - 1], ops[|ops| - 1];
      Conservation(m, config, front);
      StepBalances(m, After(config, front), op);
      SettledAppend(m, Transitions(config, front), StepOut(After(config, front), op));
    }
  }

  lemma StepCountsUp(s: State, op: Op)
    requires RulesWellFormed(s.config.rules)
    ensures var c := StepCounts(s, op);
      && c.started == s.counts.started + OfPhase(Start, StepOut(s, op))
      && c.progressed == s.counts.progressed + OfPhase(Progress, StepOut(s, op))
      && c.closed == s.counts.closed + OfPhase(Close, StepOut(s, op))
      && c.ruleMatches == s.counts.ruleMatches + if op.ObserveOp? then |MatchedRules(s.config, op.observation)| else 0
  {
    CountPhasesCounts(
      if op.ObserveOp?
      then CountObservation(s.counts, op.observation, |MatchedRules(s.config, op.observation)|) else s.counts,
      StepOut(s, op));
  }

  /** The phase counters are the numbers of transitions of each phase, and rule matches are all
      the matches charged. */
  lemma {:induction false} CountersAgree(config: Config, ops: seq<Op>)
    requires ValidRun(config, ops)
    ensures var s, ts := After(config, ops), Transitions(config, ops);
      && s.counts.ruleMatches == Charged(Matches, config, ops)
      && s.counts.started == OfPhase(Start, ts)
      && s.counts.progressed == OfPhase(Progress, ts)
      && s.counts.closed == OfPhase(Close, ts)
  {
    if ops != [] {
      var front, op := ops[..|ops| - 1], ops[|ops| - 1];
      CountersAgree(config, front);
      StepCountsUp(After(config, front), op);
      SettledAppend(Matches, Transitions(config, front), StepOut(After(config, front), op));
    }
  }

  /** The observations of a run, in order. */
  function ObservationsOf(ops: seq<Op>): seq<Observation> {
    if ops == [] then [] else
      var last := ops[|ops| - 1];
      ObservationsOf(ops[..|ops| - 1]) + (if last.ObserveOp? then [last.observation] else [])
  }

  function OfOutcome(outcome: Outcome, os: seq<Observation>): nat {
    if os == [] then 0 else OfOutcome(outcome, os[..|os| - 1]) + (if os[|os| - 1].outcome == outcome then 1 else 0)
  }

  function LateOnes(os: seq<Observation>): nat {
    if os == [] then 0 else LateOnes(os[..|os| - 1]) + (if os[|os| - 1].late then 1 else 0)
  }

  /** How many observations matched at least one rule when they were processed. */
  function Matched(config: Config, ops: seq<Op>): nat
    requires ValidRun(config, ops)
  {
    if ops == [] then 0 else
      var s, op := After(config, ops[..|ops| - 1]), ops[|ops| - 1];
      Matched(config, ops[..|ops| - 1])
      + (if op.ObserveOp? && exists r :: r in s.config.rules && RuleMatches(r, op.observation) then 1 else 0)
  }

  lemma {:induction false} PhasesCountNoObservations(c: Counts, ts: seq<Transition>)
    ensures CountPhases(c, ts) == c.(started := CountPhases(c, ts).started, progressed := CountPhases(c, ts).progressed,
                                     closed := CountPhases(c, ts).closed)
  {
    if ts != [] {
      PhasesCountNoObservations(c, ts[..|ts| - 1]);
    }
  }

  /** The counters of observations are what the observations say, `matched` of them matched. */
  predicate CountsOf(c: Counts, os: seq<Observation>, matched: nat) {
    && c.observations == |os| && c.matchedObservations == matched && c.late == LateOnes(os)
    && c.complete == OfOutcome(Complete, os) && c.partial == OfOutcome(Partial, os)
    && c.undecodable == OfOutcome(Undecodable, os)
  }

  lemma OneCounted(c: Counts, os: seq<Observation>, matched: nat, o: Observation, matches: nat)
    requires CountsOf(c, os, matched)
    ensures CountsOf(CountObservation(c, o, matches), os + [o], matched + if matches > 0 then 1 else 0)
  {
    assert (os + [o])[..|os|] == os;
  }

  /** The other counters: how many observations there were, of each outcome, late ones, and matched ones. */
  lemma {:induction false} ObservationCounters(config: Config, ops: seq<Op>)
    requires ValidRun(config, ops)
    ensures CountsOf(After(config, ops).counts, ObservationsOf(ops), Matched(config, ops))
  {
    if ops != [] {
      var front, op := ops[..|ops| - 1], ops[|ops| - 1];
      ObservationCounters(config, front);
      StepCounted(After(config, front), op, ObservationsOf(front), Matched(config, front));
    }
  }

  lemma StepCounted(s: State, op: Op, os: seq<Observation>, matched: nat)
    requires RulesWellFormed(s.config.rules) && CountsOf(s.counts, os, matched)
    ensures CountsOf(StepCounts(s, op), os + (if op.ObserveOp? then [op.observation] else []),
                     matched + if op.ObserveOp? && exists r :: r in s.config.rules && RuleMatches(r, op.observation)
                               then 1 else 0)
  {
    if op.ObserveOp? {
      var n := |MatchedRules(s.config, op.observation)|;
      SomeMatched(s.config, op.observation);
      OneCounted(s.counts, os, matched, op.observation, n);
      PhasesCountNoObservations(CountObservation(s.counts, op.observation, n), StepOut(s, op));
    } else {
      NothingAfter(os);
      PhasesCountNoObservations(s.counts, StepOut(s, op));
    }
  }

  lemma SomeMatched(config: Config, o: Observation)
    requires RulesWellFormed(config.rules)
    ensures |MatchedRules(config, o)| > 0 <==> exists r :: r in config.rules && RuleMatches(r, o)
  {
    DetectorIsExact(config.rules, o);
    var rules := MatchedRules(config, o);
    if |rules| > 0 {
      assert rules[0] in rules;
    }
  }

  /** Starts minus closes are the open episodes, at most the capacity. */
  lemma {:induction false} OpenEpisodesAreStartsMinusCloses(config: Config, ops: seq<Op>)
    requires ValidRun(config, ops)
    ensures var s := After(config, ops);
      s.counts.started - s.counts.closed == |s.table.open| <= config.capacity
  {
    OpenEpisodesBounded(config, ops);
    if ops != [] {
      var front, op := ops[..|ops| - 1], ops[|ops| - 1];
      OpenEpisodesAreStartsMinusCloses(config, front);
      StepCountsUp(After(config, front), op);
      StepBalances(Matches, After(config, front), op);
    }
  }

  /** After everything is closed the close transitions account for every match. */
  lemma NothingLeftAfterCloseAll(m: Measure, config: Config, ops: seq<Op>, reason: CloseReason, t: int, at: int)
    requires ValidRun(config, ops) && reason != CapacityEvicted
    ensures var all := ops + [CloseAllOp(reason, t, at)];
      && ValidRun(config, all)
      && After(config, all).table.open == []
      && Settled(m, Transitions(config, all)) == Charged(m, config, ops)
      && After(config, all).counts.started == After(config, all).counts.closed
  {
    var all := ops + [CloseAllOp(reason, t, at)];
    assert all[..|all| - 1] == ops;
    Conservation(m, config, all);
    OpenEpisodesAreStartsMinusCloses(config, all);
  }
}
