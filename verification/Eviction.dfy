/** The tracker's order is least recently matched first, so the episode evicted at capacity is the one
    that has gone longest without a match. */
module Eviction {
  import opened Basics
  import opened Models
  import opened Policy
  import opened Episodes
  import opened Processing
  import opened Runs

  /** Sorted by the time of the last match, none of them after `now`. */
  ghost predicate OldestFirst(open: seq<Record>, now: int) {
    && (forall i, j :: 0 <= i < j < |open| ==> open[i].lastLifecycle <= open[j].lastLifecycle)
    && (forall i :: 0 <= i < |open| ==> open[i].lastLifecycle <= now)
  }

  lemma {:induction false} AdvancedFromTimes(c: Settings, open: seq<Record>, now: int)
    ensures forall e :: e in Advanced(c, open, now) ==> exists f :: f in open && f.lastLifecycle == e.lastLifecycle
  {
    if open != [] {
      AdvancedFromTimes(c, open[1..], now);
      forall e | e in Advanced(c, open, now) ensures exists f :: f in open && f.lastLifecycle == e.lastLifecycle {
        if e in Advanced(c, open[1..], now) {
          var f :| f in open[1..] && f.lastLifecycle == e.lastLifecycle;
          assert f in open;
        } else {
          assert open[0] in open && open[0].lastLifecycle == e.lastLifecycle;
        }
      }
    }
  }

  lemma {:induction false} AdvancedOldestFirst(c: Settings, open: seq<Record>, now: int, then_: int)
    requires OldestFirst(open, now) && now <= then_
    ensures OldestFirst(Advanced(c, open, then_), then_)
  {
    if open != [] {
      AdvancedOldestFirst(c, open[1..], now, then_);
      AdvancedFromTimes(c, open[1..], then_);
      forall e | e in Advanced(c, open[1..], then_) ensures open[0].lastLifecycle <= e.lastLifecycle {
        var f :| f in open[1..] && f.lastLifecycle == e.lastLifecycle;
        var k :| 0 <= k < |open[1..]| && open[1..][k] == f;
        assert open[k + 1] == f;
      }
    }
  }

  lemma RemovedOldestFirst(open: seq<Record>, i: nat, now: int)
    requires OldestFirst(open, now) && i < |open|
    ensures OldestFirst(RemoveAt(open, i), now)
  {
    var kept := RemoveAt(open, i);
    assert forall k :: 0 <= k < |kept| ==> kept[k] == open[if k < i then k else k + 1];
  }

  lemma AppendedOldestFirst(open: seq<Record>, e: Record, now: int)
    requires OldestFirst(open, now) && e.lastLifecycle == now
    ensures OldestFirst(open + [e], now)
  {
  }

  lemma ObservedOldestFirst(c: Settings, t: Table, rule: PolicyRule, o: Observation, revision: string, now: int)
    requires OldestFirst(t.open, now)
    ensures OldestFirst(Observed(c, t, rule, o, revision, now).open, now)
  {
    var key := KeyOf(rule, o, revision);
    var i, newest := Find(t.open, key), Opened(t.nextId, key, rule, o, now);
    if i < |t.open| {
      RemovedOldestFirst(t.open, i, now);
      AppendedOldestFirst(RemoveAt(t.open, i), Updated(t.open[i], o, now), now);
    } else if |t.open| >= c.capacity && t.open != [] {
      AppendedOldestFirst(t.open[1..], newest, now);
    } else {
      AppendedOldestFirst(t.open, newest, now);
    }
  }

  lemma {:induction false} ObservedAllOldestFirst(c: Settings, t: Table, rules: seq<PolicyRule>, o: Observation,
      revision: string, now: int)
    requires OldestFirst(t.open, now)
    ensures OldestFirst(ObservedAll(c, t, rules, o, revision, now).open, now)
  {
    if rules != [] {
      var n := |rules| - 1;
      ObservedAllOldestFirst(c, t, rules[..n], o, revision, now);
      ObservedOldestFirst(c, ObservedAll(c, t, rules[..n], o, revision, now), rules[n], o, revision, now);
    }
  }

  /** The clock reading of an operation that runs the timers. */
  function Reading(op: Op, now: int): int {
    if op.ObserveOp? || op.TickOp? then op.time else now
  }

  /** The last such reading of a run, `first` before any. */
  function Now(ops: seq<Op>, first: int): int {
    if ops == [] then first else Reading(ops[|ops| - 1], Now(ops[..|ops| - 1], first))
  }

  /** Observations and ticks never go back in time; anything may happen between them. */
  predicate NeverBack(ops: seq<Op>, first: int) {
    ops == [] ||
    (NeverBack(ops[..|ops| - 1], first)
      && Now(ops[..|ops| - 1], first) <= Reading(ops[|ops| - 1], Now(ops[..|ops| - 1], first)))
  }

  /** In every run whose clock never goes back the open episodes stand in the order of their last
      match. */
  lemma {:induction false} LeastRecentFirst(config: Config, ops: seq<Op>, first: int)
    requires ValidRun(config, ops) && NeverBack(ops, first)
    ensures OldestFirst(After(config, ops).table.open, Now(ops, first))
  {
    if ops != [] {
      var front, op := ops[..|ops| - 1], ops[|ops| - 1];
      var s := After(config, front);
      LeastRecentFirst(config, front, first);
      if op.ObserveOp? || op.TickOp? {
        AdvancedOldestFirst(s.settings, s.table.open, Now(front, first), op.time);
      }
      if op.ObserveOp? {
        ObservedAllOldestFirst(s.settings, s.table.(open := Advanced(s.settings, s.table.open, op.time)),
          MatchedRules(s.config, op.observation), op.observation, s.config.revision, op.time);
      }
    }
  }

  // ---------------------------------------------------------------- the victims

  /** `x` evicts an episode that has gone longest without a match, to make room for the new key of
      `rule` and `o` in the full table `t`. */
  ghost predicate Victim(c: Settings, t: Table, rule: PolicyRule, o: Observation, revision: string, now: int,
      x: Transition) {
    && |t.open| >= c.capacity && Find(t.open, KeyOf(rule, o, revision)) == |t.open|
    && exists e :: e in t.open && x == Closing(e, now, CapacityEvicted)
                   && forall f :: f in t.open ==> e.lastLifecycle <= f.lastLifecycle
  }

  lemma VictimOfOne(c: Settings, t: Table, rule: PolicyRule, o: Observation, revision: string, now: int, x: Transition)
    requires OldestFirst(t.open, now) && x in ObservedOut(c, t, rule, o, revision, now)
    requires x.closeReason == Some(CapacityEvicted)
    ensures Victim(c, t, rule, o, revision, now, x)
  {
    var e := t.open[0];
    assert x == Closing(e, now, CapacityEvicted);
    forall f | f in t.open ensures e.lastLifecycle <= f.lastLifecycle {
      var k :| 0 <= k < |t.open| && t.open[k] == f;
    }
  }

  /** The table before rule number `k` of the rules that match. */
  function TableAt(c: Settings, t: Table, rules: seq<PolicyRule>, k: nat, o: Observation, revision: string,
      now: int): Table
    requires k <= |rules|
  {
    ObservedAll(c, t, rules[..k], o, revision, now)
  }

  lemma {:induction false} VictimOfAll(c: Settings, t: Table, rules: seq<PolicyRule>, o: Observation, revision: string,
      now: int, x: Transition) returns (k: nat)
    requires OldestFirst(t.open, now) && x in ObservedAllOut(c, t, rules, o, revision, now)
    requires x.closeReason == Some(CapacityEvicted)
    ensures k < |rules| && Victim(c, TableAt(c, t, rules, k, o, revision, now), rules[k], o, revision, now, x)
  {
    var n := |rules| - 1;
    if x in ObservedAllOut(c, t, rules[..n], o, revision, now) {
      k := VictimOfAll(c, t, rules[..n], o, revision, now, x);
      assert rules[..n][..k] == rules[..k];
    } else {
      k := n;
      ObservedAllOldestFirst(c, t, rules[..n], o, revision, now);
      VictimOfOne(c, TableAt(c, t, rules, n, o, revision, now), rules[n], o, revision, now, x);
    }
  }

  lemma {:induction false} TimersNeverEvict(c: Settings, open: seq<Record>, now: int)
    ensures forall x :: x in AdvancedOut(c, open, now) ==> x.closeReason != Some(CapacityEvicted)
  {
    if open != [] {
      TimersNeverEvict(c, open[1..], now);
    }
  }

  lemma {:induction false} ClosingNeverEvicts(open: seq<Record>, now: int, reason: CloseReason)
    requires reason != CapacityEvicted
    ensures forall x :: x in ClosedOut(open, now, reason) ==> x.closeReason != Some(CapacityEvicted)
  {
    if open != [] {
      ClosingNeverEvicts(open[1..], now, reason);
    }
  }

  /** The table an observation meets, once its time has run the timers. */
  function MetTable(s: State, time: int): Table {
    s.table.(open := Advanced(s.settings, s.table.open, time))
  }

  /** Matching rule number `k` of the observation `op` evicts `x` as a least recently matched episode. */
  ghost predicate VictimOf(s: State, op: Op, k: nat, x: Transition)
    requires RulesWellFormed(s.config.rules)
  {
    && op.ObserveOp?
    && var rules, o, now, revision :=
      MatchedRules(s.config, op.observation), op.observation, op.time, s.config.revision;
       && k < |rules|
       && Victim(s.settings, TableAt(s.settings, MetTable(s, now), rules, k, o, revision, now), rules[k], o, revision,
         now, x)
  }

  lemma VictimOfStep(s: State, op: Op, x: Transition, now: int) returns (k: nat)
    requires RulesWellFormed(s.config.rules) && Admissible(op)
    requires OldestFirst(s.table.open, now) && now <= Reading(op, now)
    requires x in StepOut(s, op) && x.closeReason == Some(CapacityEvicted)
    ensures VictimOf(s, op, k, x)
  {
    k := 0;
    match op
    case ObserveOp(o, t, _) =>
      TimersNeverEvict(s.settings, s.table.open, t);
      AdvancedOldestFirst(s.settings, s.table.open, now, t);
      k := VictimOfAll(s.settings, MetTable(s, t), MatchedRules(s.config, o), o, s.config.revision, t, x);
    case TickOp(t, _) => TimersNeverEvict(s.settings, s.table.open, t);
    case CloseAllOp(reason, t, _) => ClosingNeverEvicts(s.table.open, t, reason);
    case ReloadOp(_, t, _) => ClosingNeverEvicts(s.table.open, t, PolicyReload);
    case _ =>
  }

  /** In every run whose clock never goes back, each eviction is made by an observation of the run, on a
      full table, for a new key, and its victim is an episode matched least recently. */
  lemma {:induction false} VictimIsLeastRecent(config: Config, ops: seq<Op>, first: int, x: Transition)
    returns (i: nat, k: nat)
    requires ValidRun(config, ops) && NeverBack(ops, first)
    requires x in Transitions(config, ops) && x.closeReason == Some(CapacityEvicted)
    ensures i < |ops| && ValidRun(config, ops[..i]) && VictimOf(After(config, ops[..i]), ops[i], k, x)
  {
    var n := |ops| - 1;
    var front := ops[..n];
    if x in Transitions(config, front) {
      i, k := VictimIsLeastRecent(config, front, first, x);
      assert front[..i] == ops[..i];
    } else {
      i := n;
      LeastRecentFirst(config, front, first);
      assert ops[n] in ops;
      k := VictimOfStep(After(config, front), ops[n], x, Now(front, first));
    }
  }
}
