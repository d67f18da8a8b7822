/** Whole runs of the episode processor from its initial state. */
module Runs {
  import opened Models
  import opened Policy
  import opened Episodes
  import opened Processing

  /** What callers of the processor guarantee: validated rules in every configuration, and only
      the tracker itself evicts. */
  predicate Admissible(op: Op) {
    match op
    case ReloadOp(config, _, _) => RulesWellFormed(config.rules)
    case CloseAllOp(reason, _, _) => reason != CapacityEvicted
    case _ => true
  }

  predicate ValidRun(config: Config, ops: seq<Op>) {
    config.capacity >= 1 && RulesWellFormed(config.rules) && forall op :: op in ops ==> Admissible(op)
  }

  function After(config: Config, ops: seq<Op>): (s: State)
    requires ValidRun(config, ops)
    ensures RulesWellFormed(s.config.rules)
    ensures s.settings == Initial(config).settings
  {
    if ops == [] then Initial(config) else
      assert Admissible(ops[|ops| - 1]);
      Step(After(config, ops[..|ops| - 1]), ops[|ops| - 1])
  }

  /** All transitions emitted by a run. */
  function Transitions(config: Config, ops: seq<Op>): seq<Transition>
    requires ValidRun(config, ops)
  {
    if ops == [] then [] else
      Transitions(config, ops[..|ops| - 1]) + StepOut(After(config, ops[..|ops| - 1]), ops[|ops| - 1])
  }

  /** All envelopes returned by a run. */
  function Trace(config: Config, ops: seq<Op>): seq<Envelope>
    requires ValidRun(config, ops)
  {
    if ops == [] then [] else
      Trace(config, ops[..|ops| - 1]) + StepEnvelopes(After(config, ops[..|ops| - 1]), ops[|ops| - 1])
  }

  /** The open episodes never share a key and never exceed the capacity. */
  lemma {:induction false} OpenEpisodesBounded(config: Config, ops: seq<Op>)
    requires ValidRun(config, ops)
    ensures DistinctKeys(After(config, ops).table.open)
    ensures |After(config, ops).table.open| <= config.capacity
  {
    if ops != [] {
      var s, op := After(config, ops[..|ops| - 1]), ops[|ops| - 1];
      OpenEpisodesBounded(config, ops[..|ops| - 1]);
      if op.ObserveOp? || op.TickOp? {
        AdvancedKeys(s.settings, s.table.open, op.time);
        AdvancedFrom(s.settings, s.table.open, op.time);
      }
      if op.ObserveOp? {
        ObservedAllKeys(s.settings, s.table.(open := Advanced(s.settings, s.table.open, op.time)),
          MatchedRules(s.config, op.observation), op.observation, s.config.revision, op.time);
      }
    }
  }

  lemma {:induction false} ObservedAllKeys(c: Settings, t: Table, rules: seq<PolicyRule>, o: Observation,
      revision: string, now: int)
    requires DistinctKeys(t.open) && c.capacity >= 1 && |t.open| <= c.capacity
    ensures DistinctKeys(ObservedAll(c, t, rules, o, revision, now).open)
    ensures |ObservedAll(c, t, rules, o, revision, now).open| <= c.capacity
  {
    if rules != [] {
      var n := |rules| - 1;
      ObservedAllKeys(c, t, rules[..n], o, revision, now);
      ObservedKeys(c, ObservedAll(c, t, rules[..n], o, revision, now), rules[n], o, revision, now);
    }
  }

  /** Over every run nothing but the rules ever changes: capacity and timers stay what they were, and so
      does everything the configuration's runtime hash covers. */
  lemma {:induction false} RuntimeNeverChanges(config: Config, ops: seq<Op>)
    requires ValidRun(config, ops)
    ensures After(config, ops).config.runtimeHash == config.runtimeHash
    ensures After(config, ops).settings == Settings(config.capacity, config.idle, config.progress)
  {
    if ops != [] {
      RuntimeNeverChanges(config, ops[..|ops| - 1]);
    }
  }
}
