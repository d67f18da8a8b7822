/** What an episode is about, over whole runs: the flow its start carries, which matches join it, why it
    closes, and when it reports. */
module EpisodeFlows {
  import opened Basics
  import opened Models
  import opened Policy
  import opened Episodes
  import opened Processing
  import opened Runs
  import opened TraceGrammar

  // ---------------------------------------------------------------- flows

  /** Two observations belong to one flow: everything an episode tells apart is the same. */
  predicate Alike(a: Observation, b: Observation) {
    && a.ipVersion == b.ipVersion && a.source == b.source && a.destination == b.destination
    && a.protocol == b.protocol && a.sourcePort == b.sourcePort && a.destinationPort == b.destinationPort
    && a.icmpType == b.icmpType && a.icmpCode == b.icmpCode
    && a.fields == b.fields && a.decodeReason == b.decodeReason
  }

  /** The key names this flow, rule and revision. */
  predicate Names(key: EpisodeKey, o: Observation, ruleId: string, revision: string) {
    && key.policyRevision == revision && key.ruleId == ruleId
    && key.ipVersion == o.ipVersion && key.source == o.source && key.destination == o.destination
    && key.protocol == o.protocol && key.sourcePort == o.sourcePort && key.destinationPort == o.destinationPort
    && key.icmpType == o.icmpType && key.icmpCode == o.icmpCode
    && key.fields == o.fields && key.decodeReason == o.decodeReason
  }

  // ---------------------------------------------------------------- what a step emits

  /** A start emitted while observation `o` is matched under `revision`. */
  predicate StartOf(t: Transition, o: Observation, revision: string, now: int) {
    && t.phase.Start? && Names(t.key, o, t.rule.id, revision) && t.lifecycleTime == now
    && t.firstObserved == t.lastObserved == o.capturedAt
    && t.observationCount == 1 && t.observedBytes == o.wireLength && t.lateCount == (if o.late then 1 else 0)
    && t.perPoint == map[o.capturePoint := PointCount(1, o.wireLength)]
    && !t.truncated && t.closeReason.None?
  }

  predicate EvictionAt(t: Transition, now: int) {
    t.phase.Close? && t.closeReason == Some(CapacityEvicted) && t.truncated && t.lifecycleTime == now
  }

  /** Every transition of a match: the start for its rule, or the victim's close. */
  lemma MatchEmits(c: Settings, t: Table, rule: PolicyRule, o: Observation, revision: string, now: int, tr: Transition)
    requires tr in ObservedOut(c, t, rule, o, revision, now)
    ensures (StartOf(tr, o, revision, now) && tr.rule == rule) || EvictionAt(tr, now)
  {
  }

  lemma {:induction false} MatchesEmit(c: Settings, t: Table, rules: seq<PolicyRule>, o: Observation, revision: string,
      now: int, tr: Transition)
    requires tr in ObservedAllOut(c, t, rules, o, revision, now)
    ensures (StartOf(tr, o, revision, now) && tr.rule in rules) || EvictionAt(tr, now)
  {
    var n := |rules| - 1;
    if tr in ObservedAllOut(c, t, rules[..n], o, revision, now) {
      MatchesEmit(c, t, rules[..n], o, revision, now, tr);
    } else {
      MatchEmits(c, ObservedAll(c, t, rules[..n], o, revision, now), rules[n], o, revision, now, tr);
    }
  }

  lemma {:induction false} TimersEmit(c: Settings, open: seq<Record>, now: int, tr: Transition)
    requires tr in AdvancedOut(c, open, now)
    ensures tr.lifecycleTime == now && !tr.truncated
    ensures (tr.phase.Close? && tr.closeReason == Some(Idle)) || (tr.phase.Progress? && tr.closeReason.None?)
  {
    if tr !in TickedOut(c, open[0], now) {
      TimersEmit(c, open[1..], now, tr);
    }
  }

  lemma {:induction false} ClosesEmit(open: seq<Record>, now: int, reason: CloseReason, tr: Transition)
    requires tr in ClosedOut(open, now, reason) && reason != CapacityEvicted
    ensures tr.phase.Close? && tr.closeReason == Some(reason) && !tr.truncated && tr.lifecycleTime == now
  {
    if tr != Closing(open[0], now, reason) {
      ClosesEmit(open[1..], now, reason, tr);
    }
  }

  /** Why an operation emits a transition: a start is for a matching rule and names the observation's own
      flow, a close gives the operation's reason, and only a victim of the capacity is cut short. */
  predicate Explained(s: State, op: Op, tr: Transition)
    requires RulesWellFormed(s.config.rules)
  {
    match tr.phase
    case Start =>
      && op.ObserveOp? && tr.rule in s.config.rules && RuleMatches(tr.rule, op.observation)
      && StartOf(tr, op.observation, s.config.revision, op.time)
    case Progress => (op.ObserveOp? || op.TickOp?) && tr.lifecycleTime == op.time && tr.closeReason.None?
      && !tr.truncated
    case Close =>
      && (op.ObserveOp? || op.TickOp? || op.CloseAllOp? || op.ReloadOp?) && tr.lifecycleTime == op.time
      && tr.closeReason.Some? && (tr.truncated <==> tr.closeReason.value == CapacityEvicted)
      && match tr.closeReason.value
         case Idle => op.ObserveOp? || op.TickOp? || (op.CloseAllOp? && op.reason == Idle)
         case CapacityEvicted => op.ObserveOp?
         case PolicyReload => op.ReloadOp? || (op.CloseAllOp? && op.reason == PolicyReload)
         case SourceExhausted => op.CloseAllOp? && op.reason == SourceExhausted
         case Shutdown => op.CloseAllOp? && op.reason == Shutdown
  }

  lemma StepExplained(s: State, op: Op, tr: Transition)
    requires RulesWellFormed(s.config.rules) && Admissible(op) && tr in StepOut(s, op)
    ensures Explained(s, op, tr)
  {
    match op
    case ObserveOp(o, t, _) =>
      var mid := s.table.(open := Advanced(s.settings, s.table.open, t));
      if tr in AdvancedOut(s.settings, s.table.open, t) {
        TimersEmit(s.settings, s.table.open, t, tr);
      } else {
        DetectorIsExact(s.config.rules, o);
        MatchesEmit(s.settings, mid, MatchedRules(s.config, o), o, s.config.revision, t, tr);
      }
    case TickOp(t, _) => TimersEmit(s.settings, s.table.open, t, tr);
    case CloseAllOp(reason, t, _) => ClosesEmit(s.table.open, t, reason, tr);
    case ReloadOp(_, t, _) => ClosesEmit(s.table.open, t, PolicyReload, tr);
    case _ =>
  }

  /** Every transition of a run was emitted by one of its operations. */
  lemma {:induction false} EmittedBy(config: Config, ops: seq<Op>, tr: Transition) returns (k: nat)
    requires ValidRun(config, ops) && tr in Transitions(config, ops)
    ensures k < |ops| && ValidRun(config, ops[..k]) && tr in StepOut(After(config, ops[..k]), ops[k])
  {
    var n := |ops| - 1;
    if tr in StepOut(After(config, ops[..n]), ops[n]) {
      k := n;
    } else {
      k := EmittedBy(config, ops[..n], tr);
      assert ops[..n][..k] == ops[..k];
    }
  }

  /** Over every run: each transition is explained by the operation that emitted it. */
  lemma EveryTransitionExplained(config: Config, ops: seq<Op>, tr: Transition) returns (k: nat)
    requires ValidRun(config, ops) && tr in Transitions(config, ops)
    ensures k < |ops| && ValidRun(config, ops[..k]) && tr in StepOut(After(config, ops[..k]), ops[k])
    ensures Explained(After(config, ops[..k]), ops[k], tr)
  {
    k := EmittedBy(config, ops, tr);
    assert Admissible(ops[k]);
    StepExplained(After(config, ops[..k]), ops[k], tr);
  }

  // ---------------------------------------------------------------- who opened an episode

  /** An episode's id with the observation that opened it, and the rule and revision it was opened under. */
  datatype Opening = Opening(id: nat, observation: Observation, ruleId: string, revision: string)

  /** The starts among the transitions. */
  function OpeningsIn(ts: seq<Transition>, o: Observation, revision: string): seq<Opening> {
    if ts == [] then [] else
      var last := ts[|ts| - 1];
      OpeningsIn(ts[..|ts| - 1], o, revision)
      + (if last.phase.Start? then [Opening(last.episodeId, o, last.rule.id, revision)] else [])
  }

  /** Everything opened in a run. */
  function Openings(config: Config, ops: seq<Op>): seq<Opening>
    requires ValidRun(config, ops)
  {
    if ops == [] then [] else
      var front, op := ops[..|ops| - 1], ops[|ops| - 1];
      var s := After(config, front);
      Openings(config, front)
      + (if op.ObserveOp? then OpeningsIn(StepOut(s, op), op.observation, s.config.revision) else [])
  }

  lemma {:induction false} OpeningsInAppend(a: seq<Transition>, b: seq<Transition>, o: Observation, revision: string)
    ensures OpeningsIn(a + b, o, revision) == OpeningsIn(a, o, revision) + OpeningsIn(b, o, revision)
  {
    if b == [] {
      NothingAfter(a);
    } else {
      assert (a + b)[..|a + b| - 1] == a + b[..|b| - 1];
      OpeningsInAppend(a, b[..|b| - 1], o, revision);
    }
  }

  lemma {:induction false} NothingOpened(ts: seq<Transition>, o: Observation, revision: string)
    requires forall tr :: tr in ts ==> !tr.phase.Start?
    ensures OpeningsIn(ts, o, revision) == []
  {
    if ts != [] {
      NothingOpened(ts[..|ts| - 1], o, revision);
    }
  }

  /** The episode is in the list, opened for the flow its key names. */
  ghost predicate Listed(ps: seq<Opening>, e: Record) {
    exists i :: 0 <= i < |ps| && ps[i].id == e.id && Names(e.key, ps[i].observation, ps[i].ruleId, ps[i].revision)
  }

  ghost predicate Rising(ps: seq<Opening>, next: nat) {
    && (forall i, j :: 0 <= i < j < |ps| ==> ps[i].id < ps[j].id)
    && (forall i :: 0 <= i < |ps| ==> ps[i].id < next)
  }

  ghost predicate Owned(ps: seq<Opening>, t: Table) {
    Rising(ps, t.nextId) && forall e :: e in t.open ==> Listed(ps, e)
  }

  lemma {:induction false} AdvancedOwned(ps: seq<Opening>, c: Settings, open: seq<Record>, now: int)
    requires forall e :: e in open ==> Listed(ps, e)
    ensures forall e :: e in Advanced(c, open, now) ==> Listed(ps, e)
  {
    if open != [] {
      AdvancedOwned(ps, c, open[1..], now);
      assert Listed(ps, open[0]);
      var i :| 0 <= i < |ps| && ps[i].id == open[0].id
               && Names(open[0].key, ps[i].observation, ps[i].ruleId, ps[i].revision);
      assert Listed(ps, Ticked(c, open[0], now));
    }
  }

  lemma ListedMore(ps: seq<Opening>, p: Opening, e: Record)
    requires Listed(ps, e)
    ensures Listed(ps + [p], e)
  {
    var i :| 0 <= i < |ps| && ps[i].id == e.id && Names(e.key, ps[i].observation, ps[i].ruleId, ps[i].revision);
    assert (ps + [p])[i] == ps[i];
  }

  lemma MatchOwned(ps: seq<Opening>, c: Settings, t: Table, rule: PolicyRule, o: Observation, revision: string,
      now: int)
    requires Owned(ps, t)
    ensures Owned(ps + OpeningsIn(ObservedOut(c, t, rule, o, revision, now), o, revision),
                  Observed(c, t, rule, o, revision, now))
  {
    var i, out, after := Find(t.open, KeyOf(rule, o, revision)), ObservedOut(c, t, rule, o, revision, now),
      Observed(c, t, rule, o, revision, now);
    if i < |t.open| {
      NothingAfter(ps);
      JoinOwned(ps, t, i, o, now, after);
    } else {
      StartOpens(c, t, rule, o, revision, now);
      StartOwned(ps, c, t, rule, o, revision, now, after);
    }
  }

  lemma JoinOwned(ps: seq<Opening>, t: Table, i: nat, o: Observation, now: int, after: Table)
    requires Owned(ps, t) && i < |t.open|
    requires after == t.(open := RemoveAt(t.open, i) + [Updated(t.open[i], o, now)])
    ensures Owned(ps, after)
  {
    forall e | e in after.open ensures Listed(ps, e) {
      if e in RemoveAt(t.open, i) {
        assert e in t.open;
      } else {
        assert Listed(ps, t.open[i]);
        var k :| 0 <= k < |ps| && ps[k].id == t.open[i].id
                 && Names(t.open[i].key, ps[k].observation, ps[k].ruleId, ps[k].revision);
        assert ps[k].id == e.id;
      }
    }
  }

  lemma StartOpens(c: Settings, t: Table, rule: PolicyRule, o: Observation, revision: string, now: int)
    requires Find(t.open, KeyOf(rule, o, revision)) == |t.open|
    ensures OpeningsIn(ObservedOut(c, t, rule, o, revision, now), o, revision)
      == [Opening(t.nextId, o, rule.id, revision)]
  {
    var start := Report(Opened(t.nextId, KeyOf(rule, o, revision), rule, o, now), Start, now, false, None);
    var early := if |t.open| >= c.capacity && t.open != [] then [Closing(t.open[0], now, CapacityEvicted)] else [];
    OpeningsInAppend(early, [start], o, revision);
    NothingOpened(early, o, revision);
    assert [start][..0] == [];
    assert OpeningsIn([start], o, revision) == [Opening(t.nextId, o, rule.id, revision)];
  }

  lemma StartOwned(ps: seq<Opening>, c: Settings, t: Table, rule: PolicyRule, o: Observation, revision: string,
      now: int, after: Table)
    requires Owned(ps, t) && Find(t.open, KeyOf(rule, o, revision)) == |t.open|
    requires after == Observed(c, t, rule, o, revision, now)
    ensures Owned(ps + [Opening(t.nextId, o, rule.id, revision)], after)
  {
    var p := Opening(t.nextId, o, rule.id, revision);
    var qs := ps + [p];
    forall e | e in after.open ensures Listed(qs, e) {
      if e in t.open {
        ListedMore(ps, p, e);
      } else {
        assert e == Opened(t.nextId, KeyOf(rule, o, revision), rule, o, now);
        assert qs[|ps|] == p && p.id == e.id && Names(e.key, o, rule.id, revision);
      }
    }
  }

  lemma {:induction false} MatchesOwned(ps: seq<Opening>, c: Settings, t: Table, rules: seq<PolicyRule>, o: Observation,
      revision: string, now: int)
    requires Owned(ps, t)
    ensures Owned(ps + OpeningsIn(ObservedAllOut(c, t, rules, o, revision, now), o, revision),
                  ObservedAll(c, t, rules, o, revision, now))
  {
    if rules == [] {
      NothingAfter(ps);
    } else {
      var n := |rules| - 1;
      var mid, out := ObservedAll(c, t, rules[..n], o, revision, now),
        ObservedAllOut(c, t, rules[..n], o, revision, now);
      var more := ObservedOut(c, mid, rules[n], o, revision, now);
      MatchesOwned(ps, c, t, rules[..n], o, revision, now);
      MatchOwned(ps + OpeningsIn(out, o, revision), c, mid, rules[n], o, revision, now);
      OpeningsInAppend(out, more, o, revision);
      Appended(ps, OpeningsIn(out, o, revision), OpeningsIn(more, o, revision), OpeningsIn(out + more, o, revision));
    }
  }

  /** The table when an observation arrives and the timers have run. */
  function Arrived(s: State, now: int): Table { s.table.(open := Advanced(s.settings, s.table.open, now)) }

  lemma {:induction false} TimersOpenNothing(s: State, now: int, o: Observation, revision: string)
    ensures OpeningsIn(AdvancedOut(s.settings, s.table.open, now), o, revision) == []
  {
    forall tr | tr in AdvancedOut(s.settings, s.table.open, now) ensures !tr.phase.Start? {
      TimersEmit(s.settings, s.table.open, now, tr);
    }
    NothingOpened(AdvancedOut(s.settings, s.table.open, now), o, revision);
  }

  lemma StepOwned(ps: seq<Opening>, s: State, op: Op)
    requires RulesWellFormed(s.config.rules) && Admissible(op) && Owned(ps, s.table)
    ensures Owned(ps + (if op.ObserveOp? then OpeningsIn(StepOut(s, op), op.observation, s.config.revision) else []),
                  StepTable(s, op))
  {
    NothingAfter(ps);
    if op.ObserveOp? || op.TickOp? {
      AdvancedOwned(ps, s.settings, s.table.open, op.time);
    }
    if op.ObserveOp? {
      var o, v, mid := op.observation, s.config.revision, Arrived(s, op.time);
      var rules := MatchedRules(s.config, o);
      var early, out := AdvancedOut(s.settings, s.table.open, op.time),
        ObservedAllOut(s.settings, mid, rules, o, v, op.time);
      MatchesOwned(ps, s.settings, mid, rules, o, v, op.time);
      TimersOpenNothing(s, op.time, o, v);
      OpeningsInAppend(early, out, o, v);
      NothingBefore(OpeningsIn(out, o, v));
    }
  }

  lemma {:induction false} RunOwned(config: Config, ops: seq<Op>)
    requires ValidRun(config, ops)
    ensures Owned(Openings(config, ops), After(config, ops).table)
  {
    if ops != [] {
      var front, op := ops[..|ops| - 1], ops[|ops| - 1];
      RunOwned(config, front);
      assert Admissible(op);
      StepOwned(Openings(config, front), After(config, front), op);
    }
  }

  // ---------------------------------------------------------------- which match joins which episode

  /** The episode was opened by an observation of the same flow, under the same rule and revision. */
  ghost predicate OpenedAlike(ps: seq<Opening>, id: nat, o: Observation, ruleId: string, revision: string) {
    exists i :: 0 <= i < |ps| && ps[i].id == id && ps[i].ruleId == ruleId && ps[i].revision == revision
                && Alike(ps[i].observation, o)
  }

  /** The match is counted in the episode `e`. */
  ghost predicate Joined(after: Table, e: Record) {
    exists f :: f in after.open && f.id == e.id && f.count == e.count + 1
  }

  lemma NamedAlike(ps: seq<Opening>, next: nat, e: Record, o: Observation, ruleId: string, revision: string)
    requires Rising(ps, next) && Listed(ps, e)
    ensures OpenedAlike(ps, e.id, o, ruleId, revision) <==> Names(e.key, o, ruleId, revision)
  {
    var i :| 0 <= i < |ps| && ps[i].id == e.id && Names(e.key, ps[i].observation, ps[i].ruleId, ps[i].revision);
    assert forall j :: 0 <= j < |ps| && ps[j].id == e.id ==> j == i;
  }

  lemma NamesIsKey(key: EpisodeKey, rule: PolicyRule, o: Observation, revision: string)
    ensures Names(key, o, rule.id, revision) <==> key == KeyOf(rule, o, revision)
  {
  }

  /** The match of one rule, under a revision, that takes the table to `after`. */
  ghost predicate JoinsRight(ps: seq<Opening>, t: Table, after: Table, o: Observation, ruleId: string,
      revision: string) {
    && (forall e :: e in t.open ==> (Joined(after, e) <==> OpenedAlike(ps, e.id, o, ruleId, revision)))
    && after.nextId == t.nextId
      + (if exists e :: e in t.open && OpenedAlike(ps, e.id, o, ruleId, revision) then 0 else 1)
  }

  /** One match: it joins exactly the open episode opened alike, or starts a new one if there is none. */
  lemma MatchJoins(ps: seq<Opening>, c: Settings, t: Table, rule: PolicyRule, o: Observation, revision: string,
      now: int)
    requires Owned(ps, t) && DistinctIds(t.open) && DistinctKeys(t.open)
    requires forall e :: e in t.open ==> e.id < t.nextId
    ensures JoinsRight(ps, t, Observed(c, t, rule, o, revision, now), o, rule.id, revision)
  {
    forall e | e in t.open
      ensures OpenedAlike(ps, e.id, o, rule.id, revision) <==> e.key == KeyOf(rule, o, revision) {
      NamedAlike(ps, t.nextId, e, o, rule.id, revision);
      NamesIsKey(e.key, rule, o, revision);
    }
    var after, k := Observed(c, t, rule, o, revision, now), Find(t.open, KeyOf(rule, o, revision));
    forall e | e in t.open ensures Joined(after, e) <==> e.key == KeyOf(rule, o, revision) {
      MatchCounts(c, t, rule, o, revision, now, e);
    }
    if k < |t.open| {
      assert t.open[k] in t.open;
    } else {
      forall e | e in t.open ensures e.key != KeyOf(rule, o, revision) {
        var j :| 0 <= j < |t.open| && t.open[j] == e;
      }
    }
  }

  lemma MatchCounts(c: Settings, t: Table, rule: PolicyRule, o: Observation, revision: string, now: int, e: Record)
    requires DistinctIds(t.open) && DistinctKeys(t.open) && e in t.open && forall f :: f in t.open ==> f.id < t.nextId
    ensures Joined(Observed(c, t, rule, o, revision, now), e) <==> e.key == KeyOf(rule, o, revision)
  {
    var after, k := Observed(c, t, rule, o, revision, now), Find(t.open, KeyOf(rule, o, revision));
    var j :| 0 <= j < |t.open| && t.open[j] == e;
    if k < |t.open| && j == k {
      var f := Updated(t.open[k], o, now);
      assert after.open[|after.open| - 1] == f && f in after.open;
    } else {
      forall f | f in after.open && f.id == e.id ensures f.count == e.count {
        if f in t.open {
          var i :| 0 <= i < |t.open| && t.open[i] == f;
        }
      }
    }
  }

  // ---------------------------------------------------------------- whole runs

  /** The table once the first `n` matching rules of an observation have been tracked. */
  function Midway(s: State, o: Observation, now: int, n: nat): Table
    requires RulesWellFormed(s.config.rules) && n <= |MatchedRules(s.config, o)|
  {
    ObservedAll(s.settings, Arrived(s, now), MatchedRules(s.config, o)[..n], o, s.config.revision, now)
  }

  /** Everything opened in the run and then by the first `n` matching rules. */
  function OpeningsMidway(config: Config, ops: seq<Op>, o: Observation, now: int, n: nat): seq<Opening>
    requires ValidRun(config, ops) && n <= |MatchedRules(After(config, ops).config, o)|
  {
    var s := After(config, ops);
    Openings(config, ops)
    + OpeningsIn(ObservedAllOut(s.settings, Arrived(s, now), MatchedRules(s.config, o)[..n], o, s.config.revision, now),
                 o, s.config.revision)
  }

  lemma {:induction false} MatchesKeepKeys(c: Settings, t: Table, rules: seq<PolicyRule>, o: Observation,
      revision: string, now: int)
    requires DistinctKeys(t.open)
    ensures DistinctKeys(ObservedAll(c, t, rules, o, revision, now).open)
  {
    if rules != [] {
      var n := |rules| - 1;
      MatchesKeepKeys(c, t, rules[..n], o, revision, now);
      ObservedKeys(c, ObservedAll(c, t, rules[..n], o, revision, now), rules[n], o, revision, now);
    }
  }

  lemma MidwayDistinct(config: Config, ops: seq<Op>, o: Observation, now: int, n: nat)
    requires ValidRun(config, ops) && config.progress >= 0 && n <= |MatchedRules(After(config, ops).config, o)|
    ensures var mid := Midway(After(config, ops), o, now, n);
      && Owned(OpeningsMidway(config, ops, o, now, n), mid)
      && DistinctIds(mid.open) && DistinctKeys(mid.open) && forall e :: e in mid.open ==> e.id < mid.nextId
  {
    var s := After(config, ops);
    var rules, t, ts := MatchedRules(s.config, o)[..n], Arrived(s, now), Transitions(config, ops);
    EpisodeLives(config, ops);
    NothingBefore(s.table.open);
    NothingBefore(t.open);
    AdvancedKeepsInv(ts, s.settings, [], s.table.open, s.table.nextId, now);
    ObservedAllKeepsInv(ts + AdvancedOut(s.settings, s.table.open, now), s.settings, t, rules, o, s.config.revision,
      now);
    OpenEpisodesBounded(config, ops);
    AdvancedKeys(s.settings, s.table.open, now);
    MatchesKeepKeys(s.settings, t, rules, o, s.config.revision, now);
    RunOwned(config, ops);
    AdvancedOwned(Openings(config, ops), s.settings, s.table.open, now);
    MatchesOwned(Openings(config, ops), s.settings, t, rules, o, s.config.revision, now);
  }

  lemma MidwayNext(s: State, o: Observation, now: int, n: nat)
    requires RulesWellFormed(s.config.rules) && n < |MatchedRules(s.config, o)|
    ensures Midway(s, o, now, n + 1)
      == Observed(s.settings, Midway(s, o, now, n), MatchedRules(s.config, o)[n], o, s.config.revision, now)
  {
    var rules := MatchedRules(s.config, o);
    assert rules[..n + 1][..n] == rules[..n];
  }

  /** Over every run, whatever rules match an observation: a match is counted in an open episode exactly
      when that episode was opened by an observation with the same addresses, protocol, ports, ICMP type
      and code, presence flags and reason, under a rule of the same id and the same revision; it opens
      one exactly when there is no such episode. */
  lemma JoinsExactly(config: Config, ops: seq<Op>, o: Observation, now: int, n: nat)
    requires ValidRun(config, ops) && config.progress >= 0 && n < |MatchedRules(After(config, ops).config, o)|
    ensures var s := After(config, ops);
      JoinsRight(OpeningsMidway(config, ops, o, now, n), Midway(s, o, now, n), Midway(s, o, now, n + 1), o,
                 MatchedRules(s.config, o)[n].id, s.config.revision)
  {
    var s := After(config, ops);
    MidwayDistinct(config, ops, o, now, n);
    MidwayNext(s, o, now, n);
    MatchJoins(OpeningsMidway(config, ops, o, now, n), s.settings, Midway(s, o, now, n), MatchedRules(s.config, o)[n],
      o,
      s.config.revision, now);
  }
}
