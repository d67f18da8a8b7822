/** The grammar of the evidence stream over any run: episode lives, revisions, sequence numbers. */
module TraceGrammar {
  import opened Basics
  import opened Models
  import opened Evidence
  import opened Policy
  import opened Episodes
  import opened Processing
  import opened Runs

  // ---------------------------------------------------------------- episode lives

  /** `a` comes before `b` in the life of one episode. */
  predicate Follows(a: Transition, b: Transition, progress: int) {
    && !a.phase.Close?
    && !b.phase.Start?
    && a.key == b.key && a.rule == b.rule
    && a.observationCount <= b.observationCount
    && (b.phase.Progress? ==> b.lifecycleTime - a.lifecycleTime >= progress)
  }

  ghost predicate StartedBefore(ts: seq<Transition>, j: nat, id: nat) {
    exists i :: 0 <= i < j && i < |ts| && ts[i].episodeId == id && ts[i].phase.Start?
  }

  /** Every episode id has one start, then progresses at least `progress` apart with counts that
      never shrink, then at most one close, and nothing after it. */
  ghost predicate Lives(ts: seq<Transition>, progress: int) {
    && (forall i, j :: 0 <= i < j < |ts| && ts[i].episodeId == ts[j].episodeId ==> Follows(ts[i], ts[j], progress))
    && (forall j :: 0 <= j < |ts| && !ts[j].phase.Start? ==> StartedBefore(ts, j, ts[j].episodeId))
  }

  /** An emitted transition fits an episode that is still open. */
  predicate Precedes(t: Transition, e: Record) {
    && !t.phase.Close?
    && t.key == e.key && t.rule == e.rule
    && t.observationCount <= e.count
    && t.lifecycleTime <= e.lastProgress
  }

  ghost predicate Linked(ts: seq<Transition>, open: seq<Record>) {
    forall i, k :: 0 <= i < |ts| && 0 <= k < |open| && ts[i].episodeId == open[k].id ==> Precedes(ts[i], open[k])
  }

  ghost predicate DistinctIds(open: seq<Record>) {
    forall j, k :: 0 <= j < k < |open| ==> open[j].id != open[k].id
  }

  ghost predicate Begun(ts: seq<Transition>, open: seq<Record>) {
    forall k :: 0 <= k < |open| ==> StartedBefore(ts, |ts|, open[k].id)
  }

  ghost predicate BelowId(ts: seq<Transition>, open: seq<Record>, next: nat) {
    && (forall i :: 0 <= i < |ts| ==> ts[i].episodeId < next)
    && (forall k :: 0 <= k < |open| ==> open[k].id < next)
  }

  ghost predicate Inv(ts: seq<Transition>, open: seq<Record>, next: nat, progress: int) {
    && Lives(ts, progress) && Linked(ts, open) && DistinctIds(open) && Begun(ts, open) && BelowId(ts, open, next)
  }

  /** Appending a transition of an open episode keeps every life well formed. */
  lemma LivesExtend(ts: seq<Transition>, t: Transition, e: Record, progress: int)
    requires Lives(ts, progress)
    requires forall i :: 0 <= i < |ts| && ts[i].episodeId == t.episodeId ==> Precedes(ts[i], e)
    requires t.episodeId == e.id && StartedBefore(ts, |ts|, e.id)
    requires !t.phase.Start? && t.key == e.key && t.rule == e.rule && t.observationCount == e.count
    requires t.phase.Progress? ==> t.lifecycleTime - e.lastProgress >= progress
    ensures Lives(ts + [t], progress)
  {
    var all := ts + [t];
    forall j | 0 <= j < |all| && !all[j].phase.Start? ensures StartedBefore(all, j, all[j].episodeId) {
      var i :| 0 <= i < j && i < |ts| && ts[i].episodeId == all[j].episodeId && ts[i].phase.Start?;
      assert all[i] == ts[i];
    }
  }

  lemma StartedMono(ts: seq<Transition>, more: seq<Transition>, id: nat)
    requires StartedBefore(ts, |ts|, id)
    ensures StartedBefore(ts + more, |ts + more|, id)
  {
    var i :| 0 <= i < |ts| && ts[i].episodeId == id && ts[i].phase.Start?;
    assert (ts + more)[i] == ts[i];
  }

  lemma BegunMono(ts: seq<Transition>, more: seq<Transition>, open: seq<Record>)
    requires Begun(ts, open)
    ensures Begun(ts + more, open)
  {
    forall k | 0 <= k < |open| ensures StartedBefore(ts + more, |ts + more|, open[k].id) {
      StartedMono(ts, more, open[k].id);
    }
  }

  lemma CloseStep(ts: seq<Transition>, open: seq<Record>, k: nat, next: nat, progress: int, now: int,
      reason: CloseReason)
    requires Inv(ts, open, next, progress) && k < |open|
    ensures Inv(ts + [Closing(open[k], now, reason)], RemoveAt(open, k), next, progress)
  {
    var t := Closing(open[k], now, reason);
    LivesExtend(ts, t, open[k], progress);
    BegunMono(ts, [t], open);
    var rest := RemoveAt(open, k);
    forall i | 0 <= i < |rest| ensures exists j :: 0 <= j < |open| && j != k && rest[i] == open[j] {
      assert rest[i] == open[if i < k then i else i + 1];
    }
  }

  lemma ProgressStep(ts: seq<Transition>, open: seq<Record>, k: nat, next: nat, progress: int, now: int)
    requires Inv(ts, open, next, progress) && k < |open| && progress >= 0
    requires now - open[k].lastProgress >= progress
    ensures Inv(ts + [Report(open[k], Progress, now, false, None)], open[k := open[k].(lastProgress := now)], next,
      progress)
  {
    var t := Report(open[k], Progress, now, false, None);
    LivesExtend(ts, t, open[k], progress);
    BegunMono(ts, [t], open);
  }

  lemma MatchStep(ts: seq<Transition>, open: seq<Record>, k: nat, next: nat, progress: int, o: Observation, now: int)
    requires Inv(ts, open, next, progress) && k < |open|
    ensures Inv(ts, RemoveAt(open, k) + [Updated(open[k], o, now)], next, progress)
  {
    var after := RemoveAt(open, k) + [Updated(open[k], o, now)];
    forall i | 0 <= i < |after| ensures
      var j := if i < k then i else if i < |open| - 1 then i + 1 else k;
      after[i] == if j == k then Updated(open[k], o, now) else open[j]
    {
    }
  }

  lemma StartStep(ts: seq<Transition>, open: seq<Record>, e: Record, progress: int)
    requires Inv(ts, open, e.id, progress) && e.lastProgress == e.lastLifecycle
    ensures Inv(ts + [Report(e, Start, e.lastLifecycle, false, None)], open + [e], e.id + 1, progress)
  {
    var t := Report(e, Start, e.lastLifecycle, false, None);
    var all := ts + [t];
    BegunMono(ts, [t], open);
    assert all[|ts|] == t;
    forall j | 0 <= j < |all| && !all[j].phase.Start? ensures StartedBefore(all, j, all[j].episodeId) {
      var i :| 0 <= i < j && i < |ts| && ts[i].episodeId == all[j].episodeId && ts[i].phase.Start?;
      assert all[i] == ts[i];
    }
    assert StartedBefore(all, |all|, e.id);
  }

  lemma ObservedKeepsInv(ts: seq<Transition>, c: Settings, t: Table, rule: PolicyRule, o: Observation,
      revision: string, now: int)
    requires Inv(ts, t.open, t.nextId, c.progress)
    ensures var after := Observed(c, t, rule, o, revision, now);
      Inv(ts + ObservedOut(c, t, rule, o, revision, now), after.open, after.nextId, c.progress)
  {
    var key := KeyOf(rule, o, revision);
    var k := Find(t.open, key);
    var out := ObservedOut(c, t, rule, o, revision, now);
    if k < |t.open| {
      MatchStep(ts, t.open, k, t.nextId, c.progress, o, now);
      NothingAfter(ts);
    } else {
      var e := Opened(t.nextId, key, rule, o, now);
      if |t.open| >= c.capacity && t.open != [] {
        var close := Closing(t.open[0], now, CapacityEvicted);
        CloseStep(ts, t.open, 0, t.nextId, c.progress, now, CapacityEvicted);
        assert RemoveAt(t.open, 0) == t.open[1..];
        StartStep(ts + [close], t.open[1..], e, c.progress);
        assert ts + out == ts + [close] + [Report(e, Start, now, false, None)];
      } else {
        StartStep(ts, t.open, e, c.progress);
        assert out == [Report(e, Start, now, false, None)];
      }
    }
  }

  lemma {:induction false} ObservedAllKeepsInv(ts: seq<Transition>, c: Settings, t: Table, rules: seq<PolicyRule>,
      o: Observation, revision: string, now: int)
    requires Inv(ts, t.open, t.nextId, c.progress)
    ensures var after := ObservedAll(c, t, rules, o, revision, now);
      Inv(ts + ObservedAllOut(c, t, rules, o, revision, now), after.open, after.nextId, c.progress)
  {
    if rules == [] {
      NothingAfter(ts);
    } else {
      var n := |rules| - 1;
      var mid, out := ObservedAll(c, t, rules[..n], o, revision, now),
        ObservedAllOut(c, t, rules[..n], o, revision, now);
      ObservedAllKeepsInv(ts, c, t, rules[..n], o, revision, now);
      ObservedKeepsInv(ts + out, c, mid, rules[n], o, revision, now);
      Appended(ts, out, ObservedOut(c, mid, rules[n], o, revision, now), ObservedAllOut(c, t, rules, o, revision, now));
    }
  }

  lemma Appended<T>(ts: seq<T>, a: seq<T>, b: seq<T>, all: seq<T>)
    requires all == a + b
    ensures ts + a + b == ts + all
  {
  }

  lemma SpliceAt<T>(done: seq<T>, rest: seq<T>, x: T, tail: seq<T>)
    requires rest != []
    ensures (done + rest)[|done|] == rest[0]
    ensures RemoveAt(done + rest, |done|) == done + rest[1..]
    ensures (done + rest)[|done| := x] == done + [x] + rest[1..]
    ensures done + ([x] + tail) == done + [x] + tail
    ensures [] + tail == tail
  {
  }

  /** One visit of the timers to the open episode at `k`. */
  lemma VisitKeepsInv(ts: seq<Transition>, c: Settings, open: seq<Record>, k: nat, next: nat, now: int)
    requires Inv(ts, open, next, c.progress) && c.progress >= 0 && k < |open|
    ensures Inv(ts + TickedOut(c, open[k], now),
                if IdleAt(c, open[k], now) then RemoveAt(open, k) else open[k := Ticked(c, open[k], now)],
                next, c.progress)
  {
    if IdleAt(c, open[k], now) {
      CloseStep(ts, open, k, next, c.progress, now, Idle);
    } else if ProgressAt(c, open[k], now) {
      ProgressStep(ts, open, k, next, c.progress, now);
    } else {
      assert ts + [] == ts && open[k := open[k]] == open;
    }
  }

  /** The timers visit the open episodes one by one: `done` were visited, `rest` were not. */
  lemma {:induction false} AdvancedKeepsInv(ts: seq<Transition>, c: Settings, done: seq<Record>, rest: seq<Record>,
      next: nat, now: int)
    requires Inv(ts, done + rest, next, c.progress) && c.progress >= 0
    ensures Inv(ts + AdvancedOut(c, rest, now), done + Advanced(c, rest, now), next, c.progress)
    decreases |rest|
  {
    if rest == [] {
      NothingAfter(ts);
    } else {
      var e, out := rest[0], TickedOut(c, rest[0], now);
      SpliceAt(done, rest, Ticked(c, e, now), Advanced(c, rest[1..], now));
      Appended(ts, out, AdvancedOut(c, rest[1..], now), AdvancedOut(c, rest, now));
      VisitKeepsInv(ts, c, done + rest, |done|, next, now);
      AdvancedKeepsInv(ts + out, c, if IdleAt(c, e, now) then done else done + [Ticked(c, e, now)], rest[1..], next,
        now);
    }
  }

  lemma {:induction false} ClosedKeepsInv(ts: seq<Transition>, open: seq<Record>, next: nat, progress: int, now: int,
      reason: CloseReason)
    requires Inv(ts, open, next, progress)
    ensures Inv(ts + ClosedOut(open, now, reason), [], next, progress)
    decreases |open|
  {
    if open == [] {
      NothingAfter(ts);
    } else {
      var t := Closing(open[0], now, reason);
      CloseStep(ts, open, 0, next, progress, now, reason);
      RemoveFirst(open);
      Appended(ts, [t], ClosedOut(open[1..], now, reason), ClosedOut(open, now, reason));
      ClosedKeepsInv(ts + [t], open[1..], next, progress, now, reason);
    }
  }

  lemma RemoveFirst<T>(s: seq<T>)
    requires s != []
    ensures RemoveAt(s, 0) == s[1..]
  {
  }

  lemma StepKeepsInv(ts: seq<Transition>, s: State, op: Op)
    requires RulesWellFormed(s.config.rules) && s.settings.progress >= 0
    requires Inv(ts, s.table.open, s.table.nextId, s.settings.progress)
    ensures Inv(ts + StepOut(s, op), StepTable(s, op).open, StepTable(s, op).nextId, s.settings.progress)
  {
    match op
    case ObserveOp(o, t, _) =>
      var mid := s.table.(open := Advanced(s.settings, s.table.open, t));
      var early := AdvancedOut(s.settings, s.table.open, t);
      NothingBefore(s.table.open);
      NothingBefore(mid.open);
      AdvancedKeepsInv(ts, s.settings, [], s.table.open, s.table.nextId, t);
      ObservedAllKeepsInv(ts + early, s.settings, mid, MatchedRules(s.config, o), o, s.config.revision, t);
      Appended(ts, early, ObservedAllOut(s.settings, mid, MatchedRules(s.config, o), o, s.config.revision, t),
        StepOut(s, op));
    case TickOp(t, _) =>
      NothingBefore(s.table.open);
      NothingBefore(Advanced(s.settings, s.table.open, t));
      AdvancedKeepsInv(ts, s.settings, [], s.table.open, s.table.nextId, t);
    case CloseAllOp(reason, t, _) => ClosedKeepsInv(ts, s.table.open, s.table.nextId, s.settings.progress, t, reason);
    case ReloadOp(config, t, _) =>
      ClosedKeepsInv(ts, s.table.open, s.table.nextId, s.settings.progress, t, PolicyReload);
      NothingAfter(ts);
    case ReloadFailedOp(_, _, _) => NothingAfter(ts);
    case SystemOp(_, _, _, _) => NothingAfter(ts);
  }

  /** Over any mix of observations, ticks, system events, reloads and closes, in any order and
      with any clock readings, the emitted transitions form well-formed lives. */
  lemma {:induction false} EpisodeLives(config: Config, ops: seq<Op>)
    requires ValidRun(config, ops) && config.progress >= 0
    ensures Lives(Transitions(config, ops), config.progress)
    ensures var t := After(config, ops).table;
      Inv(Transitions(config, ops), t.open, t.nextId, config.progress)
  {
    if ops != [] {
      var front, op := ops[..|ops| - 1], ops[|ops| - 1];
      EpisodeLives(config, front);
      StepKeepsInv(Transitions(config, front), After(config, front), op);
    }
  }

  // ---------------------------------------------------------------- revisions

  /** The revision in force after a trace: that of the last successful reload in it. */
  function RevisionAfter(trace: seq<Envelope>, initial: string): string {
    if trace == [] then initial else
      var p := trace[|trace| - 1].payload;
      var before := RevisionAfter(trace[..|trace| - 1], initial);
      if p.System? && p.name == PolicyReloadSuccess then TextAt(p.fields, "new_revision", before) else before
  }

  ghost predicate RevisionsFollow(trace: seq<Envelope>, initial: string) {
    trace == [] ||
    var front, last := trace[..|trace| - 1], trace[|trace| - 1];
    RevisionsFollow(front, initial) && (last.payload.Episode? ==> last.policyRevision == RevisionAfter(front, initial))
  }

  /** Reload events come from `reload` alone. */
  predicate NoForgedReload(ops: seq<Op>) {
    forall op :: op in ops ==> (op.SystemOp? ==> op.name != PolicyReloadSuccess)
  }

  ghost predicate AllOfRevision(open: seq<Record>, revision: string) {
    forall e :: e in open ==> e.key.policyRevision == revision
  }

  predicate OutOfRevision(ts: seq<Transition>, revision: string) {
    forall t :: t in ts ==> t.key.policyRevision == revision
  }

  lemma {:induction false} AdvancedRevision(c: Settings, open: seq<Record>, now: int, revision: string)
    requires AllOfRevision(open, revision)
    ensures AllOfRevision(Advanced(c, open, now), revision)
    ensures OutOfRevision(AdvancedOut(c, open, now), revision)
  {
    if open != [] {
      AdvancedRevision(c, open[1..], now, revision);
    }
  }

  lemma {:induction false} ClosedRevision(open: seq<Record>, now: int, reason: CloseReason, revision: string)
    requires AllOfRevision(open, revision)
    ensures OutOfRevision(ClosedOut(open, now, reason), revision)
  {
    if open != [] {
      ClosedRevision(open[1..], now, reason, revision);
    }
  }

  lemma {:induction false} ObservedAllRevision(c: Settings, t: Table, rules: seq<PolicyRule>, o: Observation,
      revision: string, now: int)
    requires AllOfRevision(t.open, revision)
    ensures AllOfRevision(ObservedAll(c, t, rules, o, revision, now).open, revision)
    ensures OutOfRevision(ObservedAllOut(c, t, rules, o, revision, now), revision)
  {
    if rules != [] {
      var n := |rules| - 1;
      ObservedAllRevision(c, t, rules[..n], o, revision, now);
    }
  }

  lemma StepRevision(s: State, op: Op)
    requires RulesWellFormed(s.config.rules) && AllOfRevision(s.table.open, s.config.revision)
    ensures AllOfRevision(StepTable(s, op).open, StepConfig(s, op).revision)
    ensures OutOfRevision(StepOut(s, op), s.config.revision)
  {
    match op
    case ObserveOp(o, t, _) =>
      var mid := s.table.(open := Advanced(s.settings, s.table.open, t));
      AdvancedRevision(s.settings, s.table.open, t, s.config.revision);
      ObservedAllRevision(s.settings, mid, MatchedRules(s.config, o), o, s.config.revision, t);
    case TickOp(t, _) => AdvancedRevision(s.settings, s.table.open, t, s.config.revision);
    case CloseAllOp(reason, t, _) => ClosedRevision(s.table.open, t, reason, s.config.revision);
    case ReloadOp(_, t, _) => ClosedRevision(s.table.open, t, PolicyReload, s.config.revision);
    case ReloadFailedOp(_, _, _) =>
    case SystemOp(_, _, _, _) =>
  }

  lemma WrapSnoc(ts: seq<Transition>, sequence: nat, at: int)
    requires ts != []
    ensures var n := |ts| - 1;
      WrapAll(ts, sequence, at) == WrapAll(ts[..n], sequence, at) + [Wrapped(ts[n], sequence + n, at)]
  {
  }

  /** The trace respects revisions and ends under `revision`. */
  ghost predicate Under(trace: seq<Envelope>, initial: string, revision: string) {
    (RevisionsFollow(trace, initial) && RevisionAfter(trace, initial) == revision) == true
  }

  function NextRevision(e: Envelope, revision: string): string {
    if e.payload.System? && e.payload.name == PolicyReloadSuccess
    then TextAt(e.payload.fields, "new_revision", revision) else revision
  }

  lemma FollowOne(trace: seq<Envelope>, e: Envelope, all: seq<Envelope>, initial: string, revision: string)
    requires Under(trace, initial, revision) && all == trace + [e]
    requires e.payload.Episode? ==> e.policyRevision == revision
    ensures Under(all, initial, NextRevision(e, revision))
  {
    assert all[..|all| - 1] == trace && all[|all| - 1] == e;
  }

  lemma {:induction false} WrapKeepsRevision(trace: seq<Envelope>, ts: seq<Transition>, sequence: nat, at: int,
      all: seq<Envelope>,
                                             initial: string, revision: string)
    requires Under(trace, initial, revision) && OutOfRevision(ts, revision)
    requires all == trace + WrapAll(ts, sequence, at)
    ensures Under(all, initial, revision)
  {
    if ts == [] {
      NothingAfter(trace);
    } else {
      var n := |ts| - 1;
      var mid, last := trace + WrapAll(ts[..n], sequence, at), Wrapped(ts[n], sequence + n, at);
      assert ts[n] in ts;
      WrapKeepsRevision(trace, ts[..n], sequence, at, mid, initial, revision);
      WrapSnoc(ts, sequence, at);
      Appended(trace, WrapAll(ts[..n], sequence, at), [last], WrapAll(ts, sequence, at));
      FollowOne(mid, last, all, initial, revision);
    }
  }

  lemma StepEnvelopesRevision(trace: seq<Envelope>, s: State, op: Op, all: seq<Envelope>, initial: string)
    requires RulesWellFormed(s.config.rules) && AllOfRevision(s.table.open, s.config.revision)
    requires op.SystemOp? ==> op.name != PolicyReloadSuccess
    requires Under(trace, initial, s.config.revision) && all == trace + StepEnvelopes(s, op)
    ensures Under(all, initial, StepConfig(s, op).revision)
  {
    StepRevision(s, op);
    var ts, next := StepOut(s, op), StepConfig(s, op).revision;
    var more := EventEnvelopes(StepEvent(s, op), s.nextSequence + |ts|, op.at, next);
    EventRevision(s, op, more, s.nextSequence + |ts|);
    EnvelopesOf(s, op, ts, StepEvent(s, op), next);
    AddedKeepsRevision(trace, ts, s.nextSequence, op.at, more, all, initial, s.config.revision, next);
  }

  /** Episode envelopes of the revision in force, then what leads to the next one. */
  lemma AddedKeepsRevision(trace: seq<Envelope>, ts: seq<Transition>, sequence: nat, at: int, more: seq<Envelope>,
      all: seq<Envelope>, initial: string, revision: string, next: string)
    requires Under(trace, initial, revision) && OutOfRevision(ts, revision) && Leads(more, revision, next)
    requires all == trace + (WrapAll(ts, sequence, at) + more)
    ensures Under(all, initial, next)
  {
    var wrapped := WrapAll(ts, sequence, at);
    WrapKeepsRevision(trace, ts, sequence, at, trace + wrapped, initial, revision);
    LeadingKeepsRevision(trace + wrapped, more, initial, revision, next);
    Appended(trace, wrapped, more, wrapped + more);
  }

  /** Only the event of a reload that takes effect changes the revision in force, to the new one. */
  lemma EventRevision(s: State, op: Op, more: seq<Envelope>, sequence: nat)
    requires op.SystemOp? ==> op.name != PolicyReloadSuccess
    requires more == EventEnvelopes(StepEvent(s, op), sequence, op.at, StepConfig(s, op).revision)
    ensures Leads(more, s.config.revision, StepConfig(s, op).revision)
  {
    if op.ReloadOp? {
      NewRevisionFound(s.config.revision, op.config.revision, s.config.revision);
    }
  }

  /** At most one system envelope, which takes `revision` to `next`. */
  predicate Leads(more: seq<Envelope>, revision: string, next: string) {
    if more == [] then next == revision
    else |more| == 1 && more[0].payload.System? && NextRevision(more[0], revision) == next
  }

  lemma LeadingKeepsRevision(front: seq<Envelope>, more: seq<Envelope>, initial: string, revision: string, next: string)
    requires Under(front, initial, revision) && Leads(more, revision, next)
    ensures Under(front + more, initial, next)
  {
    if more == [] {
      NothingAfter(front);
    } else {
      FollowOne(front, more[0], front + more, initial, revision);
    }
  }

  /** Every episode envelope carries the revision of the last successful reload before it. */
  lemma {:induction false} RevisionsInTrace(config: Config, ops: seq<Op>)
    requires ValidRun(config, ops) && NoForgedReload(ops)
    ensures RevisionsFollow(Trace(config, ops), config.revision)
    ensures RevisionAfter(Trace(config, ops), config.revision) == After(config, ops).config.revision
    ensures AllOfRevision(After(config, ops).table.open, After(config, ops).config.revision)
  {
    if ops != [] {
      var front, op := ops[..|ops| - 1], ops[|ops| - 1];
      assert op in ops && NoForgedReload(front);
      RevisionsInTrace(config, front);
      StepRevision(After(config, front), op);
      StepEnvelopesRevision(Trace(config, front), After(config, front), op, Trace(config, ops), config.revision);
    }
  }

  // ---------------------------------------------------------------- sequence numbers

  /** A system event that took a number and was then found too large to serialize. */
  predicate Swallowed(op: Op) {
    match op
    case ReloadFailedOp(detail, frame, _) => CheckOf(PolicyReloadFailed, LoadError(detail), frame).Oversized?
    case SystemOp(name, fields, frame, _) => CheckOf(name, Cleaned(fields), frame).Oversized?
    case _ => false
  }

  ghost predicate NoneOversized(ops: seq<Op>) { forall k :: 0 <= k < |ops| ==> !Swallowed(ops[k]) }

  function SwallowedCount(ops: seq<Op>): nat {
    if ops == [] then 0 else SwallowedCount(ops[..|ops| - 1]) + (if Swallowed(ops[|ops| - 1]) then 1 else 0)
  }

  ghost predicate GapFree(trace: seq<Envelope>) {
    forall i :: 0 <= i < |trace| ==> trace[i].sequence == i + 1
  }

  /** The next number is one past the envelopes and the swallowed events so far. */
  lemma {:induction false} NextNumber(config: Config, ops: seq<Op>)
    requires ValidRun(config, ops)
    ensures After(config, ops).nextSequence == |Trace(config, ops)| + 1 + SwallowedCount(ops)
  {
    if ops != [] {
      NextNumber(config, ops[..|ops| - 1]);
    }
  }

  lemma EnvelopeNumbers(s: State, op: Op)
    requires RulesWellFormed(s.config.rules)
    ensures forall i :: 0 <= i < |StepEnvelopes(s, op)| ==> StepEnvelopes(s, op)[i].sequence == s.nextSequence + i
  {
  }

  lemma SecondPart<T>(a: seq<T>, b: seq<T>)
    ensures (a + b)[..|a|] == a
    ensures forall i :: |a| <= i < |a + b| ==> (a + b)[i] == b[i - |a|]
  {
  }

  lemma StepNumbers(config: Config, ops: seq<Op>)
    requires ValidRun(config, ops) && ops != []
    ensures var front := ops[..|ops| - 1];
      var n := |Trace(config, front)|;
      && n <= |Trace(config, ops)| && Trace(config, ops)[..n] == Trace(config, front)
      && forall i :: n <= i < |Trace(config, ops)| ==> Trace(config, ops)[i].sequence == i + 1 + SwallowedCount(front)
  {
    var front, op := ops[..|ops| - 1], ops[|ops| - 1];
    var more := StepEnvelopes(After(config, front), op);
    NextNumber(config, front);
    EnvelopeNumbers(After(config, front), op);
    SecondPart(Trace(config, front), more);
    assert Trace(config, ops) == Trace(config, front) + more;
  }

  /** Operation number `k` of the run returns no envelope. */
  predicate Silent(config: Config, ops: seq<Op>, k: nat)
    requires ValidRun(config, ops) && k < |ops|
  {
    StepEnvelopes(After(config, ops[..k]), ops[k]) == []
  }

  /** No envelope is returned after a swallowed event: each operation is silent, or nothing was
      swallowed before it. */
  predicate NothingAfterSwallowed(config: Config, ops: seq<Op>)
    requires ValidRun(config, ops)
  {
    ops == [] ||
    var front := ops[..|ops| - 1];
    NothingAfterSwallowed(config, front) && (Silent(config, ops, |ops| - 1) || SwallowedCount(front) == 0)
  }

  lemma NoneOversizedMore(ops: seq<Op>, op: Op)
    ensures NoneOversized(ops + [op]) <==> NoneOversized(ops) && !Swallowed(op)
  {
    var all := ops + [op];
    assert all[|ops|] == op && forall k :: 0 <= k < |ops| ==> all[k] == ops[k];
  }

  lemma {:induction false} NoneSwallowed(ops: seq<Op>)
    ensures SwallowedCount(ops) == 0 <==> NoneOversized(ops)
  {
    if ops != [] {
      var front, last := ops[..|ops| - 1], ops[|ops| - 1];
      NoneSwallowed(front);
      assert ops == front + [last];
      NoneOversizedMore(front, last);
    }
  }

  lemma GapFreeStep(config: Config, ops: seq<Op>)
    requires ValidRun(config, ops) && ops != []
    ensures var front := ops[..|ops| - 1];
      GapFree(Trace(config, ops)) <==>
        GapFree(Trace(config, front)) && (Silent(config, ops, |ops| - 1) || SwallowedCount(front) == 0)
  {
    StepNumbers(config, ops);
    var all, n := Trace(config, ops), |Trace(config, ops[..|ops| - 1])|;
    assert |all| > n ==> all[n].sequence == n + 1 + SwallowedCount(ops[..|ops| - 1]);
    assert forall i :: 0 <= i < n ==> all[i] == all[..n][i];
  }

  /** Sequence numbers are 1..n without a gap exactly when no envelope follows an event whose
      number was taken before its size was checked. */
  lemma {:induction false} GapFreeExactly(config: Config, ops: seq<Op>)
    requires ValidRun(config, ops)
    ensures GapFree(Trace(config, ops)) <==> NothingAfterSwallowed(config, ops)
  {
    if ops != [] {
      GapFreeExactly(config, ops[..|ops| - 1]);
      GapFreeStep(config, ops);
    }
  }

  /** With every system event within the size bound there is no gap. */
  lemma SequencesContiguous(config: Config, ops: seq<Op>)
    requires ValidRun(config, ops)
    requires NoneOversized(ops)
    ensures forall i :: 0 <= i < |Trace(config, ops)| ==> Trace(config, ops)[i].sequence == i + 1
  {
    GapFreeExactly(config, ops);
    NothingSwallowedNothingAfter(config, ops);
  }

  /** Nor is there one if only the last operation's event was too large. */
  lemma OnlyLastOversized(config: Config, ops: seq<Op>)
    requires ValidRun(config, ops) && (ops != [] ==> NoneOversized(ops[..|ops| - 1]))
    ensures GapFree(Trace(config, ops))
  {
    GapFreeExactly(config, ops);
    if ops != [] {
      NothingSwallowedNothingAfter(config, ops[..|ops| - 1]);
      NoneSwallowed(ops[..|ops| - 1]);
    }
  }

  lemma {:induction false} NothingSwallowedNothingAfter(config: Config, ops: seq<Op>)
    requires ValidRun(config, ops)
    requires NoneOversized(ops)
    ensures NothingAfterSwallowed(config, ops)
  {
    if ops != [] {
      NothingSwallowedNothingAfter(config, ops[..|ops| - 1]);
      NoneSwallowed(ops[..|ops| - 1]);
    }
  }

  /** A system event without fields. */
  function BareEvent(name: SystemName, at: int): (op: Op)
    ensures !Swallowed(op) && op == SystemOp(name, [], 0, at) && CheckOf(name, Cleaned([]), 0).Accepted?
  {
    BareEventFits(name, 0);
    SystemOp(name, [], 0, at)
  }

  /** An accepted event is never silent, so after a swallowed one it leaves a gap. */
  lemma EventShowsGap(config: Config, ops: seq<Op>, op: Op)
    requires ValidRun(config, ops + [op]) && ValidRun(config, ops)
    requires op.SystemOp? && CheckOf(op.name, Cleaned(op.fields), op.frame).Accepted? && SwallowedCount(ops) > 0
    ensures !GapFree(Trace(config, ops + [op]))
  {
    var all := ops + [op];
    assert all[..|all| - 1] == ops && all[..|ops|] == ops;
    GapFreeStep(config, all);
    assert StepEnvelopes(After(config, ops), op) != [];
  }

  /** A failed reload, then an accepted event. */
  lemma TwoOpsGap(config: Config, first: Op, second: Op)
    requires ValidRun(config, []) && first.ReloadFailedOp?
    requires second.SystemOp? && CheckOf(second.name, Cleaned(second.fields), second.frame).Accepted?
    ensures ValidRun(config, [first, second])
    ensures GapFree(Trace(config, [first, second])) <==> !Swallowed(first)
  {
    assert [first][..0] == [];
    assert SwallowedCount([first]) == if Swallowed(first) then 1 else 0;
    assert [first] + [second] == [first, second];
    if Swallowed(first) {
      EventShowsGap(config, [first], second);
    } else {
      SequencesContiguous(config, [first, second]);
    }
  }

  /** A failed reload and then any event: the numbers have a gap exactly when the bytes of the
      failure's detail exceed what the rest of its line leaves. */
  lemma OversizedLeavesGap(config: Config, detail: string, frame: nat, name: SystemName, at: int)
    requires ValidRun(config, [])
    ensures var ops := [ReloadFailedOp(detail, frame, at), BareEvent(name, at)];
      && ValidRun(config, ops)
      && (GapFree(Trace(config, ops)) <==>
          LineBytes(PolicyReloadFailed, LoadError(""), frame) + TextBytes(detail) <= 262144)
  {
    LoadErrorFitsExactly(detail, frame);
    TwoOpsGap(config, ReloadFailedOp(detail, frame, at), BareEvent(name, at));
  }

  /** However a run goes on with events within the bound, its numbers have no gap iff no event so
      far was too large. */
  lemma ContiguousExactly(config: Config, ops: seq<Op>)
    requires ValidRun(config, ops)
    ensures (forall more :: ValidRun(config, ops + more) && NoneOversized(more) ==> GapFree(Trace(config, ops + more)))
      <==> NoneOversized(ops)
  {
    if NoneOversized(ops) {
      forall more | ValidRun(config, ops + more) && NoneOversized(more) ensures GapFree(Trace(config, ops + more)) {
        SequencesContiguous(config, ops + more);
      }
    } else {
      NoneSwallowed(ops);
      var event := BareEvent(PolicyReloadNoop, 0);
      assert ValidRun(config, ops + [event]);
      EventShowsGap(config, ops, event);
      assert NoneOversized([event]);
    }
  }
}
