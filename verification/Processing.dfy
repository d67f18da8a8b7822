/** The episode processor (processing.py) with its evidence sequencer (evidence.py): operations in,
    numbered envelopes out. */
module Processing {
  import opened Basics
  import opened Models
  import opened Evidence
  import opened Ordering
  import opened Policy
  import opened Episodes

  datatype Counts = Counts(
    observations: nat,
    complete: nat,
    partial: nat,
    undecodable: nat,
    late: nat,
    matchedObservations: nat,
    ruleMatches: nat,
    started: nat,
    progressed: nat,
    closed: nat
  )

  const ZERO_COUNTS := Counts(0, 0, 0, 0, 0, 0, 0, 0, 0, 0)

  function CountObservation(c: Counts, o: Observation, matches: nat): Counts {
    c.(observations := c.observations + 1,
       complete := c.complete + (if o.outcome.Complete? then 1 else 0),
       partial := c.partial + (if o.outcome.Partial? then 1 else 0),
       undecodable := c.undecodable + (if o.outcome.Undecodable? then 1 else 0),
       late := c.late + (if o.late then 1 else 0),
       matchedObservations := c.matchedObservations + (if matches > 0 then 1 else 0),
       ruleMatches := c.ruleMatches + matches)
  }

  function CountPhase(c: Counts, t: Transition): Counts {
    match t.phase
    case Start => c.(started := c.started + 1)
    case Progress => c.(progressed := c.progressed + 1)
    case Close => c.(closed := c.closed + 1)
  }

  function CountPhases(c: Counts, ts: seq<Transition>): Counts {
    if ts == [] then c else CountPhase(CountPhases(c, ts[..|ts| - 1]), ts[|ts| - 1])
  }

  function Wrapped(t: Transition, sequence: nat, at: int): Envelope {
    Envelope(sequence, at, t.key.policyRevision, Payload.Episode(t))
  }

  /** The transitions as consecutively numbered envelopes, starting at `sequence`. */
  function WrapAll(ts: seq<Transition>, sequence: nat, at: int): (es: seq<Envelope>)
    ensures |es| == |ts|
    ensures forall i :: 0 <= i < |ts| ==> es[i] == Wrapped(ts[i], sequence + i, at)
  {
    seq(|ts|, i requires 0 <= i < |ts| => Wrapped(ts[i], sequence + i, at))
  }

  // ---------------------------------------------------------------- operations on the state as a value

  datatype State = State(config: Config, settings: Settings, table: Table, nextSequence: nat, counts: Counts)

  function Initial(config: Config): State {
    State(config, Settings(config.capacity, config.idle, config.progress), Table([], 1), 1, ZERO_COUNTS)
  }

  /** `frame` counts the bytes of an event's line outside its payload (identifiers, time, newline). */
  datatype Op =
    | ObserveOp(observation: Observation, time: int, at: int)
    | TickOp(time: int, at: int)
    | CloseAllOp(reason: CloseReason, time: int, at: int)
    | ReloadOp(config: Config, time: int, at: int)
    | ReloadFailedOp(detail: string, frame: nat, at: int)
    | SystemOp(name: SystemName, fields: seq<Member>, frame: nat, at: int)

  /** All matching rules of one observation, in order. */
  function ObservedAll(c: Settings, t: Table, rules: seq<PolicyRule>, o: Observation, revision: string,
      now: int): Table {
    if rules == [] then t else
      var n := |rules| - 1;
      Observed(c, ObservedAll(c, t, rules[..n], o, revision, now), rules[n], o, revision, now)
  }

  function ObservedAllOut(c: Settings, t: Table, rules: seq<PolicyRule>, o: Observation, revision: string,
      now: int): seq<Transition> {
    if rules == [] then [] else
      var n := |rules| - 1;
      ObservedAllOut(c, t, rules[..n], o, revision, now)
      + ObservedOut(c, ObservedAll(c, t, rules[..n], o, revision, now), rules[n], o, revision, now)
  }

  function MatchedRules(config: Config, o: Observation): seq<PolicyRule>
    requires RulesWellFormed(config.rules)
  {
    DetectorIsExact(config.rules, o);
    Matching(ById(config.rules), o)
  }

  /** The table and transitions of an operation, before numbering. */
  function StepTable(s: State, op: Op): Table
    requires RulesWellFormed(s.config.rules)
  {
    match op
    case ObserveOp(o, t, _) =>
      ObservedAll(s.settings, s.table.(open := Advanced(s.settings, s.table.open, t)), MatchedRules(s.config, o), o,
        s.config.revision, t)
    case TickOp(t, _) => s.table.(open := Advanced(s.settings, s.table.open, t))
    case CloseAllOp(_, _, _) => s.table.(open := [])
    case ReloadOp(config, _, _) => if Swaps(s, config) then s.table.(open := []) else s.table
    case ReloadFailedOp(_, _, _) => s.table
    case SystemOp(_, _, _, _) => s.table
  }

  function StepOut(s: State, op: Op): seq<Transition>
    requires RulesWellFormed(s.config.rules)
  {
    match op
    case ObserveOp(o, t, _) =>
      AdvancedOut(s.settings, s.table.open, t)
      + ObservedAllOut(s.settings, s.table.(open := Advanced(s.settings, s.table.open, t)), MatchedRules(s.config, o),
        o, s.config.revision, t)
    case TickOp(t, _) => AdvancedOut(s.settings, s.table.open, t)
    case CloseAllOp(reason, t, _) => ClosedOut(s.table.open, t, reason)
    case ReloadOp(config, t, _) => if Swaps(s, config) then ClosedOut(s.table.open, t, PolicyReload) else []
    case ReloadFailedOp(_, _, _) => []
    case SystemOp(_, _, _, _) => []
  }

  /** A reload takes effect: nothing but the rules changed, and they did. */
  predicate Swaps(s: State, config: Config) {
    config.runtimeHash == s.config.runtimeHash && config.revision != s.config.revision
  }

  datatype Event = Event(name: SystemName, fields: seq<Member>, check: Check)

  function Checked(name: SystemName, fields: seq<Member>, frame: nat): Event {
    Event(name, fields, CheckOf(name, fields, frame))
  }

  /** The system event an operation emits after its transitions, if any.  A reload's own events are
      short, revisions being digests, and pass the checks (`Evidence.OwnEventsFit`). */
  function StepEvent(s: State, op: Op): Option<Event> {
    match op
    case ReloadOp(config, _, _) =>
      Some(if config.runtimeHash != s.config.runtimeHash then Event(PolicyReloadFailed, RestartRequired(), Accepted)
           else if config.revision == s.config.revision then
             Event(PolicyReloadNoop, SameRevision(config.revision), Accepted)
           else
             Event(PolicyReloadSuccess, NewRevision(s.config.revision, config.revision), Accepted))
    case ReloadFailedOp(detail, frame, _) => Some(Checked(PolicyReloadFailed, LoadError(detail), frame))
    case SystemOp(name, fields, frame, _) => Some(Checked(name, Cleaned(fields), frame))
    case _ => None
  }

  function StepConfig(s: State, op: Op): Config {
    if op.ReloadOp? && Swaps(s, op.config) then op.config else s.config
  }

  function StepCounts(s: State, op: Op): Counts
    requires RulesWellFormed(s.config.rules)
  {
    CountPhases(
      if op.ObserveOp?
      then CountObservation(s.counts, op.observation, |MatchedRules(s.config, op.observation)|) else s.counts,
      StepOut(s, op))
  }

  function EventNumbers(e: Option<Event>): nat {
    if e.Some? && !e.value.check.Malformed? then 1 else 0
  }

  function Step(s: State, op: Op): State
    requires RulesWellFormed(s.config.rules)
  {
    State(StepConfig(s, op), s.settings, StepTable(s, op),
          s.nextSequence + |StepOut(s, op)| + EventNumbers(StepEvent(s, op)), StepCounts(s, op))
  }

  function EventEnvelopes(e: Option<Event>, sequence: nat, at: int, revision: string): seq<Envelope> {
    if e.Some? && e.value.check.Accepted?
    then [Envelope(sequence, at, revision, System(e.value.name, e.value.fields))] else []
  }

  /** The envelopes an operation returns; a rejected system event returns none. */
  function StepEnvelopes(s: State, op: Op): seq<Envelope>
    requires RulesWellFormed(s.config.rules)
  {
    var ts := StepOut(s, op);
    WrapAll(ts, s.nextSequence, op.at)
    + EventEnvelopes(StepEvent(s, op), s.nextSequence + |ts|, op.at, StepConfig(s, op).revision)
  }

  /** The state after an operation, from its transitions and its event. */
  lemma StepIs(s: State, op: Op, ts: seq<Transition>, event: Option<Event>)
    requires RulesWellFormed(s.config.rules) && ts == StepOut(s, op) && event == StepEvent(s, op) && !op.ObserveOp?
    ensures Step(s, op) == State(StepConfig(s, op), s.settings, StepTable(s, op),
                                 s.nextSequence + |ts| + EventNumbers(event), CountPhases(s.counts, ts))
  {
  }

  /** The state and envelopes after an observation, from the table once idle episodes have closed. */
  lemma ObserveIs(s: State, o: Observation, time: int, at: int, table: Table, rules: seq<PolicyRule>,
      ts: seq<Transition>)
    requires RulesWellFormed(s.config.rules) && rules == MatchedRules(s.config, o)
    requires table == s.table.(open := Advanced(s.settings, s.table.open, time))
    requires ts == AdvancedOut(s.settings, s.table.open, time)
      + ObservedAllOut(s.settings, table, rules, o, s.config.revision, time)
    ensures Step(s, ObserveOp(o, time, at))
      == State(s.config, s.settings, ObservedAll(s.settings, table, rules, o, s.config.revision, time),
               s.nextSequence + |ts|, CountPhases(CountObservation(s.counts, o, |rules|), ts))
    ensures StepEnvelopes(s, ObserveOp(o, time, at)) == WrapAll(ts, s.nextSequence, at)
  {
    EnvelopesOf(s, ObserveOp(o, time, at), ts, None, s.config.revision);
    NothingAfter(WrapAll(ts, s.nextSequence, at));
  }

  /** The envelopes of an operation, from its transitions and its event. */
  lemma EnvelopesOf(s: State, op: Op, ts: seq<Transition>, event: Option<Event>, revision: string)
    requires RulesWellFormed(s.config.rules) && ts == StepOut(s, op) && event == StepEvent(s, op)
    requires revision == StepConfig(s, op).revision
    ensures StepEnvelopes(s, op)
      == WrapAll(ts, s.nextSequence, op.at) + EventEnvelopes(event, s.nextSequence + |ts|, op.at, revision)
  {
  }

  /** The state and envelopes after a system event by itself. */
  lemma EventIs(s: State, op: Op, event: Event)
    requires RulesWellFormed(s.config.rules) && (op.SystemOp? || op.ReloadFailedOp?) && StepEvent(s, op) == Some(event)
    ensures Step(s, op) == s.(nextSequence := s.nextSequence + EventNumbers(Some(event)))
    ensures StepEnvelopes(s, op) == EventEnvelopes(Some(event), s.nextSequence, op.at, s.config.revision)
  {
    StepIs(s, op, [], Some(event));
    EnvelopesOf(s, op, [], Some(event), s.config.revision);
    NothingBefore(EventEnvelopes(Some(event), s.nextSequence, op.at, s.config.revision));
  }

  /** A reload that takes effect is a close of everything, the new configuration, one event. */
  lemma ReloadClosesThenSwaps(s: State, config: Config, t: int, at: int)
    requires RulesWellFormed(s.config.rules) && Swaps(s, config)
    ensures var closed := Step(s, CloseAllOp(PolicyReload, t, at));
      && Step(s, ReloadOp(config, t, at)) == closed.(config := config, nextSequence := closed.nextSequence + 1)
      && StepEnvelopes(s, ReloadOp(config, t, at)) == StepEnvelopes(s, CloseAllOp(PolicyReload, t, at))
           + [Envelope(closed.nextSequence, at, config.revision,
                System(PolicyReloadSuccess, NewRevision(s.config.revision, config.revision)))]
  {
    var ts := ClosedOut(s.table.open, t, PolicyReload);
    StepIs(s, CloseAllOp(PolicyReload, t, at), ts, None);
    StepIs(s, ReloadOp(config, t, at), ts, StepEvent(s, ReloadOp(config, t, at)));
    EnvelopesOf(s, CloseAllOp(PolicyReload, t, at), ts, None, s.config.revision);
    EnvelopesOf(s, ReloadOp(config, t, at), ts, StepEvent(s, ReloadOp(config, t, at)), config.revision);
    NothingAfter(WrapAll(ts, s.nextSequence, at));
  }

  /** One system envelope after some episode envelopes, and only closes among those. */
  predicate OneEvent(es: seq<Envelope>, name: SystemName, revision: string) {
    && es != [] && es[|es| - 1].payload.System? && es[|es| - 1].payload.name == name
    && es[|es| - 1].policyRevision == revision
    && forall i :: 0 <= i < |es| - 1 ==> es[i].payload.Episode? && es[i].payload.transition.phase.Close?
  }

  /** What a reload does, by the two hashes alone: a change of anything but the rules is refused, the same
      rules are acknowledged, and only other rules close everything and take effect. */
  lemma ReloadExactly(s: State, config: Config, t: int, at: int)
    requires RulesWellFormed(s.config.rules)
    ensures var after, es := Step(s, ReloadOp(config, t, at)), StepEnvelopes(s, ReloadOp(config, t, at));
      if config.runtimeHash != s.config.runtimeHash then
        && after == s.(nextSequence := s.nextSequence + 1) && |es| == 1
        && OneEvent(es, PolicyReloadFailed, s.config.revision)
      else if config.revision == s.config.revision then
        && after == s.(nextSequence := s.nextSequence + 1) && |es| == 1
        && OneEvent(es, PolicyReloadNoop, s.config.revision)
      else
        && after.config == config && after.table == s.table.(open := []) && after.settings == s.settings
        && |es| == |s.table.open| + 1 && OneEvent(es, PolicyReloadSuccess, config.revision)
        && after.nextSequence == s.nextSequence + |es|
  {
    var op := ReloadOp(config, t, at);
    var ts, event := StepOut(s, op), StepEvent(s, op);
    StepIs(s, op, ts, event);
    EnvelopesOf(s, op, ts, event, StepConfig(s, op).revision);
    if Swaps(s, config) {
      ClosedAll(s.table.open, t, PolicyReload);
    } else {
      NothingBefore([Envelope(s.nextSequence, at, s.config.revision, System(event.value.name, event.value.fields))]);
    }
  }

  lemma {:induction false} ClosedAll(open: seq<Record>, t: int, reason: CloseReason)
    ensures |ClosedOut(open, t, reason)| == |open|
    ensures forall i :: 0 <= i < |open| ==> ClosedOut(open, t, reason)[i].phase.Close?
  {
    if open != [] {
      ClosedAll(open[1..], t, reason);
    }
  }

  // ---------------------------------------------------------------- the mutable objects

  class EvidenceSequencer {
    var nextSequence: nat

    constructor ()
      ensures nextSequence == 1
    {
      nextSequence := 1;
    }

    method WrapEpisode(t: Transition, at: int) returns (e: Envelope)
      modifies this
      ensures e == Wrapped(t, old(nextSequence), at) && nextSequence == old(nextSequence) + 1
    {
      var sequence := nextSequence;
      nextSequence := nextSequence + 1;
      e := Envelope(sequence, at, t.key.policyRevision, Payload.Episode(t));
    }

    /** Fields are checked one by one before a number is taken, the size of the line after. */
    method WrapSystem(name: SystemName, fields: seq<Member>, frame: nat, at: int, revision: string)
        returns (e: Option<Envelope>)
      modifies this
      ensures nextSequence == old(nextSequence) + (if FieldsOk(fields) then 1 else 0)
      ensures e.Some? <==> FieldsOk(fields) && LineBytes(name, fields, frame) <= MAX_EVIDENCE_LINE_BYTES
      ensures e.Some? ==> e.value == Envelope(old(nextSequence), at, revision, System(name, fields))
    {
      if |fields| > MAX_FIELDS {
        return None;
      }
      AllMembersOkExactly(fields);
      for i := 0 to |fields|
        invariant nextSequence == old(nextSequence)
        invariant forall j :: 0 <= j < i ==> MemberOk(fields[j])
      {
        if !KeyOk(fields[i].key) || !IsScalar(fields[i].value) {
          return None;
        }
      }
      var envelope := Number(name, fields, at, revision);
      e := if LineBytes(name, fields, frame) > MAX_EVIDENCE_LINE_BYTES then None else Some(envelope);
    }

    method Number(name: SystemName, fields: seq<Member>, at: int, revision: string) returns (e: Envelope)
      modifies this
      ensures nextSequence == old(nextSequence) + 1
      ensures e == Envelope(old(nextSequence), at, revision, System(name, fields))
    {
      var sequence := nextSequence;
      nextSequence := nextSequence + 1;
      e := Envelope(sequence, at, revision, System(name, fields));
    }
  }

  class EpisodeProcessor {
    var config: Config
    var policy: CompiledPolicy
    const tracker: EpisodeTracker
    const sequencer: EvidenceSequencer
    var counts: Counts

    ghost predicate Valid()
      reads this, tracker, tracker.Repr, sequencer
    {
      && tracker.Valid()
      && RulesWellFormed(config.rules)
      && policy == CompiledPolicy(config.revision, CompileRules(ById(config.rules)))
    }

    ghost function View(): State
      reads this, tracker, sequencer
    {
      State(config, tracker.settings, tracker.View(), sequencer.nextSequence, counts)
    }

    constructor (config: Config)
      requires config.capacity >= 1 && RulesWellFormed(config.rules)
      ensures Valid() && View() == Initial(config)
      ensures fresh(tracker) && fresh(sequencer) && tracker.Repr == {}
    {
      this.config := config;
      var compiled := CompilePolicy(config.rules, config.revision);
      policy := compiled;
      tracker := new EpisodeTracker(Settings(config.capacity, config.idle, config.progress));
      sequencer := new EvidenceSequencer();
      counts := ZERO_COUNTS;
    }

    method Observe(o: Observation, time: int, at: int) returns (out: seq<Envelope>)
      requires Valid()
      modifies this, tracker, tracker.Repr, sequencer
      ensures Valid() && fresh(tracker.Repr - old(tracker.Repr))
      ensures View() == Step(old(View()), ObserveOp(o, time, at))
      ensures out == StepEnvelopes(old(View()), ObserveOp(o, time, at))
    {
      ghost var before := View();
      var transitions := tracker.Advance(time);
      ghost var table := tracker.View();
      var rules := Matches(o);
      counts := CountObservation(counts, o, |rules|);
      var more := Track(rules, o, time);
      transitions := transitions + more;
      ObserveIs(before, o, time, at, table, rules, transitions);
      out := Wrap(transitions, at);
    }

    /** The matching rules, sorted by id as the caller of the detector sorts them. */
    method Matches(o: Observation) returns (rules: seq<PolicyRule>)
      requires Valid()
      ensures rules == MatchedRules(config, o)
    {
      DetectorIsExact(config.rules, o);
      var matches := EvaluatePolicy(policy, o);
      rules := RulesOf(matches);
      SortSorted(IdLeq, rules);
      rules := ById(rules);
    }

    method Track(rules: seq<PolicyRule>, o: Observation, time: int) returns (transitions: seq<Transition>)
      requires Valid()
      modifies tracker, tracker.Repr
      ensures Valid() && fresh(tracker.Repr - old(tracker.Repr))
      ensures tracker.View() == ObservedAll(tracker.settings, old(tracker.View()), rules, o, config.revision, time)
      ensures transitions == ObservedAllOut(tracker.settings, old(tracker.View()), rules, o, config.revision, time)
    {
      transitions := [];
      for i := 0 to |rules|
        invariant tracker.Valid() && fresh(tracker.Repr - old(tracker.Repr))
        invariant tracker.View() == ObservedAll(tracker.settings, old(tracker.View()), rules[..i], o, config.revision,
          time)
        invariant transitions == ObservedAllOut(tracker.settings, old(tracker.View()), rules[..i], o, config.revision,
          time)
      {
        assert rules[..i + 1][..i] == rules[..i];
        var more := tracker.Observe(rules[i], o, config.revision, time);
        transitions := transitions + more;
      }
      assert rules[..|rules|] == rules;
    }

    method Tick(time: int, at: int) returns (out: seq<Envelope>)
      requires Valid()
      modifies this, tracker, tracker.Repr, sequencer
      ensures Valid() && tracker.Repr == old(tracker.Repr)
      ensures View() == Step(old(View()), TickOp(time, at))
      ensures out == StepEnvelopes(old(View()), TickOp(time, at))
    {
      var transitions := tracker.Advance(time);
      out := Wrap(transitions, at);
    }

    method CloseAll(reason: CloseReason, time: int, at: int) returns (out: seq<Envelope>)
      requires Valid() && reason != CapacityEvicted
      modifies this, tracker, sequencer
      ensures Valid() && tracker.states == [] && tracker.Repr == old(tracker.Repr) && config == old(config)
      ensures View() == Step(old(View()), CloseAllOp(reason, time, at))
      ensures out == StepEnvelopes(old(View()), CloseAllOp(reason, time, at))
    {
      var transitions := tracker.CloseAll(reason, time);
      out := Wrap(transitions, at);
    }

    /** Restart-only gate, no-op on the same revision, else close everything and swap the policy. */
    method Reload(newConfig: Config, time: int, at: int) returns (out: seq<Envelope>)
      requires Valid() && RulesWellFormed(newConfig.rules)
      modifies this, tracker, sequencer
      ensures Valid() && tracker.Repr == old(tracker.Repr)
      ensures View() == Step(old(View()), ReloadOp(newConfig, time, at))
      ensures out == StepEnvelopes(old(View()), ReloadOp(newConfig, time, at))
    {
      if newConfig.runtimeHash != config.runtimeHash {
        out := EmitOwn(PolicyReloadFailed, RestartRequired(), at);
      } else if newConfig.revision == config.revision {
        out := EmitOwn(PolicyReloadNoop, SameRevision(newConfig.revision), at);
      } else {
        out := Swap(newConfig, time, at);
      }
    }

    method Swap(newConfig: Config, time: int, at: int) returns (out: seq<Envelope>)
      requires Valid() && RulesWellFormed(newConfig.rules)
      requires Swaps(View(), newConfig)
      modifies this, tracker, sequencer
      ensures Valid() && tracker.Repr == old(tracker.Repr)
      ensures View() == Step(old(View()), ReloadOp(newConfig, time, at))
      ensures out == StepEnvelopes(old(View()), ReloadOp(newConfig, time, at))
    {
      ReloadClosesThenSwaps(View(), newConfig, time, at);
      var oldRevision := config.revision;
      out := CloseAll(PolicyReload, time, at);
      config := newConfig;
      policy := CompilePolicy(newConfig.rules, newConfig.revision);
      var success := EmitOwn(PolicyReloadSuccess, NewRevision(oldRevision, newConfig.revision), at);
      out := out + success;
    }

    method ReloadFailed(detail: string, frame: nat, at: int) returns (out: seq<Envelope>)
      requires Valid()
      modifies sequencer
      ensures Valid() && View() == Step(old(View()), ReloadFailedOp(detail, frame, at))
      ensures out == StepEnvelopes(old(View()), ReloadFailedOp(detail, frame, at))
    {
      EventIs(View(), ReloadFailedOp(detail, frame, at), Checked(PolicyReloadFailed, LoadError(detail), frame));
      out := Emit(PolicyReloadFailed, LoadError(detail), frame, at);
    }

    method System(name: SystemName, fields: seq<Member>, frame: nat, at: int) returns (out: seq<Envelope>)
      requires Valid()
      modifies sequencer
      ensures Valid() && View() == Step(old(View()), SystemOp(name, fields, frame, at))
      ensures out == StepEnvelopes(old(View()), SystemOp(name, fields, frame, at))
    {
      EventIs(View(), SystemOp(name, fields, frame, at), Checked(name, Cleaned(fields), frame));
      out := Emit(name, Cleaned(fields), frame, at);
    }

    method Emit(name: SystemName, fields: seq<Member>, frame: nat, at: int) returns (out: seq<Envelope>)
      modifies sequencer
      ensures sequencer.nextSequence == old(sequencer.nextSequence) + EventNumbers(Some(Checked(name, fields, frame)))
      ensures out == EventEnvelopes(Some(Checked(name, fields, frame)), old(sequencer.nextSequence), at,
        config.revision)
    {
      var e := sequencer.WrapSystem(name, fields, frame, at, config.revision);
      out := if e.Some? then [e.value] else [];
    }

    /** An event that is known to pass the checks. */
    method EmitOwn(name: SystemName, fields: seq<Member>, at: int) returns (out: seq<Envelope>)
      modifies sequencer
      ensures sequencer.nextSequence == old(sequencer.nextSequence) + 1
      ensures out == [Envelope(old(sequencer.nextSequence), at, config.revision, Payload.System(name, fields))]
    {
      var e := sequencer.Number(name, fields, at, config.revision);
      out := [e];
    }

    method Wrap(transitions: seq<Transition>, at: int) returns (out: seq<Envelope>)
      modifies `counts, sequencer
      ensures counts == CountPhases(old(counts), transitions)
      ensures sequencer.nextSequence == old(sequencer.nextSequence) + |transitions|
      ensures out == WrapAll(transitions, old(sequencer.nextSequence), at)
    {
      out := [];
      for i := 0 to |transitions|
        invariant counts == CountPhases(old(counts), transitions[..i])
        invariant sequencer.nextSequence == old(sequencer.nextSequence) + i
        invariant out == WrapAll(transitions[..i], old(sequencer.nextSequence), at)
      {
        assert transitions[..i + 1][..i] == transitions[..i];
        counts := CountPhase(counts, transitions[i]);
        var e := sequencer.WrapEpisode(transitions[i], at);
        out := out + [e];
      }
      assert transitions[..|transitions|] == transitions;
    }
  }
}
