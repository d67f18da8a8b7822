/** Violation episodes (episodes.py): the bounded, least-recently-matched-first table of open
    episodes, and the functions its methods compute. */
module Episodes {
  import opened Basics
  import opened Models

  /** The value of one open episode. */
  datatype Record = Record(
    id: nat,
    key: EpisodeKey,
    rule: PolicyRule,
    firstObserved: int,
    lastObserved: int,
    lastLifecycle: int,
    lastProgress: int,
    count: nat,
    bytes: nat,
    lateCount: nat,
    perPoint: map<string, PointCount>
  )

  function KeyOf(rule: PolicyRule, o: Observation, revision: string): EpisodeKey {
    EpisodeKey(revision, rule.id, o.ipVersion, o.source, o.destination, o.protocol, o.sourcePort,
               o.destinationPort, o.icmpType, o.icmpCode, o.fields, o.decodeReason)
  }

  function AddPoint(m: map<string, PointCount>, o: Observation): map<string, PointCount> {
    var before := if o.capturePoint in m then m[o.capturePoint] else PointCount(0, 0);
    m[o.capturePoint := PointCount(before.observations + 1, before.bytes + o.wireLength)]
  }

  function Opened(id: nat, key: EpisodeKey, rule: PolicyRule, o: Observation, t: int): Record {
    Record(id, key, rule, o.capturedAt, o.capturedAt, t, t, 1, o.wireLength, if o.late then 1 else 0,
           map[o.capturePoint := PointCount(1, o.wireLength)])
  }

  function Updated(e: Record, o: Observation, t: int): Record {
    e.(firstObserved := if o.late then e.firstObserved else Min(e.firstObserved, o.capturedAt),
       lastObserved := if o.late then e.lastObserved else Max(e.lastObserved, o.capturedAt),
       lastLifecycle := Max(e.lastLifecycle, t),
       count := e.count + 1,
       bytes := e.bytes + o.wireLength,
       lateCount := e.lateCount + (if o.late then 1 else 0),
       perPoint := AddPoint(e.perPoint, o))
  }

  function Report(e: Record, phase: Phase, t: int, truncated: bool, reason: Option<CloseReason>): Transition {
    Transition(e.id, phase, e.key, e.rule, e.firstObserved, e.lastObserved, t, e.count, e.bytes, e.lateCount,
               e.perPoint, truncated, reason)
  }

  function Closing(e: Record, t: int, reason: CloseReason): Transition {
    Report(e, Close, t, reason == CapacityEvicted, Some(reason))
  }

  /** The table as a value: open episodes from least to most recently matched, and the next id. */
  datatype Table = Table(open: seq<Record>, nextId: nat)

  datatype Settings = Settings(capacity: nat, idle: int, progress: int)

  ghost predicate DistinctKeys(open: seq<Record>) {
    forall i, j :: 0 <= i < j < |open| ==> open[i].key != open[j].key
  }

  /** Position of the episode with this key, or |open|. */
  function Find(open: seq<Record>, key: EpisodeKey): (i: nat)
    ensures i <= |open|
    ensures i < |open| ==> open[i].key == key
    ensures forall j :: 0 <= j < i ==> open[j].key != key
  {
    if open == [] || open[0].key == key then 0 else 1 + Find(open[1..], key)
  }

  function RemoveAt<T>(s: seq<T>, i: nat): seq<T>
    requires i < |s|
  {
    s[..i] + s[i + 1..]
  }

  /** The table after a match. */
  function Observed(c: Settings, t: Table, rule: PolicyRule, o: Observation, revision: string, now: int): Table {
    var key := KeyOf(rule, o, revision);
    var i := Find(t.open, key);
    if i < |t.open| then
      t.(open := RemoveAt(t.open, i) + [Updated(t.open[i], o, now)])
    else
      var kept := if |t.open| >= c.capacity && t.open != [] then t.open[1..] else t.open;
      Table(kept + [Opened(t.nextId, key, rule, o, now)], t.nextId + 1)
  }

  /** The transitions a match emits. */
  function ObservedOut(c: Settings, t: Table, rule: PolicyRule, o: Observation, revision: string,
      now: int): seq<Transition> {
    var key := KeyOf(rule, o, revision);
    if Find(t.open, key) < |t.open| then [] else
      (if |t.open| >= c.capacity && t.open != [] then [Closing(t.open[0], now, CapacityEvicted)] else [])
      + [Report(Opened(t.nextId, key, rule, o, now), Start, now, false, None)]
  }

  predicate IdleAt(c: Settings, e: Record, now: int) {
    now - e.lastLifecycle >= c.idle
  }

  predicate ProgressAt(c: Settings, e: Record, now: int) {
    !IdleAt(c, e, now) && now - e.lastProgress >= c.progress
  }

  /** The record after the progress timer ran at `now`. */
  function Ticked(c: Settings, e: Record, now: int): Record {
    if ProgressAt(c, e, now) then e.(lastProgress := now) else e
  }

  /** The transition, if any, that the timers emit for one episode. */
  function TickedOut(c: Settings, e: Record, now: int): seq<Transition> {
    if IdleAt(c, e, now) then [Closing(e, now, Idle)]
    else if ProgressAt(c, e, now) then [Report(e, Progress, now, false, None)] else []
  }

  /** The open episodes after the timers run at `now`. */
  function Advanced(c: Settings, open: seq<Record>, now: int): seq<Record> {
    if open == [] then [] else
      (if IdleAt(c, open[0], now) then [] else [Ticked(c, open[0], now)]) + Advanced(c, open[1..], now)
  }

  function AdvancedOut(c: Settings, open: seq<Record>, now: int): seq<Transition> {
    if open == [] then [] else TickedOut(c, open[0], now) + AdvancedOut(c, open[1..], now)
  }

  function ClosedOut(open: seq<Record>, now: int, reason: CloseReason): seq<Transition> {
    if open == [] then [] else [Closing(open[0], now, reason)] + ClosedOut(open[1..], now, reason)
  }

  lemma {:induction false} AdvancedAppend(c: Settings, a: seq<Record>, b: seq<Record>, now: int)
    ensures Advanced(c, a + b, now) == Advanced(c, a, now) + Advanced(c, b, now)
    ensures AdvancedOut(c, a + b, now) == AdvancedOut(c, a, now) + AdvancedOut(c, b, now)
  {
    if a == [] {
      assert a + b == b;
    } else {
      assert (a + b)[1..] == a[1..] + b;
      AdvancedAppend(c, a[1..], b, now);
    }
  }

  lemma AdvancedSnoc(c: Settings, s: seq<Record>, i: nat, now: int)
    requires i < |s|
    ensures AdvancedOut(c, s[..i + 1], now) == AdvancedOut(c, s[..i], now) + TickedOut(c, s[i], now)
    ensures Advanced(c, s[..i + 1], now)
         == Advanced(c, s[..i], now) + (if IdleAt(c, s[i], now) then [] else [Ticked(c, s[i], now)])
  {
    assert s[..i + 1] == s[..i] + [s[i]];
    AdvancedAppend(c, s[..i], [s[i]], now);
    assert [s[i]][1..] == [];
  }

  lemma {:induction false} ClosedAppend(a: seq<Record>, b: seq<Record>, now: int, reason: CloseReason)
    ensures ClosedOut(a + b, now, reason) == ClosedOut(a, now, reason) + ClosedOut(b, now, reason)
  {
    if a == [] {
      assert a + b == b;
    } else {
      assert (a + b)[1..] == a[1..] + b;
      ClosedAppend(a[1..], b, now, reason);
    }
  }

  lemma {:induction false} AdvancedFrom(c: Settings, open: seq<Record>, now: int)
    ensures forall e :: e in Advanced(c, open, now) ==> exists f :: f in open && f.key == e.key
    ensures |Advanced(c, open, now)| <= |open|
  {
    if open != [] {
      AdvancedFrom(c, open[1..], now);
      forall e | e in Advanced(c, open[1..], now) ensures exists f :: f in open && f.key == e.key {
        var f :| f in open[1..] && f.key == e.key;
      }
    }
  }

  lemma {:induction false} AdvancedKeys(c: Settings, open: seq<Record>, now: int)
    requires DistinctKeys(open)
    ensures DistinctKeys(Advanced(c, open, now))
  {
    if open != [] {
      var rest := Advanced(c, open[1..], now);
      AdvancedFrom(c, open[1..], now);
      AdvancedKeys(c, open[1..], now);
      forall i | 0 <= i < |rest| ensures rest[i].key != open[0].key {
        assert rest[i] in rest;
        var f :| f in open[1..] && f.key == rest[i].key;
      }
    }
  }

  lemma ObservedKeys(c: Settings, t: Table, rule: PolicyRule, o: Observation, revision: string, now: int)
    requires DistinctKeys(t.open)
    ensures DistinctKeys(Observed(c, t, rule, o, revision, now).open)
    ensures c.capacity >= 1 && |t.open| <= c.capacity ==> |Observed(c, t, rule, o, revision, now).open| <= c.capacity
  {
  }

  // ---------------------------------------------------------------- the mutable objects

  class EpisodeState {
    const episodeId: nat
    const key: EpisodeKey
    const rule: PolicyRule
    var firstObserved: int
    var lastObserved: int
    var lastLifecycle: int
    var lastProgress: int
    var count: nat
    var bytes: nat
    var lateCount: nat
    var perPoint: map<string, PointCount>

    function View(): Record
      reads this
    {
      Record(episodeId, key, rule, firstObserved, lastObserved, lastLifecycle, lastProgress, count, bytes, lateCount,
        perPoint)
    }

    constructor (id: nat, key: EpisodeKey, rule: PolicyRule, o: Observation, t: int)
      ensures View() == Opened(id, key, rule, o, t)
    {
      this.episodeId := id;
      this.key := key;
      this.rule := rule;
      firstObserved, lastObserved := o.capturedAt, o.capturedAt;
      lastLifecycle, lastProgress := t, t;
      count, bytes := 1, o.wireLength;
      lateCount := if o.late then 1 else 0;
      perPoint := map[o.capturePoint := PointCount(1, o.wireLength)];
    }

    method Update(o: Observation, t: int)
      modifies this
      ensures View() == Updated(old(View()), o, t)
    {
      count := count + 1;
      bytes := bytes + o.wireLength;
      lateCount := lateCount + (if o.late then 1 else 0);
      perPoint := AddPoint(perPoint, o);
      if !o.late {
        if o.capturedAt < firstObserved {
          firstObserved := o.capturedAt;
        }
        if o.capturedAt > lastObserved {
          lastObserved := o.capturedAt;
        }
      }
      lastLifecycle := Max(lastLifecycle, t);
    }
  }

  /** The open episodes.  `states` is the ordered dictionary: its values in iteration order, each
      carrying its own key, no key twice.  `open` is what they stand for. */
  class EpisodeTracker {
    const settings: Settings
    var nextId: nat
    var states: seq<EpisodeState>
    ghost var open: seq<Record>
    ghost var Repr: set<EpisodeState>  // every state ever stored

    ghost predicate Valid()
      reads this, Repr
    {
      && settings.capacity >= 1
      && |open| == |states|
      && (forall i :: 0 <= i < |states| ==> states[i] in Repr && states[i].View() == open[i])
      && DistinctKeys(open)
    }

    /** The table this object represents. */
    ghost function View(): Table
      reads this
    {
      Table(open, nextId)
    }

    constructor (settings: Settings)
      requires settings.capacity >= 1
      ensures Valid() && View() == Table([], 1) && this.settings == settings && Repr == {}
    {
      this.settings := settings;
      nextId := 1;
      states := [];
      open := [];
      Repr := {};
    }

    /** Dictionary lookup: the position of the state under `key`, or |states|. */
    method Lookup(key: EpisodeKey) returns (i: nat)
      requires Valid()
      ensures i == Find(open, key)
    {
      i := 0;
      while i < |states| && states[i].key != key
        invariant i <= |states|
        invariant forall j :: 0 <= j < i ==> open[j].key != key
      {
        assert states[i].View() == open[i];
        i := i + 1;
      }
      assert i < |states| ==> states[i].View() == open[i];
    }

    method Observe(rule: PolicyRule, o: Observation, revision: string, now: int) returns (emitted: seq<Transition>)
      requires Valid()
      modifies this, Repr
      ensures Valid() && fresh(Repr - old(Repr))
      ensures View() == Observed(settings, old(View()), rule, o, revision, now)
      ensures emitted == ObservedOut(settings, old(View()), rule, o, revision, now)
    {
      var key := KeyOf(rule, o, revision);
      emitted := [];
      var i := Lookup(key);
      if i < |states| {
        Refresh(i, o, now);
        return;
      }
      if |states| >= settings.capacity {
        var victim := PopFirst();
        emitted := [Closing(victim, now, CapacityEvicted)];
      }
      var state := new EpisodeState(nextId, key, rule, o, now);
      Append(state);
      emitted := emitted + [Report(state.View(), Start, now, false, None)];
    }

    /** `popitem(last=False)`: remove the least recently matched episode. */
    method PopFirst() returns (victim: Record)
      requires Valid() && states != []
      modifies this
      ensures Valid() && nextId == old(nextId) && Repr == old(Repr) && |states| == |old(states)| - 1
      ensures victim == old(open)[0] && open == old(open)[1..]
    {
      victim := states[0].View();
      states, open := states[1..], open[1..];
    }

    /** Insert a new state at the end; it took the next id. */
    method Append(state: EpisodeState)
      requires Valid() && Find(open, state.key) == |open|
      modifies this
      ensures Valid() && nextId == old(nextId) + 1 && Repr == old(Repr) + {state}
      ensures open == old(open) + [state.View()]
    {
      states, open := states + [state], open + [state.View()];
      nextId, Repr := nextId + 1, Repr + {state};
    }

    /** Update the state at `i` in place and move it to the end. */
    method Refresh(i: nat, o: Observation, now: int)
      requires Valid() && i < |states|
      modifies this, states[i]
      ensures Valid() && nextId == old(nextId) && Repr == old(Repr)
      ensures open == RemoveAt(old(open), i) + [Updated(old(open)[i], o, now)]
    {
      var state := states[i];
      forall j | 0 <= j < |states| && j != i ensures states[j] != state {
        assert states[j].View().key != state.View().key;
      }
      state.Update(o, now);
      states := RemoveAt(states, i) + [state];
      open := RemoveAt(open, i) + [state.View()];
    }

    method Advance(now: int) returns (emitted: seq<Transition>)
      requires Valid()
      modifies this, Repr
      ensures Valid() && Repr == old(Repr)
      ensures View() == old(View()).(open := Advanced(settings, old(open), now))
      ensures emitted == AdvancedOut(settings, old(open), now)
    {
      ghost var before := open;
      emitted := [];
      var toClose: set<EpisodeKey> := {};
      var i := 0;
      while i < |states|
        invariant i <= |states| && states == old(states) && nextId == old(nextId) && Repr == old(Repr) && Valid()
        invariant |open| == |before| && open[i..] == before[i..]
        invariant emitted == AdvancedOut(settings, before[..i], now)
        invariant forall j :: 0 <= j < i ==> open[j] == Ticked(settings, before[j], now)
        invariant forall j :: 0 <= j < |open| ==>
          (open[j].key in toClose <==> j < i && IdleAt(settings, before[j], now))
      {
        var state := states[i];
        assert open[i] == before[i] by { assert open[i] == open[i..][0]; }
        AdvancedSnoc(settings, before, i, now);
        if now - state.lastLifecycle >= settings.idle {
          emitted := emitted + [Closing(state.View(), now, Idle)];
          toClose := toClose + {state.key};
        } else if now - state.lastProgress >= settings.progress {
          emitted := emitted + [Report(state.View(), Progress, now, false, None)];
          Progressed(i, now);
        }
        assert open[i + 1..] == before[i + 1..];
        i := i + 1;
      }
      assert before[..i] == before;
      SurvivorsAdvance(settings, before, open, toClose, now);
      Pop(toClose);
    }

    method Progressed(i: nat, now: int)
      requires Valid() && i < |states|
      modifies this`open, states[i]
      ensures Valid()
      ensures open == old(open)[i := old(open)[i].(lastProgress := now)]
    {
      forall j | 0 <= j < |states| && j != i ensures states[j] != states[i] {
        assert states[j].View().key != states[i].View().key;
      }
      states[i].lastProgress := now;
      open := open[i := open[i].(lastProgress := now)];
    }

    /** `pop(key)` for every key in `gone`. */
    method Pop(gone: set<EpisodeKey>)
      requires Valid()
      modifies this
      ensures Valid() && nextId == old(nextId) && Repr == old(Repr)
      ensures open == Survivors(old(open), gone)
    {
      var kept: seq<EpisodeState> := [];
      ghost var survivors := [];
      for i := 0 to |states|
        invariant states == old(states) && open == old(open) && nextId == old(nextId) && Repr == old(Repr)
        invariant survivors == Survivors(open[..i], gone)
        invariant |kept| == |survivors|
        invariant forall j :: 0 <= j < |kept| ==> kept[j] in states && kept[j].View() == survivors[j]
      {
        assert open[..i + 1][..i] == open[..i];
        assert states[i].View() == open[i];
        if states[i].key !in gone {
          kept, survivors := kept + [states[i]], survivors + [open[i]];
        }
      }
      assert open[..|states|] == open;
      SurvivorsDistinct(open, gone);
      states, open := kept, survivors;
    }

    method CloseAll(reason: CloseReason, now: int) returns (emitted: seq<Transition>)
      requires Valid()
      requires reason != CapacityEvicted
      modifies this
      ensures Valid() && states == [] && Repr == old(Repr)
      ensures View() == old(View()).(open := [])
      ensures emitted == ClosedOut(old(open), now, reason)
    {
      emitted := [];
      for i := 0 to |states|
        invariant states == old(states) && open == old(open) && nextId == old(nextId) && Repr == old(Repr)
        invariant emitted == ClosedOut(open[..i], now, reason)
      {
        assert open[..i + 1] == open[..i] + [open[i]];
        assert [open[i]][1..] == [];
        ClosedAppend(open[..i], [open[i]], now, reason);
        emitted := emitted + [Closing(states[i].View(), now, reason)];
      }
      assert open[..|states|] == open;
      states, open := [], [];
    }
  }


  /** The episodes whose key is not in `gone`. */
  function Survivors(open: seq<Record>, gone: set<EpisodeKey>): (r: seq<Record>)
    ensures forall e :: e in r ==> e in open
  {
    if open == [] then [] else
      var n := |open| - 1;
      Survivors(open[..n], gone) + (if open[n].key in gone then [] else [open[n]])
  }

  lemma {:induction false} SurvivorsDistinct(open: seq<Record>, gone: set<EpisodeKey>)
    requires DistinctKeys(open)
    ensures DistinctKeys(Survivors(open, gone))
  {
    if open != [] {
      var n := |open| - 1;
      var rest := Survivors(open[..n], gone);
      SurvivorsDistinct(open[..n], gone);
      forall i | 0 <= i < |rest| ensures rest[i].key != open[n].key {
        assert rest[i] in open[..n];
      }
    }
  }

  /** Removing the idle keys leaves exactly the advanced episodes, in order. */
  lemma {:induction false} SurvivorsAdvance(c: Settings, before: seq<Record>, after: seq<Record>,
      gone: set<EpisodeKey>, now: int)
    requires |before| == |after|
    requires forall j :: 0 <= j < |after| ==> (after[j].key in gone <==> IdleAt(c, before[j], now))
    requires forall j :: 0 <= j < |after| ==> after[j] == Ticked(c, before[j], now)
    ensures Survivors(after, gone) == Advanced(c, before, now)
  {
    if before != [] {
      var n := |before| - 1;
      SurvivorsAdvance(c, before[..n], after[..n], gone, now);
      AdvancedSnoc(c, before, n, now);
      assert before[..n + 1] == before;
    }
  }
}
