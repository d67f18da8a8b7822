/** Loss accounting of the live pipeline: every observation ever put is handled, still queued, or
    counted as dropped, whatever the interleaving. */
module PipelineLoss {
  import opened Basics
  import M = Models
  import opened Control
  import opened OpsState
  import opened Worker
  import opened Pipeline

  // ---------------------------------------------------------------- sums

  /** Drops carried by the drop reports among the messages. */
  function DropSum(ms: seq<Message>): nat {
    if ms == [] then 0 else
      DropSum(ms[..|ms| - 1]) + (if ms[|ms| - 1].kind.ObservationDropped? then ms[|ms| - 1].drops else 0)
  }

  lemma {:induction false} DropSumAppend(a: seq<Message>, b: seq<Message>)
    ensures DropSum(a + b) == DropSum(a) + DropSum(b)
  {
    if b == [] {
      assert a + b == a;
    } else {
      assert (a + b)[..|a + b| - 1] == a + b[..|b| - 1];
      DropSumAppend(a, b[..|b| - 1]);
    }
  }

  lemma {:induction false} DropSumSet(ms: seq<Message>, i: nat, m: Message)
    requires i < |ms| && ms[i].kind.ObservationDropped? && m.kind.ObservationDropped?
    ensures DropSum(ms[i := m]) == DropSum(ms) - ms[i].drops + m.drops
  {
    var n := |ms| - 1;
    if i == n {
      assert ms[i := m][..n] == ms[..n];
    } else {
      assert ms[i := m][..n] == ms[..n][i := m];
      DropSumSet(ms[..n], i, m);
    }
  }

  /** Evictions whose report has not been sent yet. */
  function InFlight(ps: seq<Producer>): nat {
    if ps == [] then 0 else InFlight(ps[..|ps| - 1]) + ps[|ps| - 1].evicted
  }

  lemma {:induction false} InFlightSet(ps: seq<Producer>, i: nat, p: Producer)
    requires i < |ps|
    ensures InFlight(ps[i := p]) == InFlight(ps) - ps[i].evicted + p.evicted
  {
    var n := |ps| - 1;
    if i == n {
      assert ps[i := p][..n] == ps[..n];
    } else {
      assert ps[i := p][..n] == ps[..n][i := p];
      InFlightSet(ps[..n], i, p);
    }
  }

  /** Observations that left the queue without being handled. */
  function Lost(fates: seq<bool>): nat {
    if fates == [] then 0 else Lost(fates[..|fates| - 1]) + (if fates[|fates| - 1] then 0 else 1)
  }

  /** The observations that left the queue by being handled, in put order. */
  function Chosen(puts: seq<M.Observation>, fates: seq<bool>): (r: seq<M.Observation>)
    requires |fates| <= |puts|
    ensures |r| == |fates| - Lost(fates)
  {
    if fates == [] then [] else
      var n := |fates| - 1;
      Chosen(puts, fates[..n]) + (if fates[n] then [puts[n]] else [])
  }

  /** The observations the worker handed to the processor, in order. */
  function Seen(log: seq<Work>): seq<M.Observation> {
    if log == [] then [] else
      var last := log[|log| - 1];
      Seen(log[..|log| - 1]) + (if last.ObserveWork? then [last.observation] else [])
  }

  lemma {:induction false} ChosenIgnoresLater(puts: seq<M.Observation>, more: seq<M.Observation>, fates: seq<bool>)
    requires |fates| <= |puts|
    ensures Chosen(puts + more, fates) == Chosen(puts, fates)
  {
    if fates != [] {
      ChosenIgnoresLater(puts, more, fates[..|fates| - 1]);
    }
  }

  lemma {:induction false} EvictionsChooseNothing(puts: seq<M.Observation>, fates: seq<bool>, n: nat)
    requires |fates| + n <= |puts|
    ensures Lost(fates + seq(n, _ => false)) == Lost(fates) + n
    ensures Chosen(puts, fates + seq(n, _ => false)) == Chosen(puts, fates)
    decreases n
  {
    var more := seq(n, _ => false);
    if n == 0 {
      assert fates + more == fates;
    } else {
      EvictionsChooseNothing(puts, fates, n - 1);
      assert (fates + more)[..|fates| + n - 1] == fates + seq(n - 1, _ => false);
    }
  }

  /** The put-order places of the handled observations. */
  function Places(fates: seq<bool>): (r: seq<nat>)
    ensures forall k :: 0 <= k < |r| ==> r[k] < |fates|
  {
    if fates == [] then [] else
      var n := |fates| - 1;
      Places(fates[..n]) + (if fates[n] then [n] else [])
  }

  lemma {:induction false} PlacesIncrease(fates: seq<bool>)
    ensures forall j, k :: 0 <= j < k < |Places(fates)| ==> Places(fates)[j] < Places(fates)[k]
  {
    if fates != [] {
      PlacesIncrease(fates[..|fates| - 1]);
    }
  }

  /** `Chosen` is the subsequence of `puts` at strictly increasing places. */
  lemma {:induction false} ChosenIsSubsequence(puts: seq<M.Observation>, fates: seq<bool>)
    requires |fates| <= |puts|
    ensures |Chosen(puts, fates)| == |Places(fates)|
    ensures forall k :: 0 <= k < |Places(fates)| ==> Chosen(puts, fates)[k] == puts[Places(fates)[k]]
  {
    if fates != [] {
      ChosenIsSubsequence(puts, fates[..|fates| - 1]);
    }
  }

  ghost predicate NoDrops(ms: seq<Message>) {
    forall m :: m in ms ==> !m.kind.ObservationDropped?
  }

  lemma {:induction false} NoDropsSum(ms: seq<Message>)
    requires NoDrops(ms)
    ensures DropSum(ms) == 0
  {
    if ms != [] {
      NoDropsSum(ms[..|ms| - 1]);
    }
  }

  /** The lane keeps drop reports in their own slot. */
  ghost predicate Sorted(l: Lane) {
    && l.items == []
    && (forall m :: m in l.dropped ==> m.kind.ObservationDropped?)
    && NoDrops(l.stats) && NoDrops(l.lifecycle)
    && NoDrops(Pending(l.force)) && NoDrops(Pending(l.reload)) && NoDrops(Pending(l.timer))
      && NoDrops(Pending(l.shutdown))
  }

  lemma DrainedDrops(l: Lane)
    requires Sorted(l)
    ensures DropSum(Drained(l)) == DropSum(l.dropped)
  {
    var before := Urgent(l) + l.stats;
    var after := l.lifecycle + l.items + (if l.force.Some? then [] else Pending(l.shutdown));
    assert Drained(l) == before + l.dropped + after;
    DropSumAppend(before + l.dropped, after);
    DropSumAppend(before, l.dropped);
    NoDropsSum(before);
    NoDropsSum(after);
  }

  /** A sent message adds exactly the drops it carries. */
  lemma PlacedDrops(l: Lane, m: Message)
    requires Sorted(l)
    requires m.kind.ObservationDropped? || m.kind.Stats? || IsLifecycle(m.kind) ==> Named(m)
    ensures Sorted(Placed(l, m))
    ensures DropSum(Placed(l, m).dropped) == DropSum(l.dropped) + (if m.kind.ObservationDropped? then m.drops else 0)
  {
    if m.kind.ObservationDropped? {
      var sum, i := Summed(l.dropped, m), Slot(l.dropped, m.point);
      if i < |l.dropped| {
        DropSumSet(l.dropped, i, sum);
      } else {
        DropSumAppend(l.dropped, [sum]);
      }
    }
  }

  // ---------------------------------------------------------------- the invariant

  ghost predicate QueueMatches(s: State) {
    && |s.fates| <= |s.puts| && s.queue == s.puts[|s.fates|..] && |s.queue| <= s.capacity
    && Seen(s.recorder.log) == Chosen(s.puts, s.fates)
  }

  ghost predicate DropsMatch(s: State) {
    && Sorted(s.lane)
    && s.recorder.ops.appDrops + DropSum(Batch(s.position)) + DropSum(s.lane.dropped) + InFlight(s.producers)
      == Lost(s.fates)
  }

  lemma {:induction false} NothingInFlight(ps: seq<Producer>)
    requires forall i :: 0 <= i < |ps| ==> ps[i].evicted == 0
    ensures InFlight(ps) == 0
  {
    if ps != [] {
      NothingInFlight(ps[..|ps| - 1]);
    }
  }

  // ---------------------------------------------------------------- every step keeps it

  lemma HandlingSeesNothing(r: Recorder, m: Message, w: World)
    requires Routable(r.ops, m)
    ensures Seen(Handled(r, m, w).log) == Seen(r.log)
  {
    if m.kind.TimerTick? {
      SeenMore(r.log, TickWork(m.at));
      RecoveringSeesNothing(Logged(r, TickWork(m.at)), m.at, w);
    } else if m.kind.ReloadRequest? {
      SeenMore(r.log, ReloadWork(w.reloaded));
    } else if m.kind.Stats? && m.stats.Some? {
      StatsSeeNothing(r, m);
    } else if IsLifecycle(m.kind) {
      SeenMore(r.log, NoticeWork(SourceNotice(m.kind, m.point.value, m.generation, m.detail)));
    }
  }

  lemma RefusingSeesNothing(r: Recorder, m: Message)
    requires Refusable(m) && Routable(r.ops, m)
    ensures Seen(Refused(r, m).log) == Seen(r.log)
  {
    if m.kind.ReloadRequest? {
      SeenMore(r.log, ReloadWork(None));
    } else {
      SeenMore(r.log, NoticeWork(SourceNotice(m.kind, m.point.value, m.generation, m.detail)));
    }
  }

  lemma TakingSeesNothing(r: Recorder, m: Message, w: World)
    requires Routable(r.ops, m)
    ensures Seen(Taken(r, m, w).log) == Seen(r.log)
  {
    if !StopsWorker(m) {
      HandlingSeesNothing(r, m, w);
    }
  }

  lemma StatsSeeNothing(r: Recorder, m: Message)
    requires m.stats.Some?
    ensures Seen(StatsCounted(r, m).log) == Seen(r.log)
  {
    var s := m.stats.value;
    SeenMore(r.log, NoticeWork(KernelNotice(s.point, s.generation, KernelDelta(r.ops, s.point, s.drops), s.drops)));
  }

  lemma RecoveringSeesNothing(r: Recorder, now: int, w: World)
    ensures Seen(Worker.Recovered(r, now, w).log) == Seen(r.log)
  {
    var o := Cleared(r.ops, AppQueueDrops);
    SeenMore(r.log, NoticeWork(GapNotice(AppQueueDrops, o.appDrops, r.appStart, now)));
    var a := AppCleared(r, now, w);
    var k := Cleared(a.ops, KernelDrops);
    SeenMore(a.log, NoticeWork(GapNotice(KernelDrops, k.kernelDrops, a.kernelStart, now)));
  }

  lemma SeenMore(log: seq<Work>, work: Work)
    ensures Seen(log + [work]) == Seen(log) + (if work.ObserveWork? then [work.observation] else [])
  {
    LogGrows(log, work);
  }

  /** Only drop reports change the drop total, by what they carry. */
  lemma HandlingCountsDrops(r: Recorder, m: Message, w: World)
    requires Routable(r.ops, m)
    ensures Handled(r, m, w).ops.appDrops == r.ops.appDrops + (if m.kind.ObservationDropped? then m.drops else 0)
  {
    if m.kind.TimerTick? {
      assert HandledTimer(r, m, w).ops.appDrops == r.ops.appDrops;
    } else if m.kind.ReloadRequest? {
      assert HandledReload(r, m, w).ops.appDrops == r.ops.appDrops;
    } else if m.kind.ObservationDropped? {
      assert HandledDrops(r, m).ops.appDrops == r.ops.appDrops + m.drops;
    } else if m.kind.Stats? && m.stats.Some? {
      assert HandledStats(r, m).ops.appDrops == r.ops.appDrops;
    } else if IsLifecycle(m.kind) {
      assert HandledLifecycle(r, m).ops.appDrops == r.ops.appDrops;
    }
  }

  lemma TakingCountsDrops(r: Recorder, m: Message, w: World)
    requires Routable(r.ops, m)
    ensures Taken(r, m, w).ops.appDrops == r.ops.appDrops + (if m.kind.ObservationDropped? then m.drops else 0)
  {
    if !StopsWorker(m) {
      HandlingCountsDrops(r, m, w);
    }
  }

  lemma PutKeepsQueue(s: State, i: nat, o: M.Observation)
    requires Sources(s) && QueueMatches(s) && i < |s.producers|
    ensures QueueMatches(AfterPut(s, i, o)) == true
    ensures |AfterPut(s, i, o).queue| <= s.capacity
    ensures Lost(AfterPut(s, i, o).fates) == Lost(s.fates) + Evicted(s.queue, s.capacity)
  {
    var n := Evicted(s.queue, s.capacity);
    var t := AfterPut(s, i, o);
    EvictionsChooseNothing(s.puts, s.fates, n);
    ChosenIgnoresLater(s.puts, [o], t.fates);
    assert t.puts[|t.fates|..] == s.puts[|t.fates|..] + [o];
    assert s.puts[|t.fates|..] == s.queue[n..];
  }

  lemma PopKeepsQueue(s: State, now: int, w: World, position: Position)
    requires QueueMatches(s) && s.queue != []
    ensures QueueMatches(AfterPop(s, now, w, position)) == true
    ensures Lost(AfterPop(s, now, w, position).fates) == Lost(s.fates)
  {
    var t := AfterPop(s, now, w, position);
    assert t.fates[..|s.fates|] == s.fates;
    assert s.queue[0] == s.puts[|s.fates|];
    SeenMore(s.recorder.log, ObserveWork(s.queue[0], Or(s.queue[0].monotonicAt, now)));
  }

  lemma WorkKeepsQueue(s: State, step: Step)
    requires QueueMatches(s) && Works(step) && Enabled(s, step)
    ensures QueueMatches(AfterWork(s, step)) == true
  {
    match step
    case PopStep(now, healthy) =>
      PopKeepsQueue(s, now, Around(s, 0, healthy, None), Observing(s.position.left - 1, s.position.timers));
    case RescueStep(now, healthy) => PopKeepsQueue(s, now, Around(s, 0, healthy, None), s.position);
    case HandleStep(cooldown, healthy, reloaded) =>
      TakingSeesNothing(s.recorder, s.position.batch[0], Around(s, cooldown, healthy, reloaded));
    case CrashStep(healthy) => RefusingSeesNothing(s.recorder, s.position.batch[0]);
    case TickStep(cooldown, healthy) =>
      HandlingSeesNothing(s.recorder, s.position.timers[0], Around(s, cooldown, healthy, None));
    case CloseStep(now) => SeenMore(s.recorder.log, CloseWork(now));
    case _ =>
  }

  lemma StepKeepsQueue(s: State, step: Step)
    requires Sources(s) && QueueMatches(s) && Enabled(s, step)
    ensures QueueMatches(Next(s, step)) == true
  {
    if Works(step) {
      WorkKeepsQueue(s, step);
    } else if step.PutStep? {
      PutKeepsQueue(s, step.i, step.observation);
    }
  }

  lemma DropSumHead(ms: seq<Message>)
    requires ms != []
    ensures DropSum(ms) == (if ms[0].kind.ObservationDropped? then ms[0].drops else 0) + DropSum(ms[1..])
  {
    assert ms == [ms[0]] + ms[1..];
    DropSumAppend([ms[0]], ms[1..]);
    assert [ms[0]][..0] == [];
  }

  lemma HandleKeepsDrops(s: State, w: World)
    requires DropsMatch(s) && s.position.Handling? && s.position.batch != []
      && Routable(s.recorder.ops, s.position.batch[0])
    ensures DropsMatch(AfterHandle(s, w)) == true
  {
    DropSumHead(s.position.batch);
    TakingCountsDrops(s.recorder, s.position.batch[0], w);
  }

  lemma CrashKeepsDrops(s: State, w: World)
    requires DropsMatch(s) && s.position.Handling? && s.position.batch != []
      && Refusable(s.position.batch[0]) && Routable(s.recorder.ops, s.position.batch[0])
    ensures DropsMatch(AfterCrash(s, w)) == true
  {
    DropSumHead(s.position.batch);
    assert Stricken(Refused(s.recorder, s.position.batch[0]), w).ops.appDrops == s.recorder.ops.appDrops;
  }

  /** A message sent by thread `i`, together with that thread's new state. */
  lemma SendKeepsDrops(s: State, i: nat, p: Producer, m: Message)
    requires DropsMatch(s) && i < |s.producers|
    requires m.kind.ObservationDropped? || m.kind.Stats? || IsLifecycle(m.kind) ==> Named(m)
    requires p.evicted + (if m.kind.ObservationDropped? then m.drops else 0) == s.producers[i].evicted
    ensures DropsMatch(Send(With(s, i, p), m)) == true
  {
    PlacedDrops(s.lane, m);
    InFlightSet(s.producers, i, p);
  }

  lemma SayKeepsDrops(s: State, step: Step)
    requires Sources(s) && DropsMatch(s) && Enabled(s, step) && Speaks(step)
    ensures DropsMatch(AfterSay(s, step)) == true
  {
    var p := s.producers[step.i];
    SendKeepsDrops(s, step.i, Moved(p, step), Words(p, step));
  }

  lemma PopKeepsDrops(s: State, now: int, w: World, position: Position)
    requires QueueMatches(s) && DropsMatch(s) && s.queue != [] && Batch(position) == Batch(s.position)
    ensures DropsMatch(AfterPop(s, now, w, position)) == true
  {
    PopKeepsQueue(s, now, w, position);
    assert Watched(s.recorder, s.queue[0], now, w).ops.appDrops == s.recorder.ops.appDrops;
  }

  lemma TickKeepsDrops(s: State, w: World)
    requires DropsMatch(s) && TimersOnly(s)
    requires s.position.Ticking? && s.position.timers != [] && Routable(s.recorder.ops, s.position.timers[0])
    ensures DropsMatch(AfterTick(s, w)) == true
  {
    assert s.position.timers[0] in Timers(s.position);
    HandlingCountsDrops(s.recorder, s.position.timers[0], w);
  }

  lemma DrainKeepsDrops(s: State)
    requires DropsMatch(s) && s.position.Idle?
    ensures DropsMatch(AfterDrain(s)) == true
  {
    DrainedDrops(s.lane);
  }

  lemma MoveKeepsDrops(s: State, r: Recorder, position: Position)
    requires DropsMatch(s) && Batch(position) == Batch(s.position) && r.ops.appDrops == s.recorder.ops.appDrops
    ensures DropsMatch(s.(recorder := r, position := position)) == true
  {
  }

  /** Steps that take a message or an observation. */
  predicate Takes(step: Step) {
    step.DrainStep? || step.HandleStep? || step.CrashStep? || step.PopStep? || step.TickStep? || step.RescueStep?
  }

  lemma TakingKeepsDrops(s: State, step: Step)
    requires TimersOnly(s) && QueueMatches(s) && DropsMatch(s) && Takes(step) && Enabled(s, step)
    ensures DropsMatch(AfterWork(s, step)) == true
  {
    match step
    case DrainStep => DrainKeepsDrops(s);
    case HandleStep(cooldown, healthy, reloaded) => HandleKeepsDrops(s, Around(s, cooldown, healthy, reloaded));
    case CrashStep(healthy) => CrashKeepsDrops(s, Around(s, 0, healthy, None));
    case PopStep(now, healthy) =>
      PopKeepsDrops(s, now, Around(s, 0, healthy, None), Observing(s.position.left - 1, s.position.timers));
    case TickStep(cooldown, healthy) => TickKeepsDrops(s, Around(s, cooldown, healthy, None));
    case RescueStep(now, healthy) => PopKeepsDrops(s, now, Around(s, 0, healthy, None), s.position);
    case _ =>
  }

  lemma TurningKeepsDrops(s: State, step: Step)
    requires DropsMatch(s) && Works(step) && !Takes(step) && Enabled(s, step)
    ensures DropsMatch(AfterWork(s, step)) == true
  {
    match step
    case CloseStep(now) => MoveKeepsDrops(s, Logged(s.recorder, CloseWork(now)), Closed(s.position.batch));
    case LimitStep => MoveKeepsDrops(s, s.recorder, AfterLimit(s).position);
    case TurnStep => MoveKeepsDrops(s, s.recorder, Ticking(s.position.timers));
    case FinishStep => MoveKeepsDrops(s, s.recorder, Idle);
    case QuitStep(healthy) => MoveKeepsDrops(s, Ending(s.recorder, Around(s, 0, healthy, None)), Closing([]));
    case _ =>
  }

  lemma WorkKeepsDrops(s: State, step: Step)
    requires TimersOnly(s) && QueueMatches(s) && DropsMatch(s) && Works(step) && Enabled(s, step)
    ensures DropsMatch(AfterWork(s, step)) == true
  {
    if Takes(step) {
      TakingKeepsDrops(s, step);
    } else {
      TurningKeepsDrops(s, step);
    }
  }

  lemma PutKeepsDrops(s: State, i: nat, o: M.Observation)
    requires Sources(s) && QueueMatches(s) && DropsMatch(s) && Enabled(s, PutStep(i, o))
    ensures DropsMatch(AfterPut(s, i, o)) == true
  {
    PutKeepsQueue(s, i, o);
    InFlightSet(s.producers, i, s.producers[i].(evicted := Evicted(s.queue, s.capacity)));
  }

  lemma RestKeepsDrops(s: State, step: Step)
    requires Sources(s) && QueueMatches(s) && DropsMatch(s) && !Works(step) && !Speaks(step) && Enabled(s, step)
    ensures DropsMatch(AfterRest(s, step)) == true
  {
    match step
    case ExitStep(i) => InFlightSet(s.producers, i, s.producers[i].(phase := Gone));
    case AskStopStep(i) => InFlightSet(s.producers, i, s.producers[i].(stopping := true));
    case PutStep(i, o) => PutKeepsDrops(s, i, o);
    case RequestStep(kind, at) => PlacedDrops(s.lane, Plain(kind, at));
    case _ =>
  }

  lemma StepKeepsDrops(s: State, step: Step)
    requires Sources(s) && TimersOnly(s) && QueueMatches(s) && DropsMatch(s) && Enabled(s, step)
    ensures DropsMatch(Next(s, step)) == true
  {
    if Works(step) {
      WorkKeepsDrops(s, step);
    } else if Speaks(step) {
      SayKeepsDrops(s, step);
    } else {
      RestKeepsDrops(s, step);
    }
  }

  lemma {:induction false} RunKeeps(start: State, steps: seq<Step>)
    requires Pipeline.Fresh(start) && Runs(start, steps)
    ensures Sources(End(start, steps)) && TimersOnly(End(start, steps))
    ensures QueueMatches(End(start, steps)) && DropsMatch(End(start, steps))
    decreases |steps|
  {
    if steps == [] {
      NothingInFlight(start.producers);
    } else {
      var before, step := End(start, steps[..|steps| - 1]), steps[|steps| - 1];
      RunKeeps(start, steps[..|steps| - 1]);
      StepKeepsSources(before, step);
      StepKeepsTimersOnly(before, step);
      StepKeepsQueue(before, step);
      StepKeepsDrops(before, step);
    }
  }

  // ---------------------------------------------------------------- the results

  /** After any interleaving: everything ever put is handled, queued, counted as dropped, or in a
      drop report not yet handled; the queue stays within its capacity. */
  lemma LossAccounting(start: State, steps: seq<Step>)
    requires Pipeline.Fresh(start) && Runs(start, steps)
    ensures var s := End(start, steps);
      && |s.puts| == |Seen(s.recorder.log)| + |s.queue| + s.recorder.ops.appDrops
                     + DropSum(Batch(s.position)) + DropSum(Drained(s.lane)) + InFlight(s.producers)
      && |s.queue| <= s.capacity
  {
    RunKeeps(start, steps);
    DrainedDrops(End(start, steps).lane);
  }

  /** The worker handles observations in the order they were put, none of them twice. */
  lemma HandledInPutOrder(start: State, steps: seq<Step>)
    requires Pipeline.Fresh(start) && Runs(start, steps)
    ensures var s := End(start, steps);
      var places := Places(s.fates);
      && |s.fates| <= |s.puts| && |places| == |Seen(s.recorder.log)|
      && (forall k :: 0 <= k < |places| ==> Seen(s.recorder.log)[k] == s.puts[places[k]])
      && (forall j, k :: 0 <= j < k < |places| ==> places[j] < places[k])
  {
    RunKeeps(start, steps);
    var s := End(start, steps);
    ChosenIsSubsequence(s.puts, s.fates);
    PlacesIncrease(s.fates);
  }
}
