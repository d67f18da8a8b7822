/** The pipeline worker as an object (pipeline.py): its sinks, its handlers and one undisturbed turn
    of its loop, each proved against the functions the step system is made of. */
module PipelineWorker {
  import opened Basics
  import M = Models
  import opened Control
  import opened OpsState
  import opened Worker
  import opened Pipeline
  import opened PipelineSettles

  // ---------------------------------------------------------------- one turn of the loop, on values

  predicate RoutableAll(o: Ops, ms: seq<Message>) { forall j :: 0 <= j < |ms| ==> Routable(o, ms[j]) }

  /** Whether the batch stops the worker. */
  predicate Stops(ms: seq<Message>) { exists j :: 0 <= j < |ms| && StopsWorker(ms[j]) }

  /** Messages up to and including the first that stops the worker. */
  function UpToStop(ms: seq<Message>): (r: seq<Message>)
    ensures |r| <= |ms| && r == ms[..|r|]
    ensures forall j :: 0 <= j < |r| - 1 ==> !StopsWorker(r[j])
    ensures Stops(ms) <==> r != [] && StopsWorker(r[|r| - 1])
    ensures !Stops(ms) ==> r == ms
  {
    if ms == [] then [] else if StopsWorker(ms[0]) then [ms[0]] else [ms[0]] + UpToStop(ms[1..])
  }

  /** The timers of a batch, set aside. */
  function TimersOf(ms: seq<Message>): seq<Message> {
    if ms == [] then [] else
      TimersOf(ms[..|ms| - 1]) + (if ms[|ms| - 1].kind.TimerTick? then [ms[|ms| - 1]] else [])
  }

  lemma HandlingKeepsKeys(r: Recorder, m: Message, w: World)
    requires Routable(r.ops, m)
    ensures Handled(r, m, w).ops.sources.Keys == r.ops.sources.Keys
  {
    if m.kind.Stats? && m.stats.Some? {
      StatsHandling(r, m, w);
    } else if IsLifecycle(m.kind) {
      LifecycleHandling(r, m, w);
    } else if !m.kind.Stats? {
      QuietHandling(r, m, w);
    }
  }

  /** All messages but the timers, in order. */
  function HandledAll(r: Recorder, ms: seq<Message>, w: World): (t: Recorder)
    requires RoutableAll(r.ops, ms)
    ensures t.ops.sources.Keys == r.ops.sources.Keys
  {
    if ms == [] then r else
      var n := |ms| - 1;
      var before := HandledAll(r, ms[..n], w);
      assert Routable(r.ops, ms[n]);
      if ms[n].kind.TimerTick? then before else
        HandlingKeepsKeys(before, ms[n], w);
        Handled(before, ms[n], w)
  }

  function WatchedAll(r: Recorder, os: seq<M.Observation>, now: int, healthy: bool): Recorder {
    if os == [] then r else
      Watched(WatchedAll(r, os[..|os| - 1], now, healthy), os[|os| - 1], now, World(0, 0, 0, healthy, None))
  }

  function TickedAll(r: Recorder, timers: seq<Message>, w: World): (t: Recorder)
    requires forall m :: m in timers ==> m.kind.TimerTick?
  {
    if timers == [] then r else Handled(TickedAll(r, timers[..|timers| - 1], w), timers[|timers| - 1], w)
  }

  lemma {:induction false} TimersOfTick(ms: seq<Message>)
    ensures forall m :: m in TimersOf(ms) ==> m.kind.TimerTick?
  {
    if ms != [] {
      TimersOfTick(ms[..|ms| - 1]);
    }
  }

  /** How many observations a turn takes: with a timer waiting, all that are queued by then. */
  function Quota(ms: seq<Message>, queued: nat): nat {
    if TimersOf(ms) != [] then queued else Min(OBSERVATION_BATCH, queued)
  }

  // ---------------------------------------------------------------- the object

  class PipelineWorker {
    const observations: ObservationQueue
    const control: ControlLane
    const ops: OperationalStateMachine
    const cooldown: int
    var appStart: Option<int>
    var kernelStart: Option<int>
    var lastApp: int
    var lastKernel: int
    var log: seq<Work>

    ghost function View(): Recorder
      reads this, ops
    {
      Recorder(ops.View(), appStart, kernelStart, lastApp, lastKernel, log)
    }

    ghost predicate Valid()
      reads this, observations
    {
      observations.capacity >= 1
    }

    ghost function Surroundings(healthy: bool, reloaded: Option<string>): World
      reads this, observations
    {
      World(|observations.items|, observations.capacity, cooldown, healthy, reloaded)
    }

    constructor (capacity: nat, points: set<string>, cooldown: int, policy: Option<string>)
      requires capacity >= 1
      ensures Valid() && fresh(observations) && fresh(control) && fresh(ops)
      ensures View() == Recorder(WithPolicy(Initial(points), policy), None, None, 0, 0, [])
      ensures observations.items == [] && control.View() == EMPTY_LANE
    {
      observations := new ObservationQueue(capacity);
      control := new ControlLane();
      ops := new OperationalStateMachine(points);
      this.cooldown := cooldown;
      appStart, kernelStart, lastApp, lastKernel, log := None, None, 0, 0, [];
      new;
      ops.SetPolicy(policy);
    }

    /** Called by capture threads: a put, and a report of what it evicted. */
    method ObservationSink(o: M.Observation, now: int)
      requires Valid()
      modifies observations, control
      ensures Valid()
      ensures var n := Evicted(old(observations.items), observations.capacity);
        && observations.items == old(observations.items)[n..] + [o]
        && control.View() ==
             if n == 0 then old(control.View()) else Placed(old(control.View()), Dropped(now, o.capturePoint, n))
    {
      var evicted := observations.PutDropOldest(o);
      if evicted != 0 {
        control.Put(Dropped(now, o.capturePoint, evicted));
      }
    }

    method Publish(healthy: bool)
      requires Valid()
      modifies ops
      ensures ops.View() == WithJournal(old(ops.View()), healthy)
    {
      ops.SetQueueDepth(observations.Size());
      ops.SetJournalHealthy(healthy);
    }

    method HandleObservation(o: M.Observation, now: int, healthy: bool)
      requires Valid()
      modifies `log, ops
      ensures View() == Watched(old(View()), o, now, Surroundings(healthy, None))
    {
      var lifecycle := if o.monotonicAt.Some? then o.monotonicAt.value else now;
      log := log + [ObserveWork(o, lifecycle)];
      Publish(healthy);
    }

    method HandleControl(m: Message, healthy: bool, reloaded: Option<string>)
      requires Valid() && Routable(ops.View(), m)
      modifies `appStart, `kernelStart, `lastApp, `lastKernel, `log, ops
      ensures View() == Handled(old(View()), m, Surroundings(healthy, reloaded))
    {
      if m.kind.TimerTick? {
        log := log + [TickWork(m.at)];
        MaybeClearDropReasons(m.at);
        Publish(healthy);
      } else if m.kind.ReloadRequest? {
        log := log + [ReloadWork(reloaded)];
        if reloaded.Some? {
          ops.SetPolicy(reloaded);
        }
        Publish(healthy);
      } else if m.kind.ObservationDropped? {
        ops.NoteAppDrops(m.drops);
        lastApp := m.at;
        if appStart.None? {
          appStart := Some(m.at);
        }
        Publish(healthy);
      } else if m.kind.Stats? && m.stats.Some? {
        HandleStats(m);
        Publish(healthy);
      } else if IsLifecycle(m.kind) {
        ops.SetSource(m.point.value, Update(LinkOf(m.kind), m.generation, m.detail, None, None));
        log := log + [NoticeWork(SourceNotice(m.kind, m.point.value, m.generation, m.detail))];
        Publish(healthy);
      }
    }

    method HandleStats(m: Message)
      requires m.stats.Some? && m.stats.value.point in ops.View().sources
      modifies `kernelStart, `lastKernel, `log, ops
      ensures View() == HandledStats(old(View()), m)
    {
      var s := m.stats.value;
      var delta := ops.NoteKernelDrops(s.point, s.drops);
      if delta != 0 {
        lastKernel := m.at;
        if kernelStart.None? {
          kernelStart := Some(m.at);
          log := log + [NoticeWork(KernelNotice(s.point, s.generation, delta, s.drops))];
        }
      }
      ops.SetSource(s.point, StatsUpdate(s));
    }

    /** Both tests look at the causes as they stood on entry. */
    method MaybeClearDropReasons(now: int)
      requires Valid()
      modifies `appStart, `kernelStart, `log, ops
      ensures forall healthy, reloaded :: View() == Worker.Recovered(old(View()), now, Surroundings(healthy, reloaded))
    {
      var depth := observations.Size();
      var causes := ops.causes;
      if AppQueueDrops in causes && 2 * depth < observations.capacity && now - lastApp >= cooldown {
        ops.Clear(AppQueueDrops);
        log := log + [NoticeWork(GapNotice(AppQueueDrops, ops.appDrops, appStart, now))];
        appStart := None;
      }
      if KernelDrops in causes && now - lastKernel >= cooldown {
        ops.Clear(KernelDrops);
        log := log + [NoticeWork(GapNotice(KernelDrops, ops.kernelDrops, kernelStart, now))];
        kernelStart := None;
      }
    }

    /** The batch in order, timers set aside, up to a message that stops the worker. */
    method RunBatch(messages: seq<Message>, healthy: bool, reloaded: Option<string>)
        returns (timers: seq<Message>, stop: bool)
      requires Valid() && RoutableAll(ops.View(), messages)
      modifies `appStart, `kernelStart, `lastApp, `lastKernel, `log, ops
      ensures stop == Stops(messages) && timers == TimersOf(UpToStop(messages))
      ensures View() == HandledAll(old(View()), UpToStop(messages), Surroundings(healthy, reloaded))
    {
      timers := [];
      ghost var w := Surroundings(healthy, reloaded);
      for i := 0 to |messages|
        invariant View() == HandledAll(old(View()), messages[..i], w)
        invariant timers == TimersOf(messages[..i])
        invariant forall j :: 0 <= j < i ==> !StopsWorker(messages[j])
      {
        assert messages[..i + 1][..i] == messages[..i];
        if messages[i].kind.TimerTick? {
          timers := timers + [messages[i]];
        } else {
          HandleControl(messages[i], healthy, reloaded);
          if StopsWorker(messages[i]) {
            StopsHere(messages, i);
            return timers, true;
          }
        }
      }
      assert messages[..|messages|] == messages;
      stop := false;
    }

    /** One turn of the loop with nobody else running. */
    method Turn(now: int, healthy: bool, reloaded: Option<string>) returns (stop: bool)
      requires Valid() && RoutableAll(ops.View(), Drained(control.View()))
      modifies `appStart, `kernelStart, `lastApp, `lastKernel, `log, ops, observations, control
      ensures Valid() && control.View() == EMPTY_LANE
      ensures var ms := Drained(old(control.View()));
        && stop == Stops(ms)
        && (stop ==> observations.items == old(observations.items)
                     && View() == HandledAll(old(View()), UpToStop(ms), old(Surroundings(healthy, reloaded))))
        && (!stop ==>
              var n := Quota(ms, |old(observations.items)|);
              && observations.items == old(observations.items)[n..]
              && (forall m :: m in TimersOf(ms) ==> m.kind.TimerTick?)
              && View() == TickedAll(
                   WatchedAll(HandledAll(old(View()), ms, old(Surroundings(healthy, reloaded))),
                              old(observations.items)[..n], now, healthy),
                   TimersOf(ms), Surroundings(healthy, None)))
    {
      var messages := control.Drain();
      var timers;
      timers, stop := RunBatch(messages, healthy, reloaded);
      if stop {
        return;
      }
      TimersOfTick(messages);
      var limit := if timers != [] then observations.Size() else OBSERVATION_BATCH;
      TakeObservations(limit, now, healthy);
      RunTimers(timers, healthy);
    }

    /** Mark, drain at most `budget` observations before the deadline unless forced, close everything. */
    method Shutdown(force: bool, budget: nat, now: int, healthy: bool)
      requires Valid()
      modifies `log, ops, observations
      ensures Valid()
      ensures var n := if force then 0 else Min(budget, |old(observations.items)|);
        && observations.items == old(observations.items)[n..]
        && View() == Logged(WatchedAll(Ending(old(View()), old(Surroundings(healthy, None))),
                                       old(observations.items)[..n], now, healthy),
                            CloseWork(now))
    {
      ops.MarkShutdown();
      Publish(healthy);
      if !force {
        TakeObservations(budget, now, healthy);
      }
      log := log + [CloseWork(now)];
    }

    /** A message whose system event is refused: the loop ends where the exception left it. */
    method HandleRefused(m: Message, healthy: bool)
      requires Valid() && Refusable(m) && Routable(ops.View(), m)
      modifies `log, ops
      ensures View() == Stricken(Refused(old(View()), m), Surroundings(healthy, None))
    {
      if m.kind.ReloadRequest? {
        log := log + [ReloadWork(None)];
      } else {
        ops.SetSource(m.point.value, Update(LinkOf(m.kind), m.generation, m.detail, None, None));
        log := log + [NoticeWork(SourceNotice(m.kind, m.point.value, m.generation, m.detail))];
      }
      Crash(healthy);
    }

    /** What the loop does when an exception ends it. */
    method Crash(healthy: bool)
      requires Valid()
      modifies ops
      ensures View() == Stricken(old(View()), Surroundings(healthy, None))
    {
      ops.MarkWorkerDead();
      Publish(healthy);
    }

    method TakeObservations(limit: nat, now: int, healthy: bool)
      requires Valid()
      modifies `log, ops, observations
      ensures Valid()
      ensures var n := Min(limit, |old(observations.items)|);
        && observations.items == old(observations.items)[n..]
        && View() == WatchedAll(old(View()), old(observations.items)[..n], now, healthy)
    {
      ghost var queued := observations.items;
      for processed := 0 to limit
        invariant processed <= |queued| && observations.items == queued[processed..]
        invariant View() == WatchedAll(old(View()), queued[..processed], now, healthy)
      {
        var item := observations.Get([]);
        if item.None? {
          return;
        }
        assert queued[..processed + 1][..processed] == queued[..processed];
        HandleObservation(item.value, now, healthy);
      }
    }

    method RunTimers(timers: seq<Message>, healthy: bool)
      requires Valid() && forall m :: m in timers ==> m.kind.TimerTick?
      modifies `appStart, `kernelStart, `lastApp, `lastKernel, `log, ops
      ensures View() == TickedAll(old(View()), timers, Surroundings(healthy, None))
    {
      ghost var w := Surroundings(healthy, None);
      for i := 0 to |timers|
        invariant View() == TickedAll(old(View()), timers[..i], w)
      {
        assert timers[..i + 1][..i] == timers[..i];
        HandleControl(timers[i], healthy, None);
      }
      assert timers[..|timers|] == timers;
    }
  }

  lemma {:induction false} StopsHere(ms: seq<Message>, i: nat)
    requires i < |ms| && StopsWorker(ms[i]) && forall j :: 0 <= j < i ==> !StopsWorker(ms[j])
    ensures UpToStop(ms) == ms[..i + 1]
  {
    if i > 0 {
      StopsHere(ms[1..], i - 1);
    }
  }
}
