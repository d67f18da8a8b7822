/** The operational state machine (ops_state.py): causes of degradation, drop totals, and what is
    known of each capture point. */
module OpsState {
  import opened Basics

  datatype Cause =
    | CapturePointUnavailable | KernelDrops | AppQueueDrops
    | WorkerDead | JournalUnavailable | NoPolicy | ShuttingDown

  datatype Status = Starting | Ready | Degraded | Stopping

  /** The lifecycle state recorded for a capture point. */
  datatype Link = Unstarted | Up | Down | Retry | Halted

  datatype Source = Source(link: Link, generation: Option<string>, lastError: Option<string>, packets: nat, drops: nat)

  const NEW_SOURCE := Source(Unstarted, None, None, 0, 0)

  datatype Ops = Ops(
    status: Status,
    causes: set<Cause>,
    policy: Option<string>,
    appDrops: nat,
    kernelDrops: nat,
    sources: map<string, Source>,
    lastKernel: map<string, nat>
  )

  function Initial(points: set<string>): Ops {
    Ops(Starting, {}, None, 0, 0, map p | p in points :: NEW_SOURCE, map p | p in points :: 0)
  }

  predicate HasPolicy(o: Ops) { o.policy.Some? && o.policy.value != "" }

  predicate AllUp(sources: map<string, Source>) {
    forall p :: p in sources ==> sources[p].link.Up?
  }

  /** What the status must be, given everything else. */
  function Classified(o: Ops): Status {
    if ShuttingDown in o.causes || o.status.Stopping? then Stopping
    else if o.causes != {} then Degraded
    else if AllUp(o.sources) && HasPolicy(o) then Ready
    else Starting
  }

  function Recomputed(o: Ops): Ops { o.(status := Classified(o)) }

  function Raised(o: Ops, cause: Cause): Ops { Recomputed(o.(causes := o.causes + {cause})) }

  function Cleared(o: Ops, cause: Cause): Ops { Recomputed(o.(causes := o.causes - {cause})) }

  function WithPolicy(o: Ops, policy: Option<string>): Ops {
    var next := o.(policy := policy);
    if HasPolicy(next) then Cleared(next, NoPolicy) else Raised(next, NoPolicy)
  }

  function WithAppDrops(o: Ops, count: nat): Ops {
    if count == 0 then o else Raised(o.(appDrops := o.appDrops + count), AppQueueDrops)
  }

  /** Cumulative counter of a point against the one seen before; a smaller total counts nothing. */
  function KernelDelta(o: Ops, point: string, total: nat): nat {
    Max(0, total - (if point in o.lastKernel then o.lastKernel[point] else 0))
  }

  function WithKernelDrops(o: Ops, point: string, total: nat): Ops {
    var delta := KernelDelta(o, point, total);
    var next := o.(lastKernel := o.lastKernel[point := total], kernelDrops := o.kernelDrops + delta);
    if delta == 0 then next else Raised(next, KernelDrops)
  }

  function WithJournal(o: Ops, healthy: bool): Ops {
    if healthy == (JournalUnavailable !in o.causes) then o
    else if healthy then Cleared(o, JournalUnavailable) else Raised(o, JournalUnavailable)
  }

  /** An update of one capture point; absent values keep what is recorded. */
  datatype Update = Update(link: Link, generation: Option<string>, error: Option<string>, packets: Option<nat>,
    drops: Option<nat>)

  function Or<T>(a: Option<T>, b: T): T { if a.Some? then a.value else b }

  function Patched(s: Source, u: Update): Source {
    Source(u.link,
           if u.generation.Some? then u.generation else s.generation,
           if u.error.Some? || u.link.Up? || u.link.Halted? then u.error else s.lastError,
           Or(u.packets, s.packets),
           Or(u.drops, s.drops))
  }

  function Refreshed(o: Ops): Ops {
    if AllUp(o.sources) then o.(causes := o.causes - {CapturePointUnavailable})
    else if !o.status.Stopping? && ShuttingDown !in o.causes then o.(causes := o.causes + {CapturePointUnavailable})
    else o
  }

  function WithSource(o: Ops, point: string, u: Update): Ops
    requires point in o.sources
  {
    Recomputed(Refreshed(o.(sources := o.sources[point := Patched(o.sources[point], u)])))
  }

  // ---------------------------------------------------------------- runs of calls

  datatype Call =
    | SetPolicyCall(policy: Option<string>)
    | AppDropsCall(count: nat)
    | ClearAppCall
    | KernelDropsCall(point: string, total: nat)
    | ClearKernelCall
    | JournalCall(healthy: bool)
    | SourceCall(point: string, update: Update)
    | ShutdownCall
    | WorkerDeadCall

  /** A source that is not configured is a lookup error in the original; callers pass known points. */
  function Called(o: Ops, c: Call): Ops {
    match c
    case SetPolicyCall(policy) => WithPolicy(o, policy)
    case AppDropsCall(count) => WithAppDrops(o, count)
    case ClearAppCall => Cleared(o, AppQueueDrops)
    case KernelDropsCall(point, total) => WithKernelDrops(o, point, total)
    case ClearKernelCall => Cleared(o, KernelDrops)
    case JournalCall(healthy) => WithJournal(o, healthy)
    case SourceCall(point, update) => if point in o.sources then WithSource(o, point, update) else o
    case ShutdownCall => Raised(o, ShuttingDown)
    case WorkerDeadCall => Raised(o, WorkerDead)
  }

  function CalledAll(points: set<string>, calls: seq<Call>): Ops {
    if calls == [] then Initial(points) else Called(CalledAll(points, calls[..|calls| - 1]), calls[|calls| - 1])
  }

  /** After any calls: the status is determined by the causes, sources and policy; stopping is for
      ever; and the capture cause never outlives the last source that is down. */
  ghost predicate Sound(o: Ops) {
    && o.status == Classified(o)
    && (o.status.Stopping? <==> ShuttingDown in o.causes)
    && (CapturePointUnavailable in o.causes ==> !AllUp(o.sources))
  }

  lemma {:induction false} StatusIsSound(points: set<string>, calls: seq<Call>)
    ensures Sound(CalledAll(points, calls))
    ensures CalledAll(points, calls).sources.Keys == points
  {
    if calls != [] {
      var o, c := CalledAll(points, calls[..|calls| - 1]), calls[|calls| - 1];
      StatusIsSound(points, calls[..|calls| - 1]);
      CallKeepsSound(o, c);
    }
  }

  lemma CallKeepsSound(o: Ops, c: Call)
    requires Sound(o)
    ensures Sound(Called(o, c)) == true
    ensures Called(o, c).sources.Keys == o.sources.Keys
  {
    match c
    case SetPolicyCall(policy) => RecomputeIsSound(o.(policy := policy, causes := WithPolicy(o, policy).causes));
    case AppDropsCall(count) => RecomputeIsSound(o.(appDrops := o.appDrops + count,
      causes := o.causes + {AppQueueDrops}));
    case ClearAppCall => RecomputeIsSound(o.(causes := o.causes - {AppQueueDrops}));
    case KernelDropsCall(point, total) =>
      var counted := o.(lastKernel := o.lastKernel[point := total],
        kernelDrops := o.kernelDrops + KernelDelta(o, point, total));
      RecomputeIsSound(counted.(causes := o.causes + {KernelDrops}));
    case ClearKernelCall => RecomputeIsSound(o.(causes := o.causes - {KernelDrops}));
    case JournalCall(healthy) =>
      RecomputeIsSound(o.(causes := o.causes + {JournalUnavailable}));
      RecomputeIsSound(o.(causes := o.causes - {JournalUnavailable}));
    case SourceCall(point, u) =>
      if point in o.sources {
        RecomputeIsSound(Refreshed(o.(sources := o.sources[point := Patched(o.sources[point], u)])));
      }
    case ShutdownCall => RecomputeIsSound(o.(causes := o.causes + {ShuttingDown}));
    case WorkerDeadCall => RecomputeIsSound(o.(causes := o.causes + {WorkerDead}));
  }

  lemma RecomputeIsSound(o: Ops)
    requires o.status.Stopping? ==> ShuttingDown in o.causes
    requires CapturePointUnavailable in o.causes ==> !AllUp(o.sources)
    ensures Sound(Recomputed(o)) == true
  {
  }

  /** After any calls, which state it is: stopping once a shutdown was marked, else degraded by any reason, else
      ready when every source is up and a policy is loaded, else starting. */
  lemma {:induction false} StatusExactly(points: set<string>, calls: seq<Call>)
    ensures var o := CalledAll(points, calls);
      && (o.status == Stopping <==> ShutdownCall in calls)
      && (o.status == Degraded <==> ShutdownCall !in calls && o.causes != {})
      && (o.status == Ready <==>
            o.causes == {} && o.policy.Some? && o.policy.value != ""
            && forall p :: p in o.sources ==> o.sources[p].link == Up)
  {
    StatusIsSound(points, calls);
    ShutdownStands(points, calls);
  }

  lemma {:induction false} ShutdownStands(points: set<string>, calls: seq<Call>)
    ensures ShuttingDown in CalledAll(points, calls).causes <==> ShutdownCall in calls
  {
    if calls != [] {
      var front, c := calls[..|calls| - 1], calls[|calls| - 1];
      ShutdownStands(points, front);
      assert calls == front + [c];
      ShutdownStep(CalledAll(points, front), c);
    }
  }

  lemma ShutdownStep(o: Ops, c: Call)
    ensures ShuttingDown in Called(o, c).causes <==> ShuttingDown in o.causes || c == ShutdownCall
  {
  }

  /** The sensor is ready iff nothing is wrong, every source is up and a policy is loaded. */
  lemma {:induction false} ReadyExactly(points: set<string>, calls: seq<Call>)
    ensures var o := CalledAll(points, calls);
      o.status.Ready? <==> o.causes == {} && AllUp(o.sources) && HasPolicy(o)
  {
    StatusIsSound(points, calls);
  }

  /** While the sensor is not stopping, the last report on a source decides the capture cause. */
  lemma {:induction false} CaptureCauseExact(points: set<string>, calls: seq<Call>, point: string, u: Update)
    requires point in points
    ensures var o := CalledAll(points, calls + [SourceCall(point, u)]);
      !o.status.Stopping? ==> (CapturePointUnavailable in o.causes <==> !AllUp(o.sources))
  {
    assert (calls + [SourceCall(point, u)])[..|calls|] == calls;
    StatusIsSound(points, calls);
  }

  lemma {:induction false} StoppingIsFinal(points: set<string>, calls: seq<Call>, more: seq<Call>)
    requires CalledAll(points, calls).status.Stopping?
    ensures CalledAll(points, calls + more).status.Stopping?
  {
    if more == [] {
      assert calls + more == calls;
    } else {
      var n := |more| - 1;
      StoppingIsFinal(points, calls, more[..n]);
      StatusIsSound(points, calls + more[..n]);
      assert (calls + more)[..|calls| + n] == calls + more[..n];
    }
  }

  // ---------------------------------------------------------------- the class

  class OperationalStateMachine {
    var status: Status
    var causes: set<Cause>
    var policy: Option<string>
    var queueDepth: nat
    var appDrops: nat
    var kernelDrops: nat
    var sources: map<string, Source>
    var lastKernel: map<string, nat>

    ghost function View(): Ops
      reads this
    {
      Ops(status, causes, policy, appDrops, kernelDrops, sources, lastKernel)
    }

    constructor (points: set<string>)
      ensures View() == Initial(points)
    {
      status, causes, policy, queueDepth, appDrops, kernelDrops := Starting, {}, None, 0, 0, 0;
      sources, lastKernel := map p | p in points :: NEW_SOURCE, map p | p in points :: 0;
    }

    method SetPolicy(revision: Option<string>)
      modifies this
      ensures View() == WithPolicy(old(View()), revision)
    {
      policy := revision;
      if revision.Some? && revision.value != "" {
        causes := causes - {NoPolicy};
      } else {
        causes := causes + {NoPolicy};
      }
      Recompute();
    }

    method SetQueueDepth(depth: nat)
      modifies `queueDepth
      ensures queueDepth == depth
    {
      queueDepth := depth;
    }

    method NoteAppDrops(count: nat)
      modifies this
      ensures View() == WithAppDrops(old(View()), count)
    {
      if count <= 0 {
        return;
      }
      appDrops := appDrops + count;
      causes := causes + {AppQueueDrops};
      Recompute();
    }

    method Clear(cause: Cause)
      modifies this
      ensures View() == Cleared(old(View()), cause)
    {
      causes := causes - {cause};
      Recompute();
    }

    method NoteKernelDrops(point: string, total: nat) returns (delta: nat)
      modifies this
      ensures View() == WithKernelDrops(old(View()), point, total)
      ensures delta == KernelDelta(old(View()), point, total)
    {
      var previous := if point in lastKernel then lastKernel[point] else 0;
      delta := Max(0, total - previous);
      lastKernel := lastKernel[point := total];
      if delta != 0 {
        kernelDrops := kernelDrops + delta;
        causes := causes + {KernelDrops};
        Recompute();
      }
    }

    method SetJournalHealthy(healthy: bool)
      modifies this
      ensures View() == WithJournal(old(View()), healthy)
    {
      var unavailable := JournalUnavailable in causes;
      if healthy == !unavailable {
        return;
      }
      if healthy {
        causes := causes - {JournalUnavailable};
      } else {
        causes := causes + {JournalUnavailable};
      }
      Recompute();
    }

    method SetSource(point: string, u: Update)
      requires point in sources
      modifies this
      ensures View() == WithSource(old(View()), point, u)
    {
      var source := sources[point].(link := u.link);
      if u.generation.Some? {
        source := source.(generation := u.generation);
      }
      if u.error.Some? || u.link.Up? || u.link.Halted? {
        source := source.(lastError := u.error);
      }
      if u.packets.Some? {
        source := source.(packets := u.packets.value);
      }
      if u.drops.Some? {
        source := source.(drops := u.drops.value);
      }
      sources := sources[point := source];
      RefreshCaptureReason();
      Recompute();
    }

    method MarkShutdown()
      modifies this
      ensures View() == Raised(old(View()), ShuttingDown)
    {
      causes := causes + {ShuttingDown};
      status := Stopping;
      Recompute();
    }

    method MarkWorkerDead()
      modifies this
      ensures View() == Raised(old(View()), WorkerDead)
    {
      causes := causes + {WorkerDead};
      Recompute();
    }

    method RefreshCaptureReason()
      modifies `causes
      ensures View() == Refreshed(old(View()))
    {
      if !AllUp(sources) {
        if status != Stopping && ShuttingDown !in causes {
          causes := causes + {CapturePointUnavailable};
        }
      } else {
        causes := causes - {CapturePointUnavailable};
      }
    }

    /** Any cause degrades, so the original's second look, at a sensor still starting, never fires. */
    method Recompute()
      modifies `status
      ensures View() == Recomputed(old(View()))
    {
      if ShuttingDown in causes || status == Stopping {
        status := Stopping;
      } else if causes != {} {
        status := if status != Starting || causes != {} then Degraded else Starting;
        assert status == Degraded;
      } else if AllUp(sources) && policy.Some? && policy.value != "" {
        status := Ready;
      } else {
        status := Starting;
      }
    }
  }
}
