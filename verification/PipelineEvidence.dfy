/** From the sources to the evidence: whatever the interleaving, the run of the episode processor that
    the worker's log asks for accounts for every observation ever put. */
module PipelineEvidence {
  import opened Basics
  import M = Models
  import E = Evidence
  import opened Control
  import opened OpsState
  import opened Worker
  import opened Pipeline
  import opened PipelineRuns
  import opened PipelineLoss
  import Processing
  import R = Runs
  import Ledger
  import TraceGrammar

  function NameOf(n: Notice): M.SystemName {
    match n
    case KernelNotice(_, _, _, _) => M.KernelDropsObserved
    case GapNotice(_, _, _, _) => M.CoverageGap
    case SourceNotice(kind, _, _, _) =>
      if kind.Established? then M.SourceEstablished
      else if kind.Recovered? then M.SourceRecovered
      else if kind.Failed? then M.SourceFailed
      else if kind.Retrying? then M.SourceRetrying
      else M.SourceStopped
  }

  function TextOrNull(text: Option<string>): M.Value { if text.Some? then M.Text(text.value) else M.Null }

  function CauseText(cause: Cause): string { if cause == AppQueueDrops then "app_queue_drops" else "kernel_drops" }

  /** The fields of a notice's event; how a clock reading is written comes from outside. */
  predicate Carries(n: Notice, fields: seq<M.Member>) {
    match n
    case KernelNotice(point, generation, delta, total) =>
      fields == [M.Member("capture_point", M.Text(point)), M.Member("source_generation", M.Text(generation)),
                 M.Member("delta", M.Number(E.Decimal(delta))), M.Member("total", M.Number(E.Decimal(total)))]
    case GapNotice(cause, drops, start, _) =>
      && |fields| == 4 && fields[..2] == [M.Member("cause", M.Text(CauseText(cause))),
                                          M.Member("drops", M.Number(E.Decimal(drops)))]
      && fields[2].key == "interval_start" && (if start.Some? then fields[2].value.Number? else fields[2].value.Null?)
      && fields[3].key == "interval_end" && fields[3].value.Number?
    case SourceNotice(_, point, generation, detail) =>
      fields == [M.Member("capture_point", M.Text(point)), M.Member("source_generation", TextOrNull(generation)),
                 M.Member("detail", TextOrNull(detail))]
  }

  /** `op` is the call of the processor in state `s` that the log entry stands for.  What a reload
      loads, the times it reads and the times of emission come from outside. */
  predicate Serves(work: Work, s: Processing.State, op: Processing.Op) {
    match work
    case ObserveWork(o, t) => op.ObserveOp? && op.observation == o && op.time == t
    case TickWork(t) => op.TickOp? && op.time == t
    case ReloadWork(reloaded) =>
      || (op.ReloadFailedOp? && reloaded.None?)
      || (op.ReloadOp? && reloaded == if Processing.Swaps(s, op.config) then Some(op.config.revision) else None)
    case NoticeWork(n) => op.SystemOp? && op.name == NameOf(n) && Carries(n, op.fields)
    case CloseWork(t) => op.CloseAllOp? && op.time == t && op.reason == M.Shutdown
  }

  ghost predicate Serving(log: seq<Work>, config: M.Config, ops: seq<Processing.Op>) {
    && R.ValidRun(config, ops) && |log| == |ops|
    && forall i :: 0 <= i < |log| ==> Serves(log[i], R.After(config, ops[..i]), ops[i])
  }

  /** The call's system event is refused, before or after it took a number. */
  predicate Refuses(op: Processing.Op) {
    match op
    case ReloadFailedOp(detail, frame, _) => E.CheckOf(M.PolicyReloadFailed, E.LoadError(detail), frame) != E.Accepted
    case SystemOp(name, fields, frame, _) => E.CheckOf(name, E.Cleaned(fields), frame) != E.Accepted
    case _ => false
  }

  /** The calls the worker makes of the processor up to the state `s`: an event is refused exactly
      when that ended the worker. */
  ghost predicate Asks(s: State, config: M.Config, ops: seq<Processing.Op>) {
    && Serving(s.recorder.log, config, ops)
    && forall i :: 0 <= i < |ops| ==> (Refuses(ops[i]) <==> s.position.Dead? && i == |ops| - 1)
  }

  lemma ServingFront(log: seq<Work>, config: M.Config, ops: seq<Processing.Op>)
    requires Serving(log, config, ops) && log != []
    ensures var n := |log| - 1;
      Serving(log[..n], config, ops[..n]) && Serves(log[n], R.After(config, ops[..n]), ops[n])
  {
    var n := |log| - 1;
    forall i | 0 <= i < n ensures Serves(log[..n][i], R.After(config, ops[..n][..i]), ops[..n][i]) {
      assert ops[..n][..i] == ops[..i] && Serves(log[i], R.After(config, ops[..i]), ops[i]);
    }
  }

  /** The processor counts exactly the observations the worker handed over. */
  lemma {:induction false} ObservationsCounted(log: seq<Work>, config: M.Config, ops: seq<Processing.Op>)
    requires Serving(log, config, ops)
    ensures R.After(config, ops).counts.observations == |Seen(log)|
  {
    if log != [] {
      var n := |log| - 1;
      ServingFront(log, config, ops);
      ObservationsCounted(log[..n], config, ops[..n]);
      var s := R.After(config, ops[..n]);
      Ledger.PhasesCountNoObservations(
        if ops[n].ObserveOp?
        then Processing.CountObservation(s.counts, ops[n].observation,
          |Processing.MatchedRules(s.config, ops[n].observation)|)
        else s.counts, Processing.StepOut(s, ops[n]));
    }
  }

  /** Only the worker's close ends the log with a close. */
  predicate ClosedLast(s: State) {
    s.position.Closed? ==> s.recorder.log != [] && s.recorder.log[|s.recorder.log| - 1].CloseWork?
  }

  lemma StepKeepsClosedLast(s: State, step: Step)
    requires s.capacity >= 1 && Enabled(s, step) && ClosedLast(s)
    ensures ClosedLast(Next(s, step))
  {
  }

  lemma {:induction false} RunKeepsClosedLast(start: State, steps: seq<Step>)
    requires Fresh(start) && Runs(start, steps)
    ensures ClosedLast(End(start, steps))
    decreases |steps|
  {
    if steps != [] {
      var front, step, before := LastStep(start, steps);
      RunKeepsClosedLast(start, front);
      StepKeepsClosedLast(before, step);
    }
  }

  /** At every moment of every run: everything ever put was counted by the processor, is queued, or is
      counted or about to be counted as dropped. */
  lemma LiveAccounting(start: State, steps: seq<Step>, config: M.Config, ops: seq<Processing.Op>)
    requires Fresh(start) && Runs(start, steps) && Asks(End(start, steps), config, ops)
    ensures var s := End(start, steps);
      |s.puts| == R.After(config, ops).counts.observations + |s.queue| + s.recorder.ops.appDrops
                  + DropSum(Batch(s.position)) + DropSum(Drained(s.lane)) + InFlight(s.producers)
  {
    LossAccounting(start, steps);
    ObservationsCounted(End(start, steps).recorder.log, config, ops);
  }

  /** A refused event that took a number ends the worker, so nothing follows it. */
  lemma OnlyLastRefused(s: State, config: M.Config, ops: seq<Processing.Op>)
    requires Asks(s, config, ops)
    ensures ops != [] ==> TraceGrammar.NoneOversized(ops[..|ops| - 1])
  {
    if ops != [] {
      var front := ops[..|ops| - 1];
      forall k | 0 <= k < |front| ensures !TraceGrammar.Swallowed(front[k]) {
        assert !Refuses(ops[k]);
      }
    }
  }

  lemma NoForgery(log: seq<Work>, config: M.Config, ops: seq<Processing.Op>)
    requires Serving(log, config, ops)
    ensures TraceGrammar.NoForgedReload(ops)
  {
    forall op | op in ops ensures op.SystemOp? ==> op.name != M.PolicyReloadSuccess {
      var i :| 0 <= i < |ops| && ops[i] == op;
      NoticesAreNoReloads(log[i], R.After(config, ops[..i]), op);
    }
  }

  lemma NoticesAreNoReloads(work: Work, s: Processing.State, op: Processing.Op)
    requires Serves(work, s, op)
    ensures op.SystemOp? ==> op.name != M.PolicyReloadSuccess
  {
  }

  /** The evidence of every run follows the trace grammar: each envelope carries the revision of the
      last successful reload, and the numbers never have a gap. */
  lemma LiveTrace(start: State, steps: seq<Step>, config: M.Config, ops: seq<Processing.Op>)
    requires Fresh(start) && Runs(start, steps) && Asks(End(start, steps), config, ops)
    ensures TraceGrammar.RevisionsFollow(R.Trace(config, ops), config.revision)
    ensures TraceGrammar.GapFree(R.Trace(config, ops))
  {
    NoForgery(End(start, steps).recorder.log, config, ops);
    TraceGrammar.RevisionsInTrace(config, ops);
    OnlyLastRefused(End(start, steps), config, ops);
    TraceGrammar.OnlyLastOversized(config, ops);
  }

  /** Once the worker has closed, nothing is open, and the closes account for every match of every
      observation it handled. */
  lemma ClosedAccountsForEveryMatch(start: State, steps: seq<Step>, config: M.Config, ops: seq<Processing.Op>,
      m: Ledger.Measure)
    requires Fresh(start) && Runs(start, steps) && End(start, steps).position.Closed?
    requires Asks(End(start, steps), config, ops)
    ensures R.After(config, ops).table.open == []
    ensures Ledger.Settled(m, R.Transitions(config, ops)) == Ledger.Charged(m, config, ops)
  {
    var log := End(start, steps).recorder.log;
    RunKeepsClosedLast(start, steps);
    ServingFront(log, config, ops);
    Ledger.Conservation(m, config, ops);
  }
}
