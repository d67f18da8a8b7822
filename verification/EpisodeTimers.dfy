/** The timers over whole runs: no open episode goes without a report for as long as the progress
    interval, nor without a match for as long as the idle time. */
module EpisodeTimers {
  import opened Basics
  import opened Models
  import opened Episodes
  import opened Policy
  import opened Processing
  import opened Runs
  import opened TraceGrammar
  import opened EpisodeFlows

  /** A start or progress of the episode at its time of last report. */
  ghost predicate Reported(ts: seq<Transition>, e: Record) {
    exists i :: 0 <= i < |ts| && ts[i].episodeId == e.id && !ts[i].phase.Close? && ts[i].lifecycleTime == e.lastProgress
  }

  ghost predicate AllReported(ts: seq<Transition>, open: seq<Record>) {
    forall e :: e in open ==> Reported(ts, e)
  }

  /** Neither timer is due at `now`. */
  predicate NothingDue(c: Settings, open: seq<Record>, now: int) {
    forall e :: e in open ==> now - e.lastProgress < c.progress && now - e.lastLifecycle < c.idle
  }

  lemma ReportedMore(ts: seq<Transition>, more: seq<Transition>, e: Record)
    requires Reported(ts, e)
    ensures Reported(ts + more, e)
  {
    var i :| 0 <= i < |ts| && ts[i].episodeId == e.id && !ts[i].phase.Close? && ts[i].lifecycleTime == e.lastProgress;
    assert (ts + more)[i] == ts[i];
  }

  lemma ReportedLast(ts: seq<Transition>, t: Transition, e: Record)
    requires t.episodeId == e.id && !t.phase.Close? && t.lifecycleTime == e.lastProgress
    ensures Reported(ts + [t], e)
  {
    assert (ts + [t])[|ts|] == t;
  }

  lemma {:induction false} TimersReport(ts: seq<Transition>, c: Settings, open: seq<Record>, now: int)
    requires AllReported(ts, open) && c.progress > 0
    ensures AllReported(ts + AdvancedOut(c, open, now), Advanced(c, open, now))
    ensures NothingDue(c, Advanced(c, open, now), now)
    decreases |open|
  {
    if open != [] {
      var e, out, rest := open[0], TickedOut(c, open[0], now), open[1..];
      forall f | f in rest ensures Reported(ts + out, f) {
        ReportedMore(ts, out, f);
      }
      TimersReport(ts + out, c, rest, now);
      Appended(ts, out, AdvancedOut(c, rest, now), AdvancedOut(c, open, now));
      if !IdleAt(c, e, now) {
        if ProgressAt(c, e, now) {
          ReportedLast(ts, Report(e, Progress, now, false, None), Ticked(c, e, now));
        } else {
          NothingAfter(ts);
        }
        ReportedMore(ts + out, AdvancedOut(c, rest, now), Ticked(c, e, now));
      }
    }
  }

  lemma MatchReports(ts: seq<Transition>, c: Settings, t: Table, rule: PolicyRule, o: Observation, revision: string,
      now: int)
    requires AllReported(ts, t.open) && NothingDue(c, t.open, now) && c.progress > 0 && c.idle > 0
    ensures var after := Observed(c, t, rule, o, revision, now);
      AllReported(ts + ObservedOut(c, t, rule, o, revision, now), after.open) && NothingDue(c, after.open, now)
  {
    var k, out := Find(t.open, KeyOf(rule, o, revision)), ObservedOut(c, t, rule, o, revision, now);
    var after := Observed(c, t, rule, o, revision, now);
    var start := Report(Opened(t.nextId, KeyOf(rule, o, revision), rule, o, now), Start, now, false, None);
    forall e | e in after.open ensures Reported(ts + out, e) && now - e.lastProgress < c.progress
                                       && now - e.lastLifecycle < c.idle {
      if e in t.open {
        ReportedMore(ts, out, e);
      } else if k < |t.open| {
        assert e == Updated(t.open[k], o, now) && t.open[k] in t.open;
        ReportedMore(ts, out, t.open[k]);
      } else {
        ReportedLast(ts + out[..|out| - 1], start, e);
        assert ts + out[..|out| - 1] + [start] == ts + out;
      }
    }
  }

  lemma {:induction false} MatchesReport(ts: seq<Transition>, c: Settings, t: Table, rules: seq<PolicyRule>,
      o: Observation, revision: string, now: int)
    requires AllReported(ts, t.open) && NothingDue(c, t.open, now) && c.progress > 0 && c.idle > 0
    ensures var after := ObservedAll(c, t, rules, o, revision, now);
      AllReported(ts + ObservedAllOut(c, t, rules, o, revision, now), after.open) && NothingDue(c, after.open, now)
  {
    if rules == [] {
      NothingAfter(ts);
    } else {
      var n := |rules| - 1;
      var mid, out := ObservedAll(c, t, rules[..n], o, revision, now),
        ObservedAllOut(c, t, rules[..n], o, revision, now);
      MatchesReport(ts, c, t, rules[..n], o, revision, now);
      MatchReports(ts + out, c, mid, rules[n], o, revision, now);
      Appended(ts, out, ObservedOut(c, mid, rules[n], o, revision, now), ObservedAllOut(c, t, rules, o, revision, now));
    }
  }

  lemma StepReports(ts: seq<Transition>, s: State, op: Op)
    requires RulesWellFormed(s.config.rules) && AllReported(ts, s.table.open)
    requires s.settings.progress > 0 && s.settings.idle > 0
    ensures AllReported(ts + StepOut(s, op), StepTable(s, op).open)
    ensures op.ObserveOp? || op.TickOp? ==> NothingDue(s.settings, StepTable(s, op).open, op.time)
  {
    if op.ObserveOp? || op.TickOp? {
      TimersReport(ts, s.settings, s.table.open, op.time);
    } else {
      forall e | e in s.table.open ensures Reported(ts + StepOut(s, op), e) {
        ReportedMore(ts, StepOut(s, op), e);
      }
    }
    if op.ObserveOp? {
      var o, early := op.observation, AdvancedOut(s.settings, s.table.open, op.time);
      var rules := MatchedRules(s.config, o);
      MatchesReport(ts + early, s.settings, Arrived(s, op.time), rules, o, s.config.revision, op.time);
      Appended(ts, early, ObservedAllOut(s.settings, Arrived(s, op.time), rules, o, s.config.revision, op.time),
        StepOut(s, op));
    }
  }

  lemma {:induction false} RunReports(config: Config, ops: seq<Op>)
    requires ValidRun(config, ops) && config.progress > 0 && config.idle > 0
    ensures AllReported(Transitions(config, ops), After(config, ops).table.open)
  {
    if ops != [] {
      var front, op := ops[..|ops| - 1], ops[|ops| - 1];
      RunReports(config, front);
      StepReports(Transitions(config, front), After(config, front), op);
    }
  }

  /** Over every run, once a tick or an observation has moved the timers to a time: each episode still open
      has been reported (started or in progress) less than the progress interval before it, and matched
      less than the idle time before it. */
  lemma TimersKeepUp(config: Config, ops: seq<Op>, id: nat)
    requires ValidRun(config, ops) && config.progress > 0 && config.idle > 0
    requires ops != [] && (ops[|ops| - 1].ObserveOp? || ops[|ops| - 1].TickOp?)
    requires exists e :: e in After(config, ops).table.open && e.id == id
    ensures exists tr :: tr in Transitions(config, ops) && tr.episodeId == id && !tr.phase.Close?
                         && ops[|ops| - 1].time - tr.lifecycleTime < config.progress
    ensures NothingDue(After(config, ops).settings, After(config, ops).table.open, ops[|ops| - 1].time)
  {
    var front, op := ops[..|ops| - 1], ops[|ops| - 1];
    RunReports(config, front);
    StepReports(Transitions(config, front), After(config, front), op);
    var e :| e in After(config, ops).table.open && e.id == id;
    var ts := Transitions(config, ops);
    assert Reported(ts, e);
    var i :| 0 <= i < |ts| && ts[i].episodeId == e.id && !ts[i].phase.Close? && ts[i].lifecycleTime == e.lastProgress;
    assert ts[i] in ts;
  }
}
