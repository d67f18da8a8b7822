/** Backups above the backup count, as after the count was lowered (journal.py): rotation never touches
    them, and reading them in front of the others is right exactly when they are empty. */
module JournalStale {
  import opened Journal
  import opened JournalOrder
  import opened JournalCalm
  import opened JournalFiles
  import M = Models

  /** The files from index `top` down to just above `low`. */
  function Above(files: Files, low: nat, top: nat): seq<Line> {
    if top <= low then [] else SlotOf(files, top) + Above(files, low, top - 1)
  }

  lemma {:induction false} ReadingSplits(files: Files, low: nat, top: nat)
    requires low <= top
    ensures Reading(files, top) == Above(files, low, top) + Reading(files, low)
    decreases top
  {
    if low < top {
      ReadingSplits(files, low, top - 1);
      assert SlotOf(files, top) + (Above(files, low, top - 1) + Reading(files, low))
        == Above(files, low, top) + Reading(files, low);
    } else {
      assert [] + Reading(files, low) == Reading(files, low);
    }
  }

  lemma {:induction false} AboveAgrees(a: Files, b: Files, low: nat, top: nat)
    requires SameAbove(a, b, low)
    ensures Above(a, low, top) == Above(b, low, top)
    decreases top
  {
    if low < top {
      AboveAgrees(a, b, low, top - 1);
    }
  }

  /** The files before the calls, with any script of what fails, spills, and what the clock says. */
  ghost predicate SameFiles(s: State, start: State) {
    start == s.(disk := s.disk.(faults := start.disk.faults, spills := start.disk.spills, times := start.disk.times))
  }

  ghost predicate Suffix(a: seq<Line>, b: seq<Line>) { |a| <= |b| && a == b[|b| - |a|..] }

  /** All files up to `top` read as the last part of what was there and everything stored since. */
  ghost predicate OrderedUpTo(s: State, calls: seq<Call>, top: nat)
    requires Started(s)
  {
    var t := AfterCalls(s, calls);
    Below(t.history.stored, |t.history.committed|)
    && Suffix(Reading(t.disk.files, top),
              Reading(s.disk.files, top) + LinesAt(t.history.committed, t.history.stored))
  }

  /** A serialized envelope with its newline, within the size bound. */
  predicate EvidenceLine(line: Line) {
    line.text != [] && line.text[|line.text| - 1] == '\n' && Bytes(line) <= M.MAX_EVIDENCE_LINE_BYTES
  }

  ghost predicate CommitsEvidence(calls: seq<Call>) {
    forall c :: c in calls && c.CommitCall? ==> EvidenceLine(c.line)
  }

  ghost predicate AlwaysOrdered(s: State, top: nat)
    requires Started(s)
  {
    forall start: State, calls :: SameFiles(s, start) && CommitsEvidence(calls) ==> OrderedUpTo(start, calls, top)
  }

  // ---------------------------------------------------------------- empty stale backups do no harm

  lemma EmptyStaleOrdered(s: State, calls: seq<Call>, top: nat)
    requires Started(s) && s.settings.backups <= top && Above(s.disk.files, s.settings.backups, top) == []
    ensures OrderedUpTo(s, calls, top)
  {
    var t, low := AfterCalls(s, calls), s.settings.backups;
    FilesAreExact(s, calls);
    AllCommitted(s, calls);
    AboveAgrees(s.disk.files, t.disk.files, low, top);
    ReadingSplits(s.disk.files, low, top);
    ReadingSplits(t.disk.files, low, top);
    assert [] + Reading(t.disk.files, low) == Reading(t.disk.files, low);
    assert [] + Reading(s.disk.files, low) == Reading(s.disk.files, low);
  }

  // ---------------------------------------------------------------- others do

  /** The last lines of a sequence that ends in `n` times `x`. */
  lemma EndsInX(a: seq<Line>, front: seq<Line>, back: seq<Line>, x: Line)
    requires Suffix(a, front + back) && 0 < |a| <= |back| && forall i :: 0 <= i < |back| ==> back[i] == x
    ensures a[0] == x
  {
  }

  /** Files that begin with another line do not end a history of `x` as long as they are. */
  lemma NotASuffix(stale: seq<Line>, rest: seq<Line>, after: seq<Line>, front: seq<Line>, h: History, x: Line, n: nat)
    requires after == stale + rest && stale != [] && stale[0] != x && |after| <= n && Flooded(h, x, n)
    requires Below(h.stored, |h.committed|)
    ensures !Suffix(after, front + LinesAt(h.committed, h.stored))
  {
    if Suffix(after, front + LinesAt(h.committed, h.stored)) {
      EndsInX(after, front, LinesAt(h.committed, h.stored), x);
    }
  }

  /** Lines in stale backups come out of order once any other line has been committed often enough. */
  lemma StaleDisorders(s: State, top: nat, x: Line) returns (start: State, calls: seq<Call>)
    requires Started(s) && s.settings.backups <= top && Bytes(x) >= 1
    requires var stale := Above(s.disk.files, s.settings.backups, top);
      stale != [] && stale[0] != x
    ensures SameFiles(s, start) && (forall c :: c in calls ==> c == CommitCall(x))
    ensures !OrderedUpTo(start, calls, top)
  {
    var low := s.settings.backups;
    var most;
    start, most := CalmStart(s);
    var n := |Above(s.disk.files, low, top)| + (low + 1) * most;
    calls := Commits(x, n);
    var t := Flood(start, x, most, n);
    RunKept(start, calls);
    AboveAgrees(s.disk.files, t.disk.files, low, top);
    ReadingSplits(t.disk.files, low, top);
    ShortReading(t.disk.files, low, most);
    if Below(t.history.stored, |t.history.committed|) {
      NotASuffix(Above(s.disk.files, low, top), Reading(t.disk.files, low), Reading(t.disk.files, top),
                 Reading(s.disk.files, top), t.history, x, n);
    }
  }

  /** Of two short lines of evidence one differs from any given line. */
  lemma AnotherLine(line: Line) returns (x: Line)
    ensures x != line && EvidenceLine(x) && Bytes(x) >= 1
  {
    x := if line == Line("{}\n") then Line("{ }\n") else Line("{}\n");
  }

  /** Whatever fails and whatever is called: all existing files, read from the highest index down, are
      always the last part of what was there and everything stored since iff the backups above the
      backup count hold no line. */
  lemma StaleExactly(s: State, top: nat)
    requires Started(s) && s.settings.backups <= top && Within(s.disk.files, top)
    ensures AlwaysOrdered(s, top) <==> Above(s.disk.files, s.settings.backups, top) == []
  {
    var stale := Above(s.disk.files, s.settings.backups, top);
    if stale == [] {
      forall start: State, calls | SameFiles(s, start) ensures OrderedUpTo(start, calls, top) {
        EmptyStaleOrdered(start, calls, top);
      }
    } else {
      var x := AnotherLine(stale[0]);
      var start, calls := StaleDisorders(s, top, x);
      assert CommitsEvidence(calls);
    }
  }
}
