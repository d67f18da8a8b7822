/** Replay of a capture file (replay.py): the PCAP reader in front of the heap and the watermark. */
module PcapReplay {
  import opened Basics
  import opened Bytes
  import opened Models
  import opened Policy
  import opened Processing
  import opened Runs
  import opened Replay
  import opened Ordering
  import opened ReplayProperties
  import opened DecodeProperties
  import opened PcapRoundTrip
  import D = Decode
  import P = Pcap

  // ---------------------------------------------------------------- the program

  /** `read` is what was read so far and what is still to be read. */
  ghost predicate Remains(records: seq<Observation>, data: seq<byte>, pos: nat, g: P.Global, c: D.Context,
      read: P.Reading) {
    (pos <= |data| && P.Prepend(records, P.ReadRecords(data, pos, g, c)) == read) == true
  }

  method ReadNext(stream: P.ByteStream, g: P.Global, c: D.Context, ghost records: seq<Observation>,
      ghost read: P.Reading)
      returns (o: Option<Observation>, error: Option<P.PcapError>)
    requires Remains(records, stream.data, stream.pos, g, c, read)
    modifies stream
    ensures o.Some? ==> old(stream.pos) < stream.pos <= |stream.data|
    ensures o.Some? ==> Remains(records + [o.value], stream.data, stream.pos, g, c, read)
    ensures o.None? ==> P.Reading(records, error) == read
  {
    o, error := P.NextRecord(stream, g, c);
    if o.Some? {
      P.PrependOne(records, o.value, P.ReadRecords(stream.data, stream.pos, g, c));
    } else {
      P.PrependEnd(records, error);
    }
  }

  /** Every record of the file from the stream's position on, each as soon as it is read. */
  method Feed(run: ReplayRun, stream: P.ByteStream, g: P.Global, c: D.Context, ghost read: P.Reading)
      returns (seen: nat, error: Option<P.PcapError>, ghost records: seq<Observation>)
    requires run.Valid() && run.CaughtUpOn([]) && run.config.lateness >= 0 && stream.pos <= |stream.data|
    requires read == P.ReadRecords(stream.data, stream.pos, g, c)
    modifies stream
    modifies run, run.processor, run.processor.tracker, run.processor.tracker.Repr, run.processor.sequencer
    ensures run.Valid() && run.CaughtUpOn(records) && seen == |records|
    ensures fresh(run.processor.tracker.Repr - old(run.processor.tracker.Repr))
    ensures P.Reading(records, error) == read
  {
    seen, records := 0, [];
    P.PrependNothing(read);
    while true
      invariant run.Valid() && run.CaughtUpOn(records) && seen == |records|
      invariant fresh(run.processor.tracker.Repr - old(run.processor.tracker.Repr))
      invariant Remains(records, stream.data, stream.pos, g, c, read)
      decreases |stream.data| - stream.pos
    {
      var o;
      o, error := ReadNext(stream, g, c, records, read);
      if o.None? {
        return;
      }
      seen := seen + 1;
      run.Arrive(o.value, records);
      records := records + [o.value];
    }
  }

  /** What a replay of a file feeds the processor: the whole schedule and the close, or, if the file ends
      in an error, what the watermark has released by then. */
  function FileOps(read: P.Reading, lateness: int): seq<Op> {
    if read.error.None? then ReplayOps(read.observations, lateness)
    else OpsOf(Released(read.observations, lateness))
  }

  /** Feed the records and finish, or stop at the error. */
  method Play(run: ReplayRun, stream: P.ByteStream, g: P.Global, c: D.Context)
      returns (out: seq<Envelope>, error: Option<P.PcapError>)
    requires run.Valid() && run.CaughtUpOn([]) && run.config.lateness >= 0 && stream.pos <= |stream.data|
    modifies stream
    modifies run, run.processor, run.processor.tracker, run.processor.tracker.Repr, run.processor.sequencer
    ensures var read := P.ReadRecords(stream.data, old(stream.pos), g, c);
      && error == read.error && ValidRun(run.config, FileOps(read, run.config.lateness))
      && out == Trace(run.config, FileOps(read, run.config.lateness))
      && (error.None? ==> run.processor.counts == After(run.config, FileOps(read, run.config.lateness)).counts)
  {
    ghost var read := P.ReadRecords(stream.data, stream.pos, g, c);
    var seen;
    ghost var records;
    seen, error, records := Feed(run, stream, g, c, read);
    if error.Some? {
      ReleasedByNow(run.done, run.heap, records, run.config.lateness, run.maxSeen, run.finalized, run.ordinal);
      return run.output, error;
    }
    var closed := run.Complete(seen, records);
    out := run.output + closed;
  }

  /** Replay of a capture file, record by record: the heap and the watermark emit exactly what
      processing the reference schedule of its observations does.  An error in the file ends the replay
      where the watermark stands, without a close and without a summary. */
  method ReplayPcap(config: Config, stream: P.ByteStream, c: D.Context)
      returns (output: seq<Envelope>, counts: Option<Counts>, error: Option<P.PcapError>)
    requires config.capacity >= 1 && RulesWellFormed(config.rules) && config.lateness >= 0 && stream.pos == 0
    modifies stream
    ensures var read := P.ReadFile(stream.data, c);
      && error == read.error && (counts.Some? <==> error.None?)
      && ValidRun(config, FileOps(read, config.lateness))
      && output == Trace(config, FileOps(read, config.lateness))
      && (counts.Some? ==> counts.value == After(config, FileOps(read, config.lateness)).counts)
  {
    var run := new ReplayRun(config);
    var header := stream.Read(24);
    assert header == stream.data[..Min(24, |stream.data|)];
    var parsed := P.ParseGlobal(header);
    if parsed.Err? {
      NothingScheduled(config.lateness);
      return [], None, Some(parsed.error);
    }
    output, error := Play(run, stream, parsed.value, c);
    counts := if error.None? then Some(run.processor.counts) else None;
  }

  // ---------------------------------------------------------------- what replays alike

  predicate Earlier(f: P.Format, p: Packet, q: Packet) {
    P.TimeOf(f, p.seconds, p.fraction) <= P.TimeOf(f, q.seconds, q.fraction)
  }

  /** The packets by capture time, ties in file order. */
  function InTime(f: P.Format, ps: seq<Packet>): seq<Packet> {
    StableSort((p, q) => Earlier(f, p, q), ps)
  }

  /** No packet is captured more than the lateness before an earlier one in the file. */
  predicate NearlyInTime(f: P.Format, ps: seq<Packet>, lateness: int) {
    forall i, j :: 0 <= i < j < |ps| ==> TimeAt(f, ps, j) >= TimeAt(f, ps, i) - lateness
  }

  function TimeAt(f: P.Format, ps: seq<Packet>, i: nat): int
    requires i < |ps|
  {
    P.TimeOf(f, ps[i].seconds, ps[i].fraction)
  }

  lemma CapturedThen(f: P.Format, datalink: nat, p: Packet, c: D.Context)
    ensures ObservationOf(f, datalink, p, c).capturedAt == P.TimeOf(f, p.seconds, p.fraction)
  {
    DecodedKeepsCapture(p.frame, p.wire, datalink, P.ContextAt(c, P.TimeOf(f, p.seconds, p.fraction)));
  }

  lemma {:induction false} ExpectedAt(f: P.Format, datalink: nat, ps: seq<Packet>, c: D.Context)
    ensures |ExpectedObservations(f, datalink, ps, c)| == |ps|
    ensures forall i :: 0 <= i < |ps| ==>
      ExpectedObservations(f, datalink, ps, c)[i] == ObservationOf(f, datalink, ps[i], c)
  {
    if ps != [] {
      ExpectedAt(f, datalink, ps[1..], c);
    }
  }

  lemma ExpectedSnoc(f: P.Format, datalink: nat, ps: seq<Packet>, p: Packet, c: D.Context)
    ensures ExpectedObservations(f, datalink, ps + [p], c)
      == ExpectedObservations(f, datalink, ps, c) + [ObservationOf(f, datalink, p, c)]
  {
    ExpectedAt(f, datalink, ps + [p], c);
    ExpectedAt(f, datalink, ps, c);
  }

  lemma ExpectedLast(f: P.Format, datalink: nat, ps: seq<Packet>, c: D.Context)
    requires ps != []
    ensures var os, n := ExpectedObservations(f, datalink, ps, c), |ps| - 1;
      && |os| == |ps| && os[..n] == ExpectedObservations(f, datalink, ps[..n], c)
      && os[n] == ObservationOf(f, datalink, ps[n], c)
  {
    var front, last := ps[..|ps| - 1], ps[|ps| - 1];
    assert front + [last] == ps;
    ExpectedSnoc(f, datalink, front, last, c);
    ExpectedAt(f, datalink, front, c);
  }

  lemma {:induction false} ExpectedInsert(f: P.Format, datalink: nat, ps: seq<Packet>, p: Packet, c: D.Context)
    ensures ExpectedObservations(f, datalink, Insert((p, q) => Earlier(f, p, q), ps, p), c)
      == Insert(ByCapture, ExpectedObservations(f, datalink, ps, c), ObservationOf(f, datalink, p, c))
  {
    ExpectedSnoc(f, datalink, ps, p, c);
    if ps != [] {
      var front, last := ps[..|ps| - 1], ps[|ps| - 1];
      ExpectedInsert(f, datalink, front, p, c);
      ExpectedSnoc(f, datalink, Insert((p, q) => Earlier(f, p, q), front, p), last, c);
      ExpectedLast(f, datalink, ps, c);
      CapturedThen(f, datalink, p, c);
      CapturedThen(f, datalink, last, c);
    }
  }

  /** Sorting the packets sorts their observations. */
  lemma {:induction false} ExpectedSort(f: P.Format, datalink: nat, ps: seq<Packet>, c: D.Context)
    ensures StableSort(ByCapture, ExpectedObservations(f, datalink, ps, c))
      == ExpectedObservations(f, datalink, InTime(f, ps), c)
  {
    if ps != [] {
      var front, last := ps[..|ps| - 1], ps[|ps| - 1];
      ExpectedSort(f, datalink, front, c);
      ExpectedInsert(f, datalink, InTime(f, front), last, c);
      ExpectedLast(f, datalink, ps, c);
    }
  }

  lemma ExpectedDisorder(f: P.Format, datalink: nat, ps: seq<Packet>, c: D.Context, lateness: int)
    requires NearlyInTime(f, ps, lateness)
    ensures BoundedDisorder(ExpectedObservations(f, datalink, ps, c), lateness)
  {
    ExpectedAt(f, datalink, ps, c);
    var os := ExpectedObservations(f, datalink, ps, c);
    forall i, j | 0 <= i < j < |os| ensures os[j].capturedAt >= os[i].capturedAt - lateness {
      CapturedThen(f, datalink, ps[i], c);
      CapturedThen(f, datalink, ps[j], c);
      assert TimeAt(f, ps, j) >= TimeAt(f, ps, i) - lateness;
    }
  }

  /** The byte order of a file makes no difference to what is read. */
  lemma {:induction false} ExpectedEndian(f: P.Format, g: P.Format, datalink: nat, ps: seq<Packet>, c: D.Context)
    requires f.nanoseconds == g.nanoseconds
    ensures ExpectedObservations(f, datalink, ps, c) == ExpectedObservations(g, datalink, ps, c)
  {
    if ps != [] {
      ExpectedEndian(f, g, datalink, ps[1..], c);
    }
  }

  /** Two capture files, in either byte order, of the same packets disordered within the lateness: they
      replay without error, to the same evidence and the same counts. */
  lemma CapturesReplayAlike(config: Config, f: P.Format, g: P.Format, datalink: nat, ps: seq<Packet>, qs: seq<Packet>,
      c: D.Context)
    requires config.capacity >= 1 && RulesWellFormed(config.rules) && config.lateness >= 0
    requires P.SupportedDatalink(datalink) && PacketsValid(ps) && PacketsValid(qs) && f.nanoseconds == g.nanoseconds
    requires NearlyInTime(f, ps, config.lateness) && NearlyInTime(g, qs, config.lateness)
    requires InTime(f, ps) == InTime(g, qs)
    ensures var a := P.ReadFile(ClassicPcap(f, datalink, ps), c);
      var b := P.ReadFile(ClassicPcap(g, datalink, qs), c);
      && a.error.None? && b.error.None?
      && ValidRun(config, FileOps(a, config.lateness)) && ValidRun(config, FileOps(b, config.lateness))
      && Trace(config, FileOps(a, config.lateness)) == Trace(config, FileOps(b, config.lateness))
      && After(config, FileOps(a, config.lateness)).counts == After(config, FileOps(b, config.lateness)).counts
  {
    ReaderInvertsWriter(f, datalink, ps, c);
    ReaderInvertsWriter(g, datalink, qs, c);
    ExpectedSort(f, datalink, ps, c);
    ExpectedSort(g, datalink, qs, c);
    ExpectedEndian(f, g, datalink, InTime(f, ps), c);
    ExpectedDisorder(f, datalink, ps, c, config.lateness);
    ExpectedDisorder(g, datalink, qs, c, config.lateness);
    var os, us := ExpectedObservations(f, datalink, ps, c), ExpectedObservations(g, datalink, qs, c);
    ReplayIsValid(config, os);
    SameSortSameEvidence(config, os, us);
  }

  lemma ReplayIsValid(config: Config, records: seq<Observation>)
    requires config.capacity >= 1 && RulesWellFormed(config.rules)
    ensures ValidRun(config, ReplayOps(records, config.lateness))
  {
  }
}
