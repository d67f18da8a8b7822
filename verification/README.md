# Verification model of the ibn-monitor sensor

Dafny model of the sensor's deterministic heart and of the concurrent shell around it.  `dafny verify
dfyconfig.toml` checks everything.

## What is modelled

- **Policy, detector, firewall renderer** (`Policy`, `Enforcement`, `EnforcementOrder`, `EnforcementPlacement`,
  `EndToEnd`).  Rules with CIDR blocks (section 3.1 of RFC 4632), their compilation into per-family predicates, the
  detector, the overlap check, and the rendered chains with a packet semantics.  The detector and the firewall agree
  on every complete packet, also when the detector starts from the bytes of a frame, and the output does not depend
  on the order in which the policy is written down.  Which rules can fire on one observation, or on one frame, is
  decided exactly.
- **Episodes, processing, replay** (`Episodes`, `EpisodeFlows`, `EpisodeTimers`, `Eviction`, `Evidence`,
  `EvidenceText`, `Processing`, `Runs`, `Ledger`, `TraceGrammar`, `Sessions`, `Insertions`, `Replay`,
  `ReplayProperties`, `PcapReplay`).  The tracker and the processor are classes proved against functions on a value
  `State`; whole runs are sequences of operations.  Episodes are session windows, nothing is lost or counted twice,
  the emitted trace is well formed, and replay with a heap and a watermark, from the bytes of a capture file on,
  equals a stable sort.  Times are integers (microseconds).
- **Header decoder, capture filter, PCAP reader** (`Decode`, `DecodeProperties`, `DecodeBytes`, `PacketBuilders`,
  `PacketInverse`, `Cbpf`, `Pcap`, `PcapErrors`, `PcapRoundTrip`).  The decoder exists twice: on bytes, with the
  longest prefix it requests, and as the imperative code on a lazy record reader, proved equal; what it makes of
  every frame is also read off the bytes directly.  Formats follow section 3.1 of RFC 791, sections 3 and 4 of RFC
  8200, section 2.2 of RFC 4302, section 3.1 of RFC 9293 and sections 4 and 5 of draft-ietf-opsawg-pcap.
- **Live pipeline** (`Control`, `LaneContents`, `OpsState`, `OpsRecords`, `IncidentTiming`, `Worker`,
  `PipelineWorker`, `Pipeline` and the `Pipeline...` modules).  Queue, control lane, state machine and worker are
  classes.  Concurrency is a step system: every lock-protected call, with the thread-local work before the next one,
  is one step of a capture thread, the timer, an outside request or the worker, and steps interleave freely.  The
  loop as it is written is proved to be a run of these steps, and the log the worker leaves is tied to a run of the
  episode processor.  A system event that repeats a text from outside may be refused, which ends the worker.
- **Journal** (`Journal` and the `Journal...` modules).  An append log with rotation, emergency buffer, recovery and
  clean-stop marker over storage on which a script decides which operation fails; a failed operation leaves the
  files as they were.  Lines written wait in the file object until it is flushed, closed, or passes them on by
  itself, and in the live file until it is fsynced.

The pattern throughout: a method's contract equates the new state with a function of the old one, and the promises
are proved about that function over all runs.  In a few places a condition is written `... == true`; this means the
same and keeps it in one piece for the verifier.

## Findings

Each is a property the code does not have, with an input that shows it and the exact condition.

- `wrap_system` takes a sequence number before it checks the size of the event.  After a failed reload the
  next event leaves a gap exactly when the failure's detail has more bytes than the rest of its line leaves
  (`TraceGrammar.OversizedLeavesGap`).  A run stays without gaps, however it goes on, iff none of its events
  was oversized (`TraceGrammar.ContiguousExactly`); `TraceGrammar.GapFreeExactly` says when a given run has
  one.  In the live pipeline the refusal ends the worker, so its numbers never have a gap
  (`PipelineEvidence.LiveTrace`), but such a reload does end it (`PipelineReload.FatalReload`).
- `find_overlaps` tests sources and destinations separately, so it lists rules of mixed IP families that no
  observation can match together (`Policy.MixedFamiliesOverReport`).  `Policy.OverReportsExactly` says which
  listed pairs are real overlaps, and `EndToEnd.OverlapOnTheWire` decides it for frames.
- `CaptureSource.stop` announces "stopped" after waiting at most five seconds.  A capture thread still in
  its read loop can emit statistics afterwards, and these mark the source as established
  (`PipelineLate.LateStatsHappen`); `PipelineLate.LateStatsExactly` gives the exact condition.
- Nothing bounds the control lane: `ControlLane` stores a capacity that it never reads, and for every bound
  some run exceeds it (`PipelineGrowth.LaneUnbounded`).  Its size is exactly what was sent since it was last
  drained (`PipelineGrowth.LaneSize`), so a run keeps it within a capacity iff what is sent between drains
  stays within it (`PipelineGrowth.WithinExactly`).  The design document asks for 256 messages, and for only
  the latest lifecycle message of each point
  (docs/superpowers/specs/2026-07-24-ibn-monitor-v2-raw-live-pipeline-design.md:336-351).
- A line drained from the emergency buffer leaves it while it is still inside the file object.  If the flush
  fails and then the next recovery's close, whose error is suppressed, fails too, the line reached no file,
  is not buffered and not counted (`JournalHandle.LineVanishes`, exactly then `JournalHandle.VanishesExactly`).
  Apart from this a committed line is nowhere and uncounted only when it did reach a file and every backup up
  to its place has been overwritten (`JournalRetention.NowhereExactly`), as rotation is meant to do.
- A rotation that fails after its first rename has overwritten the last backup although nothing was moved out
  of the live file (`JournalRetention.FailedRotationOverwrites`); a call never overwrites more than that one
  backup (`JournalRetention.OverwritesExactly`).
- Backups above the backup count, left behind when the count is lowered, are never rotated or removed
  (`JournalFiles.FilesAreExact`).  Reading every existing file in order is right for all runs iff those hold no
  line (`JournalStale.StaleExactly`).

Branches that cannot be reached, and promises of the design document without code:

- `_recompute` looks again at a starting sensor that has reasons; any reason already degrades the state
  (`OpsState.OperationalStateMachine.Recompute`).
- Statistics on the way to failed and stopped
  (docs/superpowers/specs/2026-07-24-ibn-monitor-v2-raw-live-pipeline-design.md:652-654) are not emitted.

## Model

| member | source | states |
|---|---|---|
| Policy.ContainsIsInterval | src/ibn_monitor/policy.py:94-101 | Prefix matching by clearing host bits selects exactly the interval that starts at the base and is one block long |
| Policy.OverlapsMeansSharedAddress | src/ibn_monitor/policy.py:94-101 | The four end-point tests of two blocks succeed iff the blocks share an address |
| Policy.CompilePolicy | src/ibn_monitor/policy.py:28-50 | One predicate for each enabled rule, in id order, and each IP family its sources and destinations share |
| Policy.EvaluatePolicy | src/ibn_monitor/policy.py:62-85 | The detector's loop returns the predicates that hold, in order, and nothing when an endpoint is unknown |
| Policy.CompiledMeansRule | src/ibn_monitor/policy.py:28-85 | A compiled predicate holds of an observation iff the observation is of its family and the whole rule matches it |
| Policy.DetectorIsExact | src/ibn_monitor/policy.py:28-85 | Compiling and evaluating returns precisely the enabled rules that match, once each, in id order |
| Policy.AnyOverlap | src/ibn_monitor/policy.py:94-101 | The nested loop finds an overlap iff some pair of blocks of one family overlaps |
| Policy.FindOverlaps | src/ibn_monitor/policy.py:104-124 | The id pairs of enabled rules that the pairwise test reports, exactly those, sorted, each once |
| Policy.ReportedBelowMeans | src/ibn_monitor/policy.py:104-124 | What being reported means: some rule is the earlier one of a reported pair |
| Policy.OverlapComplete | src/ibn_monitor/policy.py:62-124 | If one observation is matched by two rules, the pairwise test reports them |
| Policy.FindOverlapsComplete | src/ibn_monitor/policy.py:104-124 | If one observation is matched by rules at two positions, their pair of ids is reported |
| Policy.FindOverlapsExact | src/ibn_monitor/policy.py:88-124 | With unique ids and rules of one family each, the check lists the ids of two rules iff some observation is matched by both |
| Policy.ReportedExactly | src/ibn_monitor/policy.py:88-124 | Two rules with non-empty ports have a common observation iff they are reported and their sources and destinations overlap within one and the same IP family |
| Policy.SingleFamilyExact | src/ibn_monitor/policy.py:88-124 | For rules of one IP family every reported pair is a real overlap |
| Policy.ListingExactly | src/ibn_monitor/policy.py:104-124 | With unique ids the returned list holds the ids of two rules iff both are enabled and the pairwise test reports them |
| Policy.OverReportsExactly | src/ibn_monitor/policy.py:88-124 | A listed pair with non-empty ports has a common observation iff the blocks overlap within one IP family |
| Policy.MixedFamiliesOverReport | src/ibn_monitor/policy.py:94-124 | Two mixed-family rules with any two different ids, named by the returned list, although no observation matches both |
| Enforcement.RuleExpressions | src/ibn_monitor/enforcement.py:81-129 | Exactly the expressions that stand for the rule, each once, in the order of their text; it fails exactly when families or ports cannot be expressed |
| Enforcement.RenderNftables | src/ibn_monitor/enforcement.py:12-70 | Fails exactly for a mirror or an unrenderable candidate; otherwise the whole line sequence: chains, then the candidates by id, each expression in text order with a log and a drop line for each chain |
| Enforcement.RenderedMembers | src/ibn_monitor/enforcement.py:26-70 | The drop lines are exactly those of the candidates in every chain, and the log lines exactly those naming the rules they stand for |
| EnforcementOrder.ExpressionsAscend | src/ibn_monitor/enforcement.py:128-129 | The expressions of a rule are its expressions, none twice, their texts ascending |
| EnforcementOrder.RenderingIsDeterministic | src/ibn_monitor/enforcement.py:12-129 | Permuting rules with unique ids, and listing their blocks in any order, renders the identical sequence of lines |
| Enforcement.WalkDropsIffSomeLine | src/ibn_monitor/enforcement.py:26-65 | In a chain where log falls through, drop is final and the policy is accept, a packet is dropped iff some drop line of the chain matches it |
| Enforcement.RuleParity | src/ibn_monitor/enforcement.py:81-129 | For a complete packet some rendered expression of the rule matches iff the detector's rule matches |
| Enforcement.RendererEqualsDetector | src/ibn_monitor/enforcement.py:26-129 | A rendered gateway or host chain drops a complete packet iff the detector reports an enabled rule marked for dropping; validated policies always render |
| EnforcementPlacement.LinesByTopology | src/ibn_monitor/enforcement.py:12-78 | A gateway's lines are all in the forward chain on the forward hook, a host's in the input and output chains on their hooks with the same drop lines; a mirror has none |
| EnforcementPlacement.FilteredExactly | src/ibn_monitor/enforcement.py:12-129 | A complete packet is dropped on its way (forwarded, incoming, outgoing) iff the topology guards that way and the detector reports an enabled rule marked for dropping |
| EnforcementPlacement.TextShape | src/ibn_monitor/enforcement.py:45-65 | One chain line for a gateway, two for a host, then log and drop lines in alternation, each log right before its drop, rules in the order of their ids |
| EndToEnd.FirewallEqualsDetectorOnTheWire | src/ibn_monitor/enforcement.py:26-129 | The same for every frame a builder can make and every path, with the detector working on the decoded bytes |
| EndToEnd.OverlapOnTheWire | src/ibn_monitor/policy.py:88-124 | For enabled rules as the schema admits them: some Ethernet frame decodes to an observation that both match iff they are reported and overlap within one IP family |
| EndToEnd.FrameIsDescribed | src/ibn_monitor/decode.py:282-305 | The decoded bytes of a built frame describe the packet the firewall sees, with every field a rule can constrain |
| Episodes.EpisodeState.Update | src/ibn_monitor/episodes.py:47-59 | One match moves counts, bytes, times and the per-point counters, late ones not the observed times |
| Episodes.EpisodeTracker.Observe | src/ibn_monitor/episodes.py:121-157 | The table after a match, in least-recently-matched order with the eviction and the new id, and the transitions emitted |
| Episodes.EpisodeTracker.Advance | src/ibn_monitor/episodes.py:159-173 | Idle episodes close, due ones report progress, the others stay, in table order |
| Episodes.EpisodeTracker.CloseAll | src/ibn_monitor/episodes.py:175-186 | Everything closes, in table order, and the table is empty |
| EpisodeFlows.EveryTransitionExplained | src/ibn_monitor/episodes.py:62-186 | Over every run each start is for a matching rule and names the observation's own version, addresses, protocol, ports, ICMP type and code, flags and reason under the revision in force; each close gives its operation's reason, and only victims of the capacity are truncated |
| EpisodeFlows.JoinsExactly | src/ibn_monitor/episodes.py:88-157 | Over every run a match is counted in an open episode iff that was opened by an observation equal in all of these under the same rule id and revision, and opens one iff there is none |
| EpisodeTimers.TimersKeepUp | src/ibn_monitor/episodes.py:159-173 | Over every run, after a tick or observation every open episode has been reported less than the progress interval ago and matched less than the idle time ago |
| Eviction.LeastRecentFirst | src/ibn_monitor/episodes.py:121-157 | In every run whose clock never goes back the table is ordered by the time of the last match |
| Eviction.VictimIsLeastRecent | src/ibn_monitor/episodes.py:138-150 | In every run whose clock never goes back each eviction is made by an observation, in a full table, for a new key, and its victim is an episode matched least recently |
| Runs.OpenEpisodesBounded | src/ibn_monitor/episodes.py:121-157 | In every run the open episodes have distinct keys and never exceed the capacity |
| Runs.RuntimeNeverChanges | src/ibn_monitor/processing.py:128-158 | Over every run, reloads included, nothing but the rules changes |
| Processing.EpisodeProcessor.Observe | src/ibn_monitor/processing.py:91-111 | Advances the timers, matches, tracks every matching rule in id order, counts, and numbers the envelopes |
| Processing.EpisodeProcessor.Tick | src/ibn_monitor/processing.py:113-115 | Advances the timers and numbers what they emit |
| Processing.EpisodeProcessor.CloseAll | src/ibn_monitor/processing.py:117-126 | Closes every episode with the given reason and numbers the envelopes |
| Processing.EpisodeProcessor.Reload | src/ibn_monitor/processing.py:128-158 | Restart-only changes are refused, the same revision is a no-op, else everything closes and the policy is swapped |
| Processing.EpisodeProcessor.ReloadFailed | src/ibn_monitor/processing.py:160-166 | A failed reload changes nothing but the sequence and returns one event |
| Processing.EpisodeProcessor.System | src/ibn_monitor/processing.py:168-184 | Fields without a value are dropped; the event takes the next number unless it is refused before numbering |
| Processing.ReloadClosesThenSwaps | src/ibn_monitor/processing.py:128-158 | A reload that takes effect equals a close of everything followed by the swap and one event under the new revision |
| Processing.ReloadExactly | src/ibn_monitor/processing.py:128-158 | By the two hashes alone: refused with one event, acknowledged with one event, or all closes and one event under the new revision |
| Processing.EvidenceSequencer.WrapEpisode | src/ibn_monitor/evidence.py:39-57 | An episode envelope takes the next number and the revision of its episode's key |
| Processing.EvidenceSequencer.WrapSystem | src/ibn_monitor/evidence.py:59-113 | At most 32 fields, each with a word as key and a scalar (or a list of at most 64) as value, or the event takes no number; with a line above 262144 bytes it takes one and is not returned |
| Evidence.LoadErrorFitsExactly | src/ibn_monitor/evidence.py:59-113 | A failed reload's event is never malformed, and is too large iff the escaped bytes of its detail exceed what the rest of the line leaves; any detail of 262144 characters does |
| Evidence.OwnEventsFit | src/ibn_monitor/processing.py:128-158 | The events a reload itself emits pass every check: revisions are SHA-256 digests |
| Evidence.AllMembersOkExactly | src/ibn_monitor/evidence.py:71-75 | The fields pass iff every single one does |
| Evidence.FieldsOkExactly | src/ibn_monitor/evidence.py:69-75 | At most 32 fields, each with an admitted key and value |
| Evidence.KeyOkExactly | src/ibn_monitor/evidence.py:13 | A key is an ASCII letter followed by letters, digits and underscores, with at most one newline behind |
| Evidence.IsScalarExactly | src/ibn_monitor/evidence.py:96-101 | A value is anything JSON writes, lists of at most 64 such values at every depth |
| EvidenceText.LineIsCounted | src/ibn_monitor/evidence.py:104-117 | The size check counts the bytes of the payload's JSON text in UTF-8, escapes included, and of the envelope around it |
| Ledger.Conservation | src/ibn_monitor/episodes.py:47-59 | At every point of every run, matches, bytes and lates, in total and per capture point, are either reported by a close or held by an open episode |
| Ledger.CountersAgree | src/ibn_monitor/processing.py:48-61 | The counters equal the numbers of starts, progresses and closes emitted and of matches charged |
| Ledger.ObservationCounters | src/ibn_monitor/processing.py:48-57 | The counters equal the numbers of observations, of each outcome, of late ones and of those that matched some rule |
| Ledger.OpenEpisodesAreStartsMinusCloses | src/ibn_monitor/processing.py:48-61 | Starts minus closes is the number of open episodes, at most the capacity |
| Ledger.NothingLeftAfterCloseAll | src/ibn_monitor/processing.py:117-126 | After closing everything nothing is open and the closes account for every match |
| TraceGrammar.EpisodeLives | src/ibn_monitor/episodes.py:121-186 | Over any mix of operations each episode id has one start, then progresses at least the interval apart with counts that never shrink, then at most one close and nothing after |
| TraceGrammar.RevisionsInTrace | src/ibn_monitor/processing.py:128-197 | Every episode envelope carries the revision of the latest successful reload before it, or the initial one |
| TraceGrammar.GapFreeExactly | src/ibn_monitor/evidence.py:59-93 | A given run has the numbers 1..n without a gap iff no envelope follows an event whose number was taken before its size was refused |
| TraceGrammar.ContiguousExactly | src/ibn_monitor/evidence.py:59-93 | However a run goes on with events within the bound, numbers have no gap iff no event so far was oversized |
| TraceGrammar.OversizedLeavesGap | src/ibn_monitor/evidence.py:77-113 | A failed reload and then any event: the numbers have a gap iff the bytes of the failure's detail exceed what the rest of its line leaves |
| TraceGrammar.SequencesContiguous | src/ibn_monitor/evidence.py:39-93 | With every system event within the size bound the numbers are 1..n |
| Sessions.WindowsPartition | src/ibn_monitor/episodes.py:121-173 | Session windows, joined, are the matches in order |
| Sessions.WindowsAreMaximalRuns | src/ibn_monitor/episodes.py:121-173 | Windows have no idle gap inside and one between neighbours |
| Sessions.AggregatesUnique | src/ibn_monitor/episodes.py:47-59 | A window determines count, bytes, lates, observed interval and per-point counters of its episode |
| Sessions.EpisodesAreWindows | src/ibn_monitor/episodes.py:121-173 | Over any steady run without eviction the episodes of a key are exactly the session windows of its matches, with their totals |
| Sessions.OnlyOwnMatchesCount | src/ibn_monitor/processing.py:91-115 | Two steady runs that match a key by the same observations at the same times give it the same episodes |
| Insertions.ShorterEvictsNothing | src/ibn_monitor/episodes.py:121-173 | A steady run without eviction, with any operation left out, evicts nothing either |
| Insertions.InsertionInvisible | src/ibn_monitor/processing.py:91-115 | A tick or an unrelated observation, left out of a steady run without eviction, leaves a key's episodes unchanged |
| Replay.ReplayRun.Process | src/ibn_monitor/replay.py:73-80 | Advances the lifecycle clock and processes one observation at it |
| Replay.ReplayRun.DrainReady | src/ibn_monitor/replay.py:99-104 | Processes exactly the waiting records up to the watermark, in heap order |
| Replay.ReplayRun.Arrive | src/ibn_monitor/replay.py:106-120 | A late record is processed at the watermark, another joins the heap and moves the watermark |
| Replay.ReplayRun.DrainAll | src/ibn_monitor/replay.py:125-129 | What is left is processed in (time, ordinal) order |
| Replay.ReplayRun.Complete | src/ibn_monitor/replay.py:121-132 | The rest is processed and everything closed at the clock's time, not before the epoch; nothing at all if no record was seen |
| Replay.ReleasedByNow | src/ibn_monitor/replay.py:99-119 | Between arrivals exactly the part of the schedule up to the watermark has been processed |
| PcapReplay.ReplayPcap | src/ibn_monitor/replay.py:59-132 | Replaying a capture file emits exactly what processing the reference schedule of its observations emits, with the same counts; an error in the file ends it with what the watermark has released, no close and no summary |
| PcapReplay.CapturesReplayAlike | src/ibn_monitor/replay.py:59-132 | Capture files of either byte order whose packets, disordered within the lateness, have the same stable sort by time replay without error to the same evidence and counts |
| ReplayProperties.LateExactly | src/ibn_monitor/replay.py:108-112 | A record is late iff some earlier one is more than the lateness ahead of it |
| ReplayProperties.ScheduleExact | src/ibn_monitor/replay.py:99-127 | Every record is scheduled once: on time at its own time in stable order, late exactly at the watermark of its arrival |
| ReplayProperties.BoundedDisorderInvisible | src/ibn_monitor/replay.py:99-131 | Records out of order by at most the lateness are processed as their stable sort by time |
| ReplayProperties.SameSortSameEvidence | src/ibn_monitor/replay.py:59-132 | Two such captures with the same stable sort give the same evidence and counts |
| ReplayProperties.ReplayIsSteady | src/ibn_monitor/replay.py:73-131 | Lifecycle times never decrease over a replay |
| ReplayProperties.ReplayEpisodesAreWindows | src/ibn_monitor/replay.py:59-132 | The closes of a key over a replay without eviction are the session windows of its scheduled matches |
| ReplayProperties.ReplayAccountsForEveryMatch | src/ibn_monitor/replay.py:125-132 | A finished replay has nothing open and its closes account for every match |
| ReplayProperties.ReplayEndsOnce | src/ibn_monitor/replay.py:73-132 | A replay processes each record once, stamped with its lifecycle time, and closes everything once, at the last time or the epoch |
| Decode.Need | src/ibn_monitor/decode.py:48-54 | A request beyond 512 bytes is refused unasked, another is answered by exactly that prefix or fails as truncated |
| DecodeProperties.RequestsBounded | src/ibn_monitor/decode.py:48-64 | No request exceeds 512 bytes, and none passes the packet end the accepted IP header declares |
| DecodeProperties.OnlyRequestedBytesMatter | src/ibn_monitor/decode.py:48-305 | Frames that agree on the longest prefix requested give equal observations and equal requests |
| DecodeProperties.DecodedExact | src/ibn_monitor/decode.py:139-305 | Each presence flag is set iff its value is there, complete has no reason, partial has both endpoints and a reason |
| DecodeProperties.DecodedKeepsCapture | src/ibn_monitor/decode.py:282-305 | Whatever the frame, the observation keeps the time, place, direction and wire length of its capture |
| DecodeBytes.LinkOnBytes | src/ibn_monitor/decode.py:67-90 | For Ethernet, raw IP, SLL and SLL2 and any other link type: where the packet starts and its type, or the reason there is none, exactly by the bytes |
| DecodeBytes.DecodedFitsBytes | src/ibn_monitor/decode.py:48-305 | Every frame of every link type is decoded to what its bytes say: every refusal, jumbograms, later fragments, ESP, the ninth extension, short transport headers, ports and flags |
| DecodeBytes.LaterFragmentExactly | src/ibn_monitor/decode.py:172-248 | A frame is reported as a later fragment iff its bytes are one, IPv4 or IPv6, and then shows no ports, flags or ICMP fields |
| PacketInverse.DecoderInvertsBuilder | src/ibn_monitor/decode.py:67-305 | Any built frame with up to two VLAN tags, any IPv4 header length or up to eight IPv6 extensions, and TCP, UDP or ICMP, decodes to what it was built from |
| PacketInverse.ExtsInverse | src/ibn_monitor/decode.py:216-262 | A chain of option, AH and first-fragment headers is stepped over, one count each |
| PacketInverse.TransportInverse | src/ibn_monitor/decode.py:93-136 | A transport header that fits decodes to its ports, flags or ICMP type and code |
| PacketInverse.LinkInverse | src/ibn_monitor/decode.py:67-90 | Up to two VLAN tags are stepped over to the packet's ethertype |
| PacketBuilders.FramePlaced | tests/packet_bytes.py:10-84 | Every field of a built frame stands where the headers before it put it |
| Cbpf.BuildFilter | src/ibn_monitor/cbpf.py:50-91 | The appended program is the block structure the semantics is proved about |
| Cbpf.ProgramJumps | src/ibn_monitor/cbpf.py:50-91 | All jumps are forward and inside the program |
| Cbpf.ProgramAccepts | src/ibn_monitor/cbpf.py:50-91 | Interpreting the program returns the snap length iff gate, tags and ethertype admit the frame, else zero |
| Cbpf.GateIsFallback | src/ibn_monitor/capture_afpacket.py:97-126 | The direction gate admits a packet type iff the user-space fallback test does |
| Cbpf.FilterRefinesLink | src/ibn_monitor/cbpf.py:50-91 | For every frame and packet type the program accepts iff the direction admits it and the decoder's link layer finds IPv4 or IPv6 |
| Cbpf.FilterOnBytes | src/ibn_monitor/cbpf.py:50-91 | The same by the bytes: outbound is packet type 4, at most two tags, then IPv4 or IPv6 |
| Pcap.RecordReader.Prefix | src/ibn_monitor/pcap.py:34-42 | A request reads the stream only as far as needed and returns a prefix of the record; it fails only on a record beyond the end of the file |
| Pcap.RecordReader.Finish | src/ibn_monitor/pcap.py:44-47 | The stream is left exactly behind the record however much was requested |
| Pcap.DecodeObservation | src/ibn_monitor/decode.py:282-305 | The decoder on the lazy reader computes the decoding of the whole record and requests exactly its reach |
| Pcap.DecodeExtensions | src/ibn_monitor/decode.py:216-262 | The extension loop computes the recursive chain |
| Pcap.DecodeTransport | src/ibn_monitor/decode.py:93-136 | The transport decoder on the reader agrees with the one on bytes, failures and requests included |
| Pcap.NextRecord | src/ibn_monitor/pcap.py:71-103 | One record is yielded or the error reported, never a truncated packet record |
| Pcap.IterPcapStream | src/ibn_monitor/pcap.py:50-103 | The reader yields the observations of the whole file up to the first error, never a truncated packet record |
| PcapErrors.HeaderOnBytes | src/ibn_monitor/pcap.py:57-72 | The file header's bytes determine the error, or byte order, resolution, snap length and link type |
| PcapErrors.RecordOnBytes | src/ibn_monitor/pcap.py:74-90 | A record header's bytes determine the error, or times and lengths |
| PcapErrors.FileStopsExactly | src/ibn_monitor/pcap.py:50-103 | One observation for each whole record, then the end of the file or the error of the first record that is not whole |
| PcapErrors.RecordTime | src/ibn_monitor/pcap.py:92-94 | The capture time is the seconds and microseconds of the record, nanoseconds cut off |
| PcapRoundTrip.ReaderInvertsWriter | tests/pcap_bytes.py:4-24 | In either byte order and resolution, reading a written capture yields one observation a packet with its time, length and decoding, and no error |
| PcapRoundTrip.GlobalInverse | src/ibn_monitor/pcap.py:50-70 | The written file header parses to its format, snap length and link type |
| Control.ObservationQueue.PutDropOldest | src/ibn_monitor/pipeline.py:36-44 | Evicts the oldest until there is room, appends, and reports how many were evicted; the capacity is never exceeded |
| Control.ObservationQueue.Get | src/ibn_monitor/pipeline.py:46-54 | Takes the oldest item, of those that arrived during the wait if the queue was empty; nothing if there is none |
| Control.ObservationQueue.Drain | src/ibn_monitor/pipeline.py:60-69 | Takes the oldest items, at most the given number, and leaves the rest |
| Control.ControlLane.Put | src/ibn_monitor/pipeline.py:87-114 | Sticky slots, latest statistics and summed drops per point, lifecycle messages in order |
| Control.ControlLane.Drain | src/ibn_monitor/pipeline.py:116-140 | Everything waiting comes out once, in the fixed order, and the lane is empty |
| LaneContents.LaneHolds | src/ibn_monitor/pipeline.py:87-114 | Whatever was put: the last of each request (a forced shutdown instead of a graceful one), the last statistics and the summed drops of each point, all lifecycle messages in order |
| LaneContents.DrainInOrder | src/ibn_monitor/pipeline.py:116-140 | A drain returns forced shutdown, reload, timer, statistics, drops, lifecycle messages, and a graceful shutdown behind everything |
| OpsState.OperationalStateMachine.NoteAppDrops | src/ibn_monitor/ops_state.py:70-75 | Adds the drops and raises the reason, unless there were none |
| OpsState.OperationalStateMachine.NoteKernelDrops | src/ibn_monitor/ops_state.py:81-89 | Counts the increase over the last total of the point, raises the reason if any |
| OpsState.OperationalStateMachine.SetSource | src/ibn_monitor/ops_state.py:105-126 | Updates one source, keeps absent values, refreshes the capture reason and the state |
| OpsState.OperationalStateMachine.Recompute | src/ibn_monitor/ops_state.py:144-163 | The state is the one determined by reasons, sources and policy; any reason degrades |
| OpsState.StatusIsSound | src/ibn_monitor/ops_state.py:137-163 | After any calls the state is determined by reasons, sources and policy, and the capture reason implies a source that is down |
| OpsState.StatusExactly | src/ibn_monitor/ops_state.py:144-163 | After any calls: stopping iff a shutdown was marked, else degraded iff there is a reason, ready iff none, all sources up and a policy loaded |
| OpsState.ReadyExactly | src/ibn_monitor/ops_state.py:144-163 | After any calls the sensor is ready iff nothing is wrong, every source is up and a policy is loaded |
| OpsState.CaptureCauseExact | src/ibn_monitor/ops_state.py:137-142 | Unless stopping, after a report on a source the capture reason stands iff some source is not established |
| OpsState.StoppingIsFinal | src/ibn_monitor/ops_state.py:128-131 | Once stopping, always stopping |
| OpsRecords.SourceExactly | src/ibn_monitor/ops_state.py:105-126 | After any calls a source's record is its last reported state, the last given value of each counter and generation, and its last error until it is up or stopped again |
| OpsRecords.ReasonExactly | src/ibn_monitor/ops_state.py:55-103 | After any calls each of the other reasons stands iff the last call about it raised it |
| PipelineWorker.PipelineWorker.ObservationSink | src/ibn_monitor/pipeline.py:193-203 | A put, and a report of exactly what it evicted, charged to the arriving capture point |
| PipelineWorker.PipelineWorker.HandleObservation | src/ibn_monitor/pipeline.py:311-322 | An observation is processed at its monotonic time, or now when it has none |
| PipelineWorker.PipelineWorker.HandleControl | src/ibn_monitor/pipeline.py:324-397 | The new worker state for every kind of message, incidents and committed events included |
| PipelineWorker.PipelineWorker.MaybeClearDropReasons | src/ibn_monitor/pipeline.py:399-431 | Both drop incidents are closed under their conditions, judged on the reasons at entry |
| PipelineWorker.PipelineWorker.Turn | src/ibn_monitor/pipeline.py:264-290 | One undisturbed turn: control messages, then all queued observations if a timer waits (else at most 64), then the timers |
| PipelineWorker.PipelineWorker.Shutdown | src/ibn_monitor/pipeline.py:456-479 | Marks the shutdown, handles the oldest observations as far as the deadline allows unless forced, then closes every episode |
| PipelineWorker.PipelineWorker.Crash | src/ibn_monitor/pipeline.py:299-303 | An exception marks the worker dead and publishes |
| PipelineWorker.PipelineWorker.HandleRefused | src/ibn_monitor/pipeline.py:299-397 | A message whose event is refused has been recorded and logged like any other; then the worker is marked dead |
| PipelineTurn.TurnIsRun | src/ibn_monitor/pipeline.py:264-290 | The turn of the loop, as its contract states it, is a run of worker steps with the same outcome |
| PipelineTurn.ShutdownIsRun | src/ibn_monitor/pipeline.py:268-279 | A turn that meets a shutdown message, then the shutdown, is a run of worker steps with the same outcome |
| PipelineGrowth.LaneSize | src/ibn_monitor/pipeline.py:87-140 | Over every run the lane holds exactly the pending requests, one entry a source with statistics, one a source with drops, and every lifecycle message since the last drain |
| PipelineGrowth.LaneBound | src/ibn_monitor/pipeline.py:87-140 | At most three requests, two entries a source, and the lifecycle messages since the last drain |
| PipelineGrowth.WithinExactly | src/ibn_monitor/pipeline.py:72-114 | The lane keeps within a bound during a run iff what is sent between two drains does |
| PipelineGrowth.LaneUnbounded | src/ibn_monitor/pipeline.py:72-114 | From every start with a source and for every bound some run puts more into the lane |
| PipelineEvidence.LiveAccounting | src/ibn_monitor/pipeline.py:305-322 | At every moment of every interleaving everything put was counted by the episode processor, is queued, or is counted or reported as dropped |
| PipelineEvidence.LiveTrace | src/ibn_monitor/pipeline.py:324-461 | The evidence of every run, refused events included, carries the right revisions and its numbers never have a gap |
| PipelineEvidence.ClosedAccountsForEveryMatch | src/ibn_monitor/pipeline.py:456-479 | Once the worker has closed nothing is open, and the closes account for every match of every observation it handled |
| PipelineReload.PolicyRecorded | src/ibn_monitor/pipeline.py:433-454 | At every moment of every run that starts with the processor's revision recorded, the recorded policy revision is the one the episode processor runs under |
| PipelineReload.FatalReload | src/ibn_monitor/pipeline.py:433-443 | From every start a reload whose error is too large for a line ends the worker at once, with its number taken and nothing emitted |
| Worker.HandlingKeepsTracked | src/ibn_monitor/pipeline.py:324-431 | Handling a message keeps reasons, incident starts and announced events in agreement |
| IncidentTiming.IncidentsTimed | src/ibn_monitor/pipeline.py:342-431 | Over every run a coverage gap is announced iff a timer is handled while an incident is open and the last message that added drops lies at least the cooldown before it (and the queue is less than half full), with the total of drops and the interval since the incident's first message; a kernel incident is announced, with what the statistics say, iff they add drops while none is open |
| PipelineIncidents.IncidentsOverRuns | src/ibn_monitor/pipeline.py:342-431 | Over any run a kernel incident is announced once and closed at most once, every coverage gap names its beginning, and a drop reason stands iff its incident is open |
| PipelineLoss.LossAccounting | src/ibn_monitor/pipeline.py:36-69 | At every step of every interleaving, observations put equal handled plus queued plus counted drops plus drops in reports not yet handled; the queue keeps its capacity |
| PipelineLoss.HandledInPutOrder | src/ibn_monitor/pipeline.py:36-54 | What the worker handles is a subsequence of the put order |
| PipelineLoss.PlacedDrops | src/ibn_monitor/pipeline.py:101-109 | Coalescing in the lane adds exactly the drops a message carries |
| PipelineTimer.TimerNeverOvertakes | src/ibn_monitor/pipeline.py:264-290 | When a drained timer is handled, every observation put before that drain has been handled or evicted, whatever happened in between |
| PipelineTimer.BatchAtMost64 | src/ibn_monitor/pipeline.py:281-292 | Over every run, while no timer waits the worker turns back to the control lane after at most 64 observations |
| PipelineTimes.HandedAtOwnTimes | src/ibn_monitor/pipeline.py:311-331 | Over every run each step hands the processor exactly its own: an observation at its monotonic time, or the clock's when it has none, a tick at its timer's, a lifecycle message's own words |
| PipelineTimes.HealthPublished | src/ibn_monitor/ops_state.py:95-103 | Whenever the worker publishes, the journal reason stands iff the journal is unhealthy then; nothing else changes it |
| PipelineSources.DrainedTeaches | src/ibn_monitor/pipeline.py:116-140 | Of a drained lane only the latest statistics and then the lifecycle messages determine what is recorded of a point |
| PipelineSettles.HandlingLearns | src/ibn_monitor/pipeline.py:342-397 | Handling a message records of each point exactly what the message says |
| PipelineQuiet.StepKeepsDropsForeseen | src/ibn_monitor/capture.py:217-239 | Every step keeps what will be recorded of a source's drops equal to what the source has counted, never decreasing |
| PipelineQuiet.StepKeepsLinkForeseen | src/ibn_monitor/capture.py:126-182 | Every orderly step keeps what will be recorded of a source equal to the state its last lifecycle message names |
| PipelineResults.KernelDropsExact | src/ibn_monitor/ops_state.py:81-89 | At every quiet moment the kernel drop total is the sum of all drops the sources counted |
| PipelineResults.SourcesSettle | src/ibn_monitor/pipeline.py:87-140 | At every quiet moment a source whose thread had left its read loop whenever it said stopped is recorded in the state its last lifecycle message names |
| PipelineResults.WorkerNeverStuck | src/ibn_monitor/pipeline.py:342-388 | No message the worker takes names a source it has no record of |
| PipelineLate.LateStatsExactly | src/ibn_monitor/capture.py:126-131 | From a quiet moment with a right record, the record stays right at all later quiet moments without a new lifecycle message iff the thread is not reading after a message other than established or recovered |
| PipelineLate.LateStatsHappen | src/ibn_monitor/capture.py:126-131 | From every start there is a run after which a stopped source is recorded as established |
| JournalWriters.JournalWriter.Commit | src/ibn_monitor/journal.py:69-84 | The marker goes; healthy lines are written, synced when due, flushed and rotated; on a failure or while unhealthy the line goes to the emergency buffer |
| JournalWriters.JournalWriter.Maintain | src/ibn_monitor/journal.py:86-100 | Recovery while unhealthy, else a due sync |
| JournalWriters.JournalWriter.FlushAll | src/ibn_monitor/journal.py:102-115 | Drains and syncs while healthy, a failure makes the journal unhealthy; the marker stands afterwards iff healthy, nothing buffered, and no flush forbade it |
| JournalWriters.JournalWriter.Close | src/ibn_monitor/journal.py:117-130 | Drains and syncs while healthy, then closes unless that failed; the marker as after a flush |
| JournalWriters.JournalWriter.TryRecover | src/ibn_monitor/journal.py:193-207 | Reopens, drains and syncs; succeeds iff the journal is healthy afterwards |
| JournalWriters.JournalWriter.RotateIfFull | src/ibn_monitor/journal.py:148-164 | Flushes, and when the live file is full syncs it and rolls the files |
| JournalWriters.JournalWriter.RollFiles | src/ibn_monitor/journal.py:156-164 | Closes the live file and reshelves; stops at the first failure |
| JournalWriters.JournalWriter.ReshelveFiles | src/ibn_monitor/journal.py:157-164 | Backups move up from the highest, the live file becomes the first backup, a new one is opened; it stops at the first failure |
| JournalWriters.JournalWriter.BufferLine | src/ibn_monitor/journal.py:166-176 | Drops the oldest until the line fits, counts the dropped, appends |
| JournalWriters.JournalWriter.DrainBuffer | src/ibn_monitor/journal.py:178-186 | Writes buffered lines oldest first; each leaves the buffer once written |
| JournalOrder.CommitKeepsSound | src/ibn_monitor/journal.py:69-84 | Whatever fails, a commit keeps order, coverage and the buffer's agreement with the history |
| JournalOrder.NothingVanishes | src/ibn_monitor/journal.py:69-207 | After any calls under any faults each committed line reached a file, is in the handle, buffered or counted as dropped, or went away with a handle |
| JournalOrder.CommitOrderKept | src/ibn_monitor/journal.py:69-207 | What reached a file, then the handle, then the buffer, adjacent repeats collapsed, is a subsequence of commit order, and no line occurs three times |
| JournalOrder.HealthyMeansWritten | src/ibn_monitor/journal.py:69-207 | A healthy journal has an empty emergency buffer and an empty handle, so every line reached a file, was dropped, or went away with a handle |
| JournalHandle.AccountExact | src/ibn_monitor/journal.py:69-207 | After a call a line is accounted for iff it was, unless this call is a recovery whose close fails while the handle alone holds it |
| JournalHandle.VanishesExactly | src/ibn_monitor/journal.py:178-207 | Over every run a committed line reached no file and is in no handle, buffer or drop count iff some recovery's close failed while the handle alone held it |
| JournalHandle.LineVanishes | src/ibn_monitor/journal.py:178-207 | From every start, one failing write, a failing flush in the recovery and a failing close in the next lose a committed line uncounted |
| JournalMarker.CleanMeansStored | src/ibn_monitor/journal.py:61-67 | While the clean-stop marker stands nothing waits in handle or buffer: each line reached a file, was dropped, or went away with a handle |
| JournalMarker.MarkedExactly | src/ibn_monitor/journal.py:102-115 | After a flush the marker stands iff the journal is healthy and no flush so far forbade it |
| JournalMarker.ShutClean | src/ibn_monitor/journal.py:117-130 | After a close that ends healthy nothing waits |
| JournalSync.UnsyncedExact | src/ibn_monitor/journal.py:132-146 | After any calls under any faults the counter is the bytes written since the last successful fsync, and no line ever left the live file before an fsync covered it |
| JournalSync.LastSyncMoves | src/ibn_monitor/journal.py:137-146 | Over every run the time of the last sync moves only with a successful fsync, and to a reading of the clock |
| JournalSync.CadenceKept | src/ibn_monitor/journal.py:69-100 | After a commit or a maintenance that ends healthy every byte written is fsynced, or the last sync is less than the interval before the clock's reading |
| JournalSync.FlushedIsSafe | src/ibn_monitor/journal.py:102-115 | After a flush that ends healthy everything written is fsynced |
| JournalSync.CleanMeansSafe | src/ibn_monitor/journal.py:61-130 | While the clean-stop marker stands everything written is fsynced |
| JournalLaws.CommitExactly | src/ibn_monitor/journal.py:69-164 | A commit without failures appends to the live file, and rotates iff the file has then reached the size limit: each backup moves up by one, the live file becomes the first |
| JournalLaws.TrimExactly | src/ibn_monitor/journal.py:166-176 | The buffer drops its oldest lines, as few as make room |
| JournalLaws.FaultlessRecovers | src/ibn_monitor/journal.py:86-207 | Once nothing fails, the next maintenance makes the journal healthy and writes everything that waited, in order |
| JournalBounds.EmergencyBounded | src/ibn_monitor/journal.py:166-176 | The buffer's byte count is right, it holds at most the allowed events, and it exceeds the byte limit only when one line does |
| JournalFiles.RollKeeps | src/ibn_monitor/journal.py:156-164 | However far a rotation gets, what rotations overwrote followed by what the files hold is everything that was there or reached a file |
| JournalFiles.ReshelveLoses | src/ibn_monitor/journal.py:157-164 | However far it gets, the files up to the backup count, read in order, lose nothing or exactly the last backup; the others stay as they were |
| JournalFiles.FilesAreExact | src/ibn_monitor/journal.py:148-164 | After any calls under any faults, rotations stopped anywhere included, what rotations overwrote followed by the files up to the backup count, read from the highest index to the live one, equals what was there followed by everything that reached a file since; files above the count are untouched |
| JournalRetention.OverwritesExactly | src/ibn_monitor/journal.py:69-164 | Each call overwrites nothing or exactly the last backup as it stood before, and only a commit of a healthy journal whose live file is full does |
| JournalRetention.FailedRotationOverwrites | src/ibn_monitor/journal.py:157-164 | A rotation that fails right after its first rename has overwritten the last backup |
| JournalRetention.Retained | src/ibn_monitor/journal.py:148-164 | Over every run each place of the files holds the line its place number says: one that was there at the start or one that reached a file since |
| JournalRetention.InFileMeans | src/ibn_monitor/journal.py:148-164 | A line that reached a file stands at its place in the files as long as fewer lines than that were overwritten |
| JournalRetention.NowhereExactly | src/ibn_monitor/journal.py:69-207 | Over every run a committed line is in no file, handle, buffer or drop count iff a recovery's close failed while the handle alone held it, or it reached a file and rotation has overwritten it |
| JournalRetention.RotatesOut | src/ibn_monitor/journal.py:148-164 | From every start, commits of any one line without any fault rotate the first of them out of the files |
| JournalStale.StaleExactly | src/ibn_monitor/journal.py:148-164 | All existing files read as an ordered suffix in every run iff the backups above the backup count hold no line |
| JournalStale.StaleDisorders | src/ibn_monitor/journal.py:148-164 | A line in such a backup comes out of order once enough has been written |

## Left out

- Sockets, adapters, `recvmsg`, Windows discovery, HTTP, dashboard, webhooks, command line and signals: input and output only.
- Configuration loading, JSON Schema and migration: their guarantees (unique ids, non-empty ports, ports only on TCP and UDP, a shared family, capacity and backup count at least one, positive timers) are preconditions.
- Hashes and revisions are opaque values with equality; sensor id, boot id, uuids and severity texts do not occur in envelopes.
- Of an event's line the payload is JSON text, written in the order of the fields instead of sorted; the bytes of the envelope around it are a parameter, numbers are given by their digits, and texts have no lone surrogates. A journal line is a text with its UTF-8 length.
- Evidence.OwnEventsFit: the events of an effective, refused or unchanged reload are taken as accepted in the processor, as this lemma justifies for revisions of 64 digits and an envelope that leaves 2000 bytes.
- Floating point and `datetime`: times are integers, and emission times are parameters.
- Enforcement.RenderNftables: does not model the nft text and its comments; the text of an expression is a parameter that tells expressions apart and orders them.
- Replay.ReplayRun.DrainReady: `heapq` is kept as its entries in pop order instead of an array heap.
- Episodes.EpisodeTracker.Observe: the ordered dictionary is a sequence of records that carry their keys; per-point counters are a map, so their sorted presentation is not modelled.
- Eviction order and session windows assume a lifecycle clock that never goes back, as replay guarantees; the ledger and the trace grammar hold for any clock.
- OpsState.OperationalStateMachine.SetSource: source records are values in a map, not objects updated in place.
- Header readers other than the PCAP record reader (`StagedPeekReader`, plain byte readers) are not modelled.
- `capture.py` is modelled as the steps of its thread (open, fail, retry, read, report, say stopped); reconnect backoff, decode fallback and outcome counters are not.
- PipelineWorker.PipelineWorker.Turn: runs undisturbed, as one run of the step system; the interleaved worker is that system, which has no timeouts and lets the worker begin shutdown whenever the queue is empty.
- PipelineWorker.PipelineWorker.HandleControl: only reloads and lifecycle messages, whose events repeat an exception's text, can be refused (`HandleRefused`); kernel-drop and gap events carry only configured names and numbers and are taken as accepted. `maintain` is part of the journal's own model.
- PipelineWorker.PipelineWorker.Shutdown: the drain's deadline is a number of observations; in the step system a closing worker may handle any number before it closes the episodes. The clean marker and stopping the notifier are not modelled.
- PipelineReload.PolicyRecorded: a reload inside the worker is its logged call with the revision it switched to, tied to `Processing.EpisodeProcessor.Reload`; what it loads and the time it reads come from outside.
- JournalWriters.JournalWriter.Commit: marker operations are taken not to fail (a failing `unlink` would raise before the line is handled), a write the file object refuses leaves nothing in it, and what a power loss after a failed sync leaves on disk is not modelled.
- `ReadModel`, notifier, metrics: they would only add easy members.
