# SoundSwarm timing model

SoundSwarm makes many phones play the same audio at the same instant. A Go
server stamps captured frames, numbers them per client and sends them over UDP;
a C++ client conceals losses, queues the frames in a lock-free jitter buffer and
plays each of them one global delay after its capture, on a clock corrected by
the offset the server measured. This project models that chain, from the capture
loop to the DAC, and proves what it promises.

How the modules fit together:

- `Playback` is the jitter buffer as an abstract event machine (accept, reject,
  begin, skip, copy, finish) with its timeline rule. `JitterBuffer` is the
  sequential class and `SpscRing` the two threads in atomic steps; both are
  proved to produce only traces `Playback` allows, so order, conservation and
  timing are proved once. `Ring` holds the arithmetic of the wrapping 64-bit
  counters, `Percentile` the P95 of the transit window, `Gapless` when playback
  has no gaps.
- `ClockSync` is the offset estimate, the handshake and the drift correction;
  `OffsetAgreement` carries the offset to the client's audio gate, through the
  text helpers of `JsonText`; `Framing` cuts the control stream into messages.
- `Device` is one client as a whole: its control channel, its drifting clock, its
  network thread and its audio thread, interleaved. `EndToEnd` combines two of
  them into the bound on how far apart two speakers can be.
- `LatencyEqualizer` is the global delay, `AudioPipeline` the capture timestamps,
  `StreamManager` the frame queue and the per-client numbering, `Wire` (over
  `Bytes`) the UDP packet in both languages, `Numbering` the way from captured
  frames to a client's sequence numbers, `LossConcealment` the rebuilt timeline.
- `Session` is the registry of clients and `Lifecycle` the handlers racing with
  kicks and evictions.

Objects that the source updates in place are classes here, with a value view
against which their methods are proved; protocols between threads or machines are
state machines over all sequences of steps. Every access to shared state is one
sequentially consistent step, and every critical section is one step. Times,
draws, arrival orders and outcomes of I/O are parameters. Delays are `real`,
microseconds are unbounded integers, counters and wire fields have their widths.
Names of files and lines refer to the SoundSwarm repository.

Where the code and its comments disagree the model follows the code:

- `internal/sync/clock.go:1-7` announces a median with outlier rejection; the
  handshake takes the round with the smallest round trip.
- `internal/sync/latency.go:43-45` reads as if every change of 10 ms were acted
  on; a change is measured against the last report, so small ones add up unseen
  (`LatencyEqualizer.CreepGoesUnnoticed`, `LatencyEqualizer.ReportIsCoveredIff`).
- `internal/sync/latency.go:172-174` promises a fall by 2 ms every 5 seconds, the
  rhythm of the reports; a report that equals the last one recalculates nothing,
  so after a spike the delay stays up (`LatencyEqualizer.SpikeStays`).
- `client/core/src/network.cpp:256` counts a 17-byte header; it is 18 bytes.
- `internal/protocol/packet.go:110` speaks of a payload length that does not
  match; bytes behind the declared payload are accepted and ignored.

Five properties one might expect do not hold, and are replaced by exact ones:
the delay need not cover the current reports (`LatencyEqualizer.ReportIsCoveredIff`);
a kick does not stop the stream when it falls between the handler's writing of
CLOCK_OFFSET and its joining of the stream (`Lifecycle.KickLastsIff`); a client
need not get one sequence number per captured frame
(`Numbering.OneNumberPerFrameIff`); the smallest int64 cannot be read back by the
client (`JsonText.IntOfDecimal`); a gap of more than ten losses leaves holes in
the timeline (`LossConcealment.OneEntryPerSeqNum`).

## Model

| member | source | states |
|---|---|---|
| EndToEnd.TwoSpeakers | client/core/src/jitter_buffer.cpp:90-164 | for any interleavings on two clients, what sounds at two positions of handed-back buffers due at the same server instant was captured within twice both frame durations, 1 us, both clock errors and the difference of the delays |
| EndToEnd.OneSpeaker | client/core/src/jitter_buffer.cpp:96-156 | one client: the sample at a position of a call's buffer is the one the copy took from its frame, and its capture time is one delay before the position is due, up to two frame durations and the clock error |
| EndToEnd.InSync | client/core/src/engine.cpp:220-232 | two whole clients under one delay, at any of their calls: the bound with what each offset in use was last checked to, and the drift since |
| EndToEnd.EverySoundHasACall | client/core/src/engine.cpp:220-232 | every sound of a client belongs to one of its calls, whose offset was checked, so the bounds cover all that is heard |
| EndToEnd.InSyncAfterHandshake | internal/sync/clock.go:180-214 | with offsets from handshakes and no drift since, each clock adds half its best round trip and half a microsecond |
| EndToEnd.InSyncForever | internal/sync/clock.go:251-298 | in every run, at every call, with round trips up to a limit: the bound adds only the dead band, that limit, and the drift since the last check of the offset in use |
| Device.CallsUseCheckedOffsets | client/core/src/engine.cpp:220-232 | in every run of a client the pulls are its calls, and each uses an offset the server had stored, wrong by no more than its last check and the drift since allow, also while a correction is written, lost or in flight |
| Device.AnswersAreOutputsOrZeros | client/core/src/engine.cpp:220-232 | the buffers the device is given are the outputs of the ring, in order, and buffers of zeros behind the closed gate |
| Device.CallTakesItsArguments | client/core/src/engine.cpp:230-231 | a pull begins with the arguments of its callback and the offset applied by then |
| Device.ClosedGateAnswers | client/core/src/engine.cpp:225-227 | behind a closed gate a callback gets as many zeros as it asks for, at once |
| Device.SilentUntilOffset | client/core/src/engine.cpp:220-232 | as long as no offset was applied, every callback is handed a buffer of zeros and nothing is pulled |
| Device.OpenGateMeansOffset | client/core/src/engine.cpp:293-300 | an open gate means an offset written on the present connection |
| Device.ChecksStayShort | internal/sync/clock.go:251-298 | however long a client runs, the check behind each call is as good as the dead band and one round trip |
| Device.ThreadsMoveTheRing | client/core/src/engine.cpp:220-232 | every packet's frame and every callback in progress take a step of the shared ring, the callback under the offset applied; no other step touches the ring |
| Device.StepKeeps | client/core/src/engine.cpp:206-300 | every step of control channel, clock, network thread and audio thread keeps: checks hold, all offsets in use were checked, calls and answers in line with the ring |
| SpscRing.EveryInterleaving | client/core/src/jitter_buffer.cpp:46-66 | in every interleaving of the atomic steps the trace is one of a sequential buffer: consumed frames are a prefix of the accepted ones, and head - tail counts the rest, at most 128, also when the counters wrap |
| SpscRing.EveryReadableSlot | client/core/src/jitter_buffer.cpp:58-66 | in every interleaving the slots between tail and head hold exactly those frames, complete, and the slot being written is none of them |
| SpscRing.EveryOutput | client/core/src/jitter_buffer.cpp:104-163 | in every interleaving each output has the requested size and is samples up to a cut and zeros behind it; the parts before the cuts and the running call's are the samples copied, in order |
| SpscRing.EverySample | client/core/src/jitter_buffer.cpp:106-155 | in every interleaving what the outputs hold before their cuts are the kept accepted samples, in order and once each, and the accepted samples behind those that left are the unread ones |
| SpscRing.EverySkipIsTooOld | client/core/src/jitter_buffer.cpp:120-130 | in every interleaving samples are not kept only because the rule called their frame, the oldest, too old |
| SpscRing.EverySoundIsInItsBuffer | client/core/src/jitter_buffer.cpp:139-148 | in every interleaving position e.at + i of a call's buffer holds sample e.from + i of the frame copied, and the copy served this call |
| SpscRing.EverySoundOnTime | client/core/src/jitter_buffer.cpp:117-156 | in every interleaving that sample is on time for its call and its position |
| SpscRing.EverySoundWasCopied | client/core/src/jitter_buffer.cpp:139-161 | in every interleaving each position before a cut was written by a copy of its call |
| SpscRing.PushAdvances | client/core/src/jitter_buffer.cpp:41-66 | a push is wait-free: each of its steps brings it nearer to its return, none of the audio thread's matters |
| SpscRing.PushCompletes | client/core/src/jitter_buffer.cpp:41-66 | a push that finds room and is not interrupted stores the frame in the slot at the head, every sample of it, with timestamp and mark, publishes it and returns, touching nothing else |
| SpscRing.FullPushIsRefused | client/core/src/jitter_buffer.cpp:47-56 | a push refuses its frame exactly if 128 frames lie between the tail it loaded and its head, and then returns at once |
| SpscRing.EveryRefusalIsFull | client/core/src/jitter_buffer.cpp:50-56 | in every interleaving a frame is refused only while 128 accepted frames are unread |
| SpscRing.PullAdvances | client/core/src/jitter_buffer.cpp:106-156 | every step of the copy loop ends it or decreases frames left, samples left and place in the turn, in that order, empty frames included; only newly published frames put the end off |
| SpscRing.StepKeeps | client/core/src/jitter_buffer.cpp:41-164 | one atomic step of either thread keeps the invariant that relates ring, counters, program counters and trace |
| SpscRing.ProducerKeeps | client/core/src/jitter_buffer.cpp:41-66 | every step of `push`, including those on a stale tail, keeps the invariant |
| SpscRing.ConsumerKeeps | client/core/src/jitter_buffer.cpp:90-164 | every step of `pull`, including those on a stale head, keeps the invariant |
| SpscRing.HeadWriteInvisible | client/core/src/jitter_buffer.cpp:58-63 | rewriting the unpublished slot changes nothing the consumer can read |
| SpscRing.ReaderUndisturbed | client/core/src/jitter_buffer.cpp:66 | publishing a frame in the middle of a pull changes nothing the pull relies on |
| SpscRing.WriterUndisturbed | client/core/src/jitter_buffer.cpp:150-155 | the consumer's steps never touch the slot being written |
| Ring.CounterStep | client/core/src/jitter_buffer.cpp:46-66 | head minus tail in wrapping 64-bit arithmetic counts the frames, because 128 divides 2^64 |
| Ring.WindowRetire | client/core/src/jitter_buffer.cpp:150-155 | advancing the tail removes exactly the oldest frame, across wrap-around |
| Ring.WindowWrite | client/core/src/jitter_buffer.cpp:58-66 | writing at the head appends one frame and leaves the others alone |
| Playback.StaysWellPlaced | client/core/src/jitter_buffer.cpp:139-155 | in every run read and write offsets stay multiples of the channel count, and the cursor inside the oldest frame |
| Playback.ConsumedIsPrefixOfAccepted | client/core/src/jitter_buffer.cpp:50-66 | accepted frames are the retired ones followed by the queue, which holds at most 128 |
| Playback.SamplesConserved | client/core/src/jitter_buffer.cpp:125-155 | every accepted sample is, in order and once, copied out, dropped by the too-old rule, or buffered beyond the cursor |
| Playback.OutputsFillRequests | client/core/src/jitter_buffer.cpp:94-163 | every finished pull filled exactly the buffer it was given |
| Playback.OutputsPlayThenFallSilent | client/core/src/jitter_buffer.cpp:104-163 | in every run each output is samples up to a cut and zeros behind it; the parts before the cuts and the current buffer are exactly the samples copied, in order |
| Playback.OutputsAreAcceptedSamples | client/core/src/jitter_buffer.cpp:104-163 | in every run those samples are the accepted ones that were kept, in order and exactly once; the rest of the accepted ones is unread |
| Playback.OnlyOldFramesAreSkipped | client/core/src/jitter_buffer.cpp:120-130 | samples leave unheard only with the oldest frame, when the rule calls it too old |
| Playback.RefusedOnlyWhenFull | client/core/src/jitter_buffer.cpp:50-56 | the same of every history of the buffer: a refusal means 128 queued frames |
| Playback.CopyIsHeard | client/core/src/jitter_buffer.cpp:139-148 | what a copy wrote stays at its position, before the cut, in the buffer of the call it served |
| Playback.SoundsWereCopied | client/core/src/jitter_buffer.cpp:139-161 | every position before a cut was written by a copy of that call |
| Playback.CallsAreAnswered | client/core/src/jitter_buffer.cpp:90-164 | calls are answered one by one, with the running one last |
| Playback.AfterNext | client/core/src/jitter_buffer.cpp:106-156 | a turn that goes on leaves fewer frames, or the same frames and fewer samples to fill, empty frames included |
| Playback.NeededIs | client/core/src/jitter_buffer.cpp:94 | the samples a call asks for are its frames times the channels |
| Playback.SpanIs | client/core/src/jitter_buffer.cpp:118-123 | durations are the source's divisions, rounding down twice |
| Gapless.GaplessPlayback | client/core/src/jitter_buffer.cpp:104-163 | equal adjoining frames, adjoining calls and a lead within one frame: outputs, current buffer and unread samples together are the accepted frames, sample by sample |
| Gapless.GaplessInterleaving | client/core/src/jitter_buffer.cpp:41-164 | the same under both threads, in any interleaving |
| Gapless.NothingSkippedOrPadded | client/core/src/jitter_buffer.cpp:125-137 | in such a run the rule never calls a frame too old or too early, and no buffer is padded |
| Gapless.LateCutIsSkipped | client/core/src/jitter_buffer.cpp:125-130 | at the start of a call the rest of the oldest frame is skipped exactly when more of it was read than the lead leaves of two frames |
| Gapless.EarlyFrameIsHeld | client/core/src/jitter_buffer.cpp:132-137 | and it is held back exactly when its start is more than one frame ahead of the target |
| Playback.DrainReplays | client/core/src/jitter_buffer.cpp:90-164 | a pull, run to its end, is a possible continuation of the history and ends idle with its output recorded |
| Playback.CopiesAreOnTime | client/core/src/jitter_buffer.cpp:98-155 | every copied sample lies between -(2 frame durations + 1 us) and +2 frame durations of its target, also in frames read in parts by several pulls |
| JitterBuffer.JitterBuffer.Push | client/core/src/jitter_buffer.cpp:41-85 | appends the frame unless 128 are unread, then changes nothing but the history; the window of transit times stays the last 200 plausible ones |
| JitterBuffer.JitterBuffer.Pull | client/core/src/jitter_buffer.cpp:90-164 | output, queue and cursor are those of the abstract pull with the current delay |
| JitterBuffer.JitterBuffer.Turn | client/core/src/jitter_buffer.cpp:106-156 | one turn of the loop takes the branch the timeline rule says, with its effect on ring, cursor and output |
| JitterBuffer.JitterBuffer.CopyFront | client/core/src/jitter_buffer.cpp:139-155 | copies the due piece and releases the frame exactly when it is used up |
| JitterBuffer.JitterBuffer.CopyDue | client/core/src/jitter_buffer.cpp:104-156 | the loop over all that is due computes the abstract pull |
| JitterBuffer.JitterBuffer.SetGlobalDelayMs | client/core/src/jitter_buffer.cpp:169-173 | stores the delay truncated to microseconds |
| JitterBuffer.JitterBuffer.GetP95JitterMs | client/core/src/jitter_buffer.cpp:178-194 | zero for an empty window, otherwise the member of it that more than 95% of it do not exceed while at most 95% are smaller |
| JitterBuffer.WindowSlides | client/core/src/jitter_buffer.cpp:74-84 | push-and-drop-oldest keeps exactly the last 200 plausible transit times of the whole history |
| Playback.TransitsArePlausible | client/core/src/jitter_buffer.cpp:77-79 | those are the non-negative times below two seconds of accepted frames, and no others |
| JitterBuffer.PullReplays | client/core/src/jitter_buffer.cpp:90-164 | any pull on an idle buffer continues its history and leaves the transit window alone |
| Percentile.IndexIsP95 | client/core/src/jitter_buffer.cpp:185-193 | the element at floor(0.95 n) of any sorting of the window is its 95th percentile |
| Percentile.P95IsUnique | client/core/src/jitter_buffer.cpp:189-193 | there is one such value only, so the maximum of a window with an outlier is not it |
| Percentile.CountIsOrderFree | client/core/src/jitter_buffer.cpp:185-187 | how many values lie below a bound does not depend on their order |
| ClockSync.RttIsPathDelays | internal/sync/clock.go:82-84 | the round trip is exactly the two path delays, whatever the offset of the clocks |
| ClockSync.TurnaroundDoesNotCount | internal/sync/clock.go:82-84 | however late the client answers, the round trip is the same |
| ClockSync.OffsetIsMean | internal/sync/clock.go:87-89 | the offset is the mean of what both paths suggest, rounded towards zero |
| ClockSync.EstimateError | internal/sync/clock.go:82-89 | for non-negative path delays the estimate is off by at most half the round trip and half a microsecond |
| ClockSync.HandshakeError | internal/sync/clock.go:180-201 | the stored offset is as good as every one of the rounds promises |
| ClockSync.BestIsUnique | internal/sync/clock.go:180-190 | the earliest round with the smallest round trip is one round only |
| ClockSync.PickBest | internal/sync/clock.go:180-190 | the loop finds the earliest round with the smallest round trip |
| ClockSync.MovesBeyondDeadBand | internal/sync/clock.go:268-295 | the record moves exactly beyond 500 us of difference, and then to the estimate |
| ClockSync.ReplyError | internal/sync/clock.go:268-295 | after a reply, corrected or not, twice the error is at most 1000 + rtt + 1 us |
| ClockSync.ErrorStaysBounded | internal/sync/clock.go:251-298 | over any run of drift and replies the error stays below the dead band, the round trip and the drift since the last reply |
| ClockSync.ClockRegistry.InitialHandshake | internal/sync/clock.go:142-225 | a failed round stores nothing and names itself; otherwise the best round is stored, and sent unless the write fails |
| ClockSync.ClockRegistry.ProcessPeriodicReply | internal/sync/clock.go:251-298 | unknown clients are refused; the record moves exactly beyond the 500 us dead band, and the correction is what is sent |
| ClockSync.ClockRegistry.RemoveClient | internal/sync/clock.go:314-318 | exactly this client's record goes |
| OffsetAgreement.OffsetsAgree | internal/sync/clock.go:195-214 | in every run, outside the window between storing and writing and with no unwritten offset, the server's offset is the newest in flight, or the applied one if none is |
| OffsetAgreement.OpenGateMeansOffset | client/core/src/engine.cpp:293-300 | in every run, reconnections included, the audio gate is open only on an offset written on this connection |
| OffsetAgreement.ChangedOffsetIsWritten | internal/sync/clock.go:203-212 | whenever the stored offset changes, the handler's next step is to write just that offset to the client |
| OffsetAgreement.ReplyOutcome | internal/sync/clock.go:268-295 | a reply stores what the dead band makes of it, and leaves everything alone within the band |
| OffsetAgreement.WriteOutcome | internal/sync/clock.go:208-214 | a written offset is the newest in flight; an unwritten one changes nothing there, and ends the handler only if it was the first |
| OffsetAgreement.RejectionClosesTheGate | client/core/src/engine.cpp:273-277 | a rejection closes the gate and keeps the offset; other messages than offsets leave both alone |
| OffsetAgreement.UnwrittenCorrectionSplits | internal/sync/clock.go:271-285 | a correction stored but not written leaves both sides apart by more than 500 us |
| OffsetAgreement.StepKeepsAgreed | internal/sync/clock.go:268-285 | every step keeps: the client, once everything in flight is handled, has the offset written last |
| OffsetAgreement.LastOffsetWins | client/core/src/engine.cpp:293-300 | of all messages in flight only the newest offset decides what the client ends up with |
| OffsetAgreement.Engine.HandleTCPMessage | client/core/src/engine.cpp:245-300 | the offset and the gate change as the decoded message says, and for no other message |
| OffsetAgreement.Engine.ReadAudio | client/core/src/engine.cpp:220-232 | behind a closed gate only zeros, with the buffer untouched; behind an open one a pull with the applied offset |
| OffsetAgreement.Engine.Stop | client/core/src/engine.cpp:206-218 | closes the gate and keeps the offset |
| LatencyEqualizer.EveryRunIsSafe | internal/sync/latency.go:110-211 | in every run with broadcasts reordered or dropped: delay in [20, 500], above the target of the last recalculation minus 0.5, clients hold 30 ms or a value once held |
| LatencyEqualizer.StepIsSafe | internal/sync/latency.go:149-202 | no step lowers the delay by more than 2 ms |
| LatencyEqualizer.ClientDelaysInRange | client/core/src/jitter_buffer.cpp:169-173 | every delay a client ever applies is between 20 and 500 ms |
| LatencyEqualizer.RecalculationIsSafe | internal/sync/latency.go:154-187 | a recalculation keeps the range, falls by at most 2 ms and ends above target - 0.5 |
| LatencyEqualizer.SettledIff | internal/sync/latency.go:175-187 | the delay is left alone exactly within 0.5 ms of the target |
| LatencyEqualizer.FallsToTarget | internal/sync/latency.go:172-187 | from above, repeated recalculation never passes the target and is within 0.5 ms after half the distance in steps |
| LatencyEqualizer.RisesAtOnce | internal/sync/latency.go:172-187 | from below, one step reaches the target, unless within 0.5 ms of it, and nothing changes after |
| LatencyEqualizer.NoReportsNoChange | internal/sync/latency.go:150-152 | without reports a recalculation changes nothing, whatever the headroom |
| LatencyEqualizer.MovesReachTheServer | internal/sync/latency.go:110-251 | over any move a client's report comes, stays and goes by its own reports and its own removal, the headroom by its setter alone |
| LatencyEqualizer.ChangesAreSaid | internal/sync/latency.go:182-201 | a delay is broadcast exactly when it changed; a joining client is told the one in force |
| LatencyEqualizer.ClientsAreToldDelays | client/core/src/jitter_buffer.cpp:169-173 | a client starts at 30 ms and applies the delay of each message that arrives, in microseconds; nothing else moves it |
| LatencyEqualizer.FixedSettingsRepeat | internal/sync/latency.go:110-211 | in any run that leaves reports and headroom as they are, the delay is that of repeated recalculation, once per removal or setting of the headroom |
| LatencyEqualizer.RunsConverge | internal/sync/latency.go:172-187 | so such a run never passes the target from above, and converges as far as it recalculates |
| LatencyEqualizer.UnnoticedRunsStandStill | internal/sync/latency.go:120-123 | runs of reports that each change by less than 10 ms leave the delay alone, however far they lead |
| LatencyEqualizer.EqualReportsAreUnnoticed | internal/sync/latency.go:120-123 | periodic equal reports are such a run |
| LatencyEqualizer.SpikeStays | internal/sync/latency.go:172-179 | after one spike the delay stays at 498 ms, target 20, however often the client reports zero |
| LatencyEqualizer.ReportIsCoveredIff | internal/sync/latency.go:110-125 | a report leaves the delay covering all reports exactly when it is acted on or small enough by itself |
| LatencyEqualizer.CreepGoesUnnoticed | internal/sync/latency.go:120-123 | any number of reports, each less than 10 ms from the last, is stored without the delay moving |
| LatencyEqualizer.DelayMayLagBehindReports | internal/sync/latency.go:110-125 | a run of two reports after which the delay is 9 ms short |
| LatencyEqualizer.MaxP95 | internal/sync/latency.go:154-160 | the largest report, at least zero, whatever the order of the map |
| LatencyEqualizer.TargetIsLeast | internal/sync/latency.go:154-170 | the target is the least delay in [20, 500] that leaves room for every report and the headroom, or 500 |
| LatencyEqualizer.TenMillisecondsCount | internal/sync/latency.go:120-123 | the threshold from both sides: 10 ms of change are acted on, a tenth less is not |
| LatencyEqualizer.ReportIsStored | internal/sync/latency.go:114-118 | a report replaces the client's last one and no other, acted on or not |
| LatencyEqualizer.RemovedIsGone | internal/sync/latency.go:205-211 | a client that left has no report, the others keep theirs |
| LatencyEqualizer.RemovedStaysGone | internal/sync/latency.go:205-211 | and in every run it has none until it reports again |
| LatencyEqualizer.LouderClientLeaves | internal/sync/latency.go:205-211 | the input: after the louder of two clients leaves, 500 ms fall to 498 |
| LatencyEqualizer.HeadroomIsSet | internal/sync/latency.go:246-251 | the headroom is what was set, the reports stay, and the delay covers each of them with it |
| LatencyEqualizer.LatencyEqualizer.LargestReport | internal/sync/latency.go:154-160 | the loop in any map order finds that maximum |
| LatencyEqualizer.LatencyEqualizer.Recalculate | internal/sync/latency.go:149-202 | the delay settles towards the target of all reports, and a change, only a change, is broadcast |
| LatencyEqualizer.LatencyEqualizer.ReportJitter | internal/sync/latency.go:110-145 | the report is stored; recalculation, broadcast and frame-size change follow exactly from a significant one |
| LatencyEqualizer.LatencyEqualizer.RemoveClient | internal/sync/latency.go:205-211 | the report goes and the rest is recalculated |
| LatencyEqualizer.LatencyEqualizer.SetHeadroom | internal/sync/latency.go:246-251 | recalculates with the new headroom |
| AudioPipeline.AudioPipeline.StampFrame | cmd/soundswarm-server/main.go:273-293 | timestamp and new anchor of one frame: snap, slew or neither |
| AudioPipeline.AudioPipeline.Run | cmd/soundswarm-server/main.go:251-329 | the loop over any read and encoder outcomes, stereo or surround, sends exactly the encoded channels of each frame under one stamp, and still counts frames that are not encoded |
| AudioPipeline.AudioPipeline.SendEncoded | cmd/soundswarm-server/main.go:304-313 | the encoder loop hands over the channels that encode, in order, and passes over the others |
| AudioPipeline.ProcessIsBefore | cmd/soundswarm-server/main.go:261-293 | failed and empty reads and encoder outcomes leave no trace in the state of the control loop |
| AudioPipeline.RawCountsFromAnchor | cmd/soundswarm-server/main.go:274 | without snaps and slews the stamp is the anchor and 10 ms for every 480 sample groups |
| AudioPipeline.StampOrSnap | cmd/soundswarm-server/main.go:276-284 | a frame is stamped by the count within 100000 us of the wall clock, and with the wall clock beyond |
| AudioPipeline.ShiftTowardsClock | cmd/soundswarm-server/main.go:280-293 | the anchor moves onto the clock by a snap, 20 us towards it beyond 5000 us, and not at all within |
| AudioPipeline.StampNearWallClock | cmd/soundswarm-server/main.go:276-284 | every frame is stamped within 100000 us of the wall clock |
| AudioPipeline.ConsecutiveStamps | cmd/soundswarm-server/main.go:273-293 | consecutive stamps differ by 9980, 10000 or 10020 us unless the later one snaps |
| AudioPipeline.FrameAdvances | cmd/soundswarm-server/main.go:273-293 | a frame moves the unsnapped timestamp by exactly 10 ms and the slew: no rounding accumulates |
| AudioPipeline.SteadyClockNeverSnaps | cmd/soundswarm-server/main.go:276-291 | with 10000 +- 20 us per frame only the first frame can snap, from any start |
| AudioPipeline.SmallDeltaIsAbsorbing | cmd/soundswarm-server/main.go:285-291 | once within 5020 us of the wall clock, for ever |
| AudioPipeline.SmallDeltaIsReached | cmd/soundswarm-server/main.go:285-291 | with +- 19 us that range is reached in as many frames as microseconds are missing |
| AudioPipeline.SteadyStamps | cmd/soundswarm-server/main.go:273-293 | all stamps of a steady run are 10 ms apart, give or take one slew, from any start |
| AudioPipeline.SettledStamps | cmd/soundswarm-server/main.go:285-291 | the stamps themselves get within 5020 us of the wall clock in a bounded number of frames |
| Numbering.SentIsStamps | internal/stream/manager.go:211-215 | with one encoding of each capture for a client, the stamps it is sent are those of the captures |
| Numbering.OneNumberPerFrameIff | internal/stream/manager.go:211-215 | under a steady clock that holds exactly then |
| Numbering.StereoMixGetsAll | internal/stream/manager.go:211-215 | a client on the stereo mix gets every channel that was encoded |
| Numbering.StereoMixUnderSurround | internal/stream/manager.go:211-215 | so one capture with two encoded channels is enough for its numbers not to follow the captures |
| Numbering.TwoChannelsTwoNumbers | cmd/soundswarm-server/main.go:304-313 | the input: one capture of two channels gives it two numbers under one timestamp |
| Numbering.SteadySent | cmd/soundswarm-server/main.go:273-313 | what such a client is sent in a steady run is 10 ms apart, give or take one slew |
| Numbering.SettledSent | cmd/soundswarm-server/main.go:285-313 | and within 5020 us of the wall clock after a bounded number of frames |
| Numbering.WantedStamps | internal/stream/manager.go:211-215 | the places in the queue that match a client carry the stamps the capture loop sent to its channel |
| Numbering.OneMoreFrame | internal/stream/manager.go:201-231 | a client sent the next queued frame exactly if it matches has been sent everything that matches since it started |
| Numbering.NumbersFollowCaptures | internal/stream/manager.go:220-228 | then, with nothing dropped at the queue, sequence number k + 1 is capture skipped + k |
| StreamManager.FrameQueue.Fill | internal/stream/manager.go:181-185 | a pooled or new buffer takes the frame; buffers in the queue and in sending keep their bytes |
| StreamManager.FrameQueue.Offer | internal/stream/manager.go:187-198 | queued in FIFO order below 200 frames, otherwise dropped and the buffer back in the pool |
| StreamManager.FrameQueue.Take | internal/stream/manager.go:118-119 | the loop gets the oldest frame |
| StreamManager.FrameQueue.AtHand | internal/stream/manager.go:118-119 | the buffer being sent still holds the bytes given at enqueue time, for the oldest frame not done |
| StreamManager.FrameQueue.Recycle | internal/stream/manager.go:121-124 | the buffer returns to the pool, and every buffer is in exactly one of pool, queue, filling and sending |
| StreamManager.PartitionJoin | internal/stream/manager.go:182-185 | taking a buffer keeps every buffer in exactly one place |
| StreamManager.PartitionLeave | internal/stream/manager.go:121-124 | returning a buffer, from either end of the line, keeps every buffer in exactly one place |
| StreamManager.ClientsSeeTheQueue | internal/stream/manager.go:220-242 | each datagram parses, in either language, to kind 1, the number of the attempt modulo 2^32, and timestamp, channel, codec and bytes of the frame as queued; later numbers are later in the queue |
| StreamManager.OwnChannelOnly | internal/stream/manager.go:211-215 | a client on one channel gets the frames of that channel and of the stereo mix, and no others |
| Numbering.OneChannelOneCopy | internal/stream/manager.go:211-215 | under surround capture that is one frame per capture, if its channel was encoded |
| StreamManager.Manager.ChosenAre | internal/stream/manager.go:204-217 | the clients chosen for a frame are the active ones in the map that match its channel |
| StreamManager.Manager.constructor | internal/stream/manager.go:72-111 | nobody to send to and no frame on its way |
| StreamManager.Manager.AddClient | internal/stream/manager.go:135-153 | a fresh record with number 0 under the id; an old record under it is left as it was |
| StreamManager.Manager.RemoveClient | internal/stream/manager.go:156-160 | exactly the id goes; a frame being sent goes on to the removed client |
| StreamManager.Manager.SetChannel | internal/stream/manager.go:163-169 | changes the channel of a known client and nothing else |
| StreamManager.Manager.SetFrameSize | internal/stream/manager.go:172-178 | changes the frame size of a known client and nothing else |
| StreamManager.Manager.KeepAlive | internal/stream/manager.go:324-334 | a known client moves to the address its packet came from |
| StreamManager.Manager.SendAudio | internal/stream/manager.go:181-199 | the frame is appended to the queue as given, or dropped when 200 wait |
| StreamManager.Manager.Snapshot | internal/stream/manager.go:202-218 | the clients to serve are exactly the active ones in the map that match the channel, once each |
| StreamManager.Manager.TransmitNext | internal/stream/manager.go:220-253 | the next client's number advances even if the write fails, and the datagram is the layout of the queued frame under it |
| StreamManager.Manager.Marshal | internal/stream/manager.go:223-233 | the packet buffer holds the datagram of the oldest frame not done |
| StreamManager.Manager.DoSendAudio | internal/stream/manager.go:201-259 | undisturbed, one frame goes once to every matching client and to nobody else |
| StreamManager.Manager.Recycle | internal/stream/manager.go:118-124 | when every client of the snapshot was served the frame is done |
| LossConcealment.TimelineRebuilt | client/core/src/engine.cpp:325-357 | in-order delivery with loss runs up to ten: one strictly increasing timestamp per number, exact for received frames, within 20 us per frame ahead for concealed ones |
| LossConcealment.TimelineFollowsPipeline | cmd/soundswarm-server/main.go:273-313 | the same over the timestamps that a client reads from its datagrams, in a steady run of the capture loop, with one encoding per capture, served throughout, and nothing dropped at the queue |
| LossConcealment.ReadFromDatagram | internal/stream/manager.go:220-242 | the timestamp read is that of the frame as queued, under the number counting from one |
| LossConcealment.OneEntryPerSeqNum | client/core/src/engine.cpp:326-346 | in order, one timestamp per number if and only if no loss run exceeds ten, never more |
| LossConcealment.ElevenLossesLeaveAHole | client/core/src/engine.cpp:327-329 | the input: numbers 1 and 13 give twelve entries, the second of which stands for number 3 |
| LossConcealment.TimelineIsEntries | client/core/src/engine.cpp:326-347 | for any delivery, reordered or doubled: each timestamp is its packet's, counted back 10 ms per number |
| LossConcealment.OneEntryPerNumberIff | client/core/src/engine.cpp:326-347 | for any delivery: the entries are the numbers from the first packet's to the last one's, once each and in order, exactly when the packets came in order with short gaps |
| LossConcealment.LatePacketConcealsNothing | client/core/src/engine.cpp:326 | a late, doubled or next packet conceals nothing, only its own frame is pushed |
| LossConcealment.FirstPacketConcealsNothing | client/core/src/engine.cpp:326 | nor does any packet after number zero |
| LossConcealment.LostLiesInGap | client/core/src/engine.cpp:326-329 | a packet ahead conceals as many frames as there are numbers in between, or ten |
| LossConcealment.WrapConceals | client/core/src/engine.cpp:326-329 | also across the wrap of the numbers |
| LossConcealment.ConcealedLiesInGaps | client/core/src/engine.cpp:326-347 | in any delivery each concealed entry has a number strictly between its packet's and the one's before |
| LossConcealment.FillsAreDecodes | client/core/src/engine.cpp:332-345 | a failing decode pushes nothing, and the others keep their places |
| LossConcealment.SizesDoNotMatter | client/core/src/engine.cpp:332-357 | the timestamps pushed do not depend on the sizes the decoder returns |
| LossConcealment.FillTimes | client/core/src/engine.cpp:331-345 | the i-th concealed frame is stamped its distance times 10 ms before the packet |
| LossConcealment.FrameDurationIsTenMs | client/core/src/engine.cpp:335 | the interpolation step is 10 ms at every rate the decoder accepts |
| LossConcealment.PacketHandler.HandleAudio | client/core/src/engine.cpp:322-357 | what is pushed for one packet, with wrapping sequence arithmetic, the cap of ten and failing decodes |
| Lifecycle.RegistriesNameLiveClients | internal/server/tcp.go:136-218 | in every run session, stream and reports name live handlers only; after the return the clock registry keeps the id exactly if the offset write failed |
| Lifecycle.AtMostOneCloses | internal/session/manager.go:223-248 | in every run at most one `RemoveClient` closes a connection, however kicks, evictions and the handler race |
| Lifecycle.ExactlyOneCloses | internal/session/manager.go:223-248 | once the handler has returned, exactly one `RemoveClient` has closed the connection, or is about to |
| Lifecycle.ReadersAreSynced | internal/server/tcp.go:165-202 | a client in the read loop is always known to the clock registry |
| Lifecycle.UndisturbedIsExact | internal/server/tcp.go:136-210 | without kicks and evictions of it, a client is in each registry exactly while its handler wants it there, whatever happens to others |
| Lifecycle.CleanupCompletes | internal/server/tcp.go:205-210 | a handler that stopped serving returns within five of its own steps, however the others interleave |
| Lifecycle.CleanupAdvances | internal/server/tcp.go:205-210 | its own steps bring it closer to its return, nobody else's move it |
| Lifecycle.FailedStartAborts | internal/server/tcp.go:153-170 | failing I/O, or a closed connection, and nothing else turns a start into its clean-up; no registry changes by that |
| Lifecycle.GoodStartReads | internal/server/tcp.go:136-202 | a start in which all I/O succeeds ends in the read loop with the client in session, stream and clock registry |
| Lifecycle.UnstreamTakesOut | internal/server/http.go:274 | the last step of a kick takes the client, and no other, out of the stream |
| Lifecycle.OnlyKicksUnstream | internal/server/http.go:273-274 | a kick goes on to the stream whether or not it found the client in the session, an eviction never does |
| Lifecycle.FinderCloses | internal/session/manager.go:223-238 | whoever finds the client in the session closes its connection next, the others have nothing to close |
| Lifecycle.KickLastsIff | internal/server/http.go:273-274 | a kick that closed the connection and took the client out of the stream lasts in all continuations exactly unless it fell between the writing of CLOCK_OFFSET and the joining of the stream |
| Lifecycle.FinishedKickLastsIff | internal/server/http.go:273-274 | the same from the run that the kick ends |
| Lifecycle.ReportsStay | internal/server/tcp.go:291-298 | a jitter report is kept until the handler's last step takes it back |
| Lifecycle.StaysOutIff | internal/server/tcp.go:136-178 | any client out of the stream stays out exactly when its handler is neither about to join nor on its way there over a connection still open |
| Lifecycle.KickBeforeStreaming | internal/server/http.go:273-274 | a run in which a completed kick is followed by the client's joining the stream |
| Lifecycle.KickedClientLeaves | internal/server/tcp.go:202-208 | wherever a kick found it, a client whose connection was closed is out of the stream for good after at most five turns of its handler |
| Lifecycle.StepKeepsOwned | internal/server/tcp.go:136-218 | every step keeps: a registry names a client only while its handler will still remove it |
| Lifecycle.StepKeepsClosedOnce | internal/session/manager.go:223-238 | every step keeps: in the session, about to be closed, or closed, once |
| Lifecycle.OthersUntouched | internal/server/tcp.go:136-218 | a handler's step leaves all that concerns other clients alone |
| Session.Registry.AddClient | internal/session/manager.go:182-220 | only the session's token joins; the client is filed fresh and not stale |
| Session.Registry.RemoveClient | internal/session/manager.go:223-248 | the client leaves the map, and its connection is closed once if it was there |
| Session.Registry.EvictStaleClients | internal/session/manager.go:287-301 | exactly the clients silent for more than 10 s are listed, removed and closed, once each |
| Session.Registry.StaleClients | internal/session/manager.go:288-295 | the first loop lists exactly the stale ids |
| Session.Client.Send | internal/session/manager.go:122-130 | before the read loop sets the writer a message is dropped without an error |
| Session.Client.SetWriteFunc | internal/session/manager.go:114-118 | from then on messages are written |
| Session.Client.UpdateHeartbeat | internal/session/manager.go:72-76 | the client is stale again exactly after more than 10 s without another |
| Wire.ParsersInvertEncode | internal/protocol/packet.go:160-188 | both parsers return the packet encoded, negative timestamps and trailing bytes included; Go refuses above 4096 bytes |
| Wire.FieldsOfEncoded | client/core/src/protocol.cpp:26-81 | the layout is uniquely decodable, whatever follows it |
| Wire.EncodeInvertsFields | client/core/src/protocol.cpp:26-81 | any datagram that describes a packet starts with that packet's encoding |
| Wire.GoAcceptsIffCppWithinLimit | client/core/src/protocol.cpp:26-56 | Go accepts exactly what C++ accepts with at most 4096 bytes of payload, with the same fields |
| Wire.AcceptedReencodes | internal/protocol/packet.go:115-188 | what Go accepts re-marshals to its own prefix |
| Wire.GoRefuses | internal/protocol/packet.go:160-177 | too short, wrong version, too large and truncated datagrams, the first reason counting |
| Wire.GoPacket.Marshal | internal/protocol/packet.go:115-132 | the layout in a new buffer, or an error above 4096 bytes |
| Wire.GoPacket.MarshalInto | internal/protocol/packet.go:136-155 | the layout at the front of the buffer, the rest untouched, and untouched altogether on both errors |
| Wire.GoPacket.Unmarshal | internal/protocol/packet.go:160-188 | the fields of the datagram, or the right error with the receiver unchanged |
| Wire.CppPacket.Serialize | client/core/src/protocol.cpp:58-81 | on either byte order the same layout as Go's below 65536 bytes; above, the length field wraps |
| Wire.CppPacket.Deserialize | client/core/src/protocol.cpp:26-56 | accepts exactly the datagrams of the layout and yields their fields, on either byte order |
| Wire.CppPacket.DeserializeHeader | client/core/src/protocol.cpp:32-43 | the fields are the big-endian numbers at their places, the timestamp signed |
| Bytes.NumberOfBigEndian | internal/protocol/packet.go:124-128 | big-endian bytes read back to the number |
| Bytes.BigEndianOfNumber | internal/protocol/packet.go:181-182 | any bytes are the big-endian form of the number they read as |
| Bytes.MostSignificantFirst | internal/protocol/packet.go:124-128 | the most significant byte comes first |
| Bytes.SwapThenCopy | client/core/src/protocol.cpp:64-68 | `htobe` and `memcpy` write big-endian bytes on every host |
| Bytes.CopyThenSwap | client/core/src/protocol.cpp:34-40 | `memcpy` and `betoh` read them on every host |
| Bytes.ToSigned | internal/protocol/packet.go:182 | the signed reading is the one whose unsigned form was sent |
| Bytes.NegativesWrap | internal/protocol/packet.go:125 | negative timestamps are sent as 2^64 minus their magnitude |
| Framing.ParseInvertsFrames | internal/protocol/packet.go:313-323 | the framed concatenation of any sendable messages parses to those messages and what follows |
| Framing.TruncatedStream | internal/server/tcp.go:355-374 | a stream cut inside a frame delivers exactly the messages before it |
| Framing.TooLongEndsDelivery | internal/server/tcp.go:363-365 | a message of more than 65536 bytes ends the delivery, one of 65536 does not |
| Framing.TimeoutCuts | internal/server/tcp.go:357-371 | a timeout ends what the server reads, whatever arrives later |
| Framing.ReadFullErrors | internal/server/tcp.go:357-371 | end of stream at a boundary, inside, and timeout are told apart |
| Framing.Socket.RecvAll | client/core/src/network.cpp:149-189 | the client reads the same bytes whatever the chunks, timed-out calls included, and fewer only at the end |
| Framing.Socket.ReadFull | internal/server/tcp.go:357-371 | the server reads the same bytes whatever the chunks, up to the first timeout, which is an error, or the end |
| Framing.PromptIsJoined | internal/server/tcp.go:270-278 | on sockets without read deadlines, as here, that is the whole stream |
| Framing.CppReadOne | client/core/src/network.cpp:149-193 | one turn delivers the first message of the stream, or none if incomplete or too long |
| Framing.CppReadLoop | client/core/src/network.cpp:148-196 | delivers exactly the messages of the stream, however it is chunked |
| Framing.GoReadLoop | internal/server/tcp.go:270-278 | the server's loop delivers the messages that arrive before a timeout: all of the stream's when nothing times out |
| Framing.ReadTCPMessage | internal/server/tcp.go:355-374 | the message, or the error for an end or a timeout in the header, too long a body, or an end or a timeout in the body |
| Framing.CppFrame | client/core/src/network.cpp:122-129 | the client's buffer is the frame, on either byte order |
| Framing.EncodeTCPMessage | internal/protocol/packet.go:313-318 | the server's buffer is the same frame, with the length modulo 2^32 |
| JsonText.EscapeTable | client/core/src/engine.cpp:36-59 | the escape of each special and control character; all others stay |
| JsonText.UnescapeInvertsEscape | client/core/src/engine.cpp:36-59 | unescaping by section 7 of RFC 8259 gives every string back |
| JsonText.ScanFindsClosingQuote | client/core/src/engine.cpp:77-86 | the scan over a quoted escaped string stops at its closing quote |
| JsonText.ExtractsEscaped | client/core/src/engine.cpp:63-89 | the value behind a key is returned exactly as escaped, and unescapes to the original |
| JsonText.EscapeJsonString | client/core/src/engine.cpp:36-59 | the loop computes the escaped form |
| JsonText.ExtractJsonString | client/core/src/engine.cpp:63-89 | the loops compute the specified extraction for every text |
| JsonText.ValueFollowsKey | client/core/src/engine.cpp:64-72 | a value follows the first occurrence of its key, the first colon behind it, and blanks and tabs only |
| JsonText.NoStringIsEmpty | client/core/src/engine.cpp:65-87 | no key, no quote or no closing quote reads as empty |
| JsonText.NoIntIsZero | client/core/src/engine.cpp:95-110 | no key or no digits reads as zero |
| JsonText.ExtractJsonInt | client/core/src/engine.cpp:93-111 | the same for integers, with overflow made visible |
| JsonText.IntOfDecimal | client/core/src/engine.cpp:99-110 | a decimal form is read back exactly when its magnitude is below 2^63 |
| JsonText.SmallestIsNotRead | client/core/src/engine.cpp:103-110 | the input: the decimal form of -2^63 overflows before it is negated |
| JsonText.OverflowStays | client/core/src/engine.cpp:105-109 | digits read on after an overflow never repair it |
| JsonText.OffsetMessageReadBack | client/core/src/engine.cpp:293-295 | the client reads type and offset of the server's CLOCK_OFFSET message back |
| JsonText.Find | client/core/src/engine.cpp:64-68 | the first occurrence, or none at all |

## Left out

- C++ memory orders: every atomic access is one sequentially consistent step.
- The mark `valid` of a ring slot is written and never read; `PushCompletes` says it is set, nothing says it is cleared.
- Overflow of int64 timestamps and offsets: they are unbounded integers, except on the wire, in the text helpers and in `OffsetAgreement`.
- Floating point: delays and reports are exact reals, the percentile index is n*95/100, which agrees with the truncated product for windows of up to 200.
- `InitialHandshake` reads any message as the reply of its round; the error bounds suppose that each reply answers that round's probe over paths with non-negative delays, and that the clock does not drift within one handshake.
- Within a callback the offset, the delay and the start of the pull are one step; the test of the gate is an earlier one.
- `SendPeriodicProbe`, `GetClientOffset` and the tickers: they change nothing the model holds.
- Client ids are fresh; drawing ids and tokens is not modelled.
- Sockets, the JSON library of the server and libopus are given: writes on the server are atomic, the encoder writes the fields of CLOCK_OFFSET in the order of the struct, decoders return arbitrary sample counts.
- The handlers, kicks and evictions of `Lifecycle` and the two threads of `SpscRing` are state machines on values, not objects; `OffsetAgreement` keeps the server's record of one client as a value.
- A read loop may still process one report that it read before its connection was closed; here any number of them.
- HTTP handlers other than the kick, the UI callbacks, logging and shutdown are not modelled; a client that never gets into the session is not a handler here.
- JOIN_ACCEPT, probes, SET_GLOBAL_LATENCY and SET_FRAME_SIZE are other messages to `OffsetAgreement`; the delay a client applies is part of `LatencyEqualizer`.
- SendAudio: payloads are at most 4096 bytes; the source panics on longer ones.
- The buffer pool may drop idle buffers at any garbage collection; here it keeps them.
- TransmitNext: numbering, marshalling and writing to one client are one step, since only the broadcast loop touches them; the steps for different clients interleave with all handlers.
- Deserialize: the fields left behind by a rejected datagram are not stated; the caller drops the packet.
- TimelineFollowsPipeline: that the queue dropped nothing and that the client was in the map, with one assignment, for all frames from some point on are hypotheses named `NothingDropped` and `ServedThroughout`; `OneMoreFrame` keeps the latter from frame to frame.
- TimelineRebuilt: delivery in order, without wrap-around of the numbers and with every decode succeeding; a failing decode leaves a hole, as `HandleAudio` states.
- Length of concealed PCM frames: the decoder may return 120 ms for a frame stamped 10 ms long; only timestamps are claimed.
- Timestamps are proved for 48 kHz and frames of 480 sample groups, the only format the encoder accepts.
- "The frame size is 40 ms exactly while P95 exceeds 30 ms" is false, since small changes return early; `ReportJitter` states when a change is asked for.
- Unicode: strings are sequences of characters as the client sees bytes; of the `\u` escapes only those below U+0080 are read.
- Codec, surround, capture, discovery, QoS and user-interface code: copies, scaling and platform calls.
