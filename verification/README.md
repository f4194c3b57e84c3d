# OpenClaw media and accelerator services: verified models

Dafny models of the stateful core of the repository, and proofs of what its services promise.

- **Speech to text.** `InferenceStream` (a two-thread mailbox between inference and an HTTP response),
  `RequestRegistry` (request IDs, tombstones and the background class), `ServiceAdmission`
  (reservations and the single FIFO worker) and `StreamingService`, which puts a stream and the service
  together.
- **Accelerator.** `LeaseBroker` (lease table, idle clock, power), `StandbyPolicy` (the schedule
  bisection), `LeaseSupervisor` and `LeaseDeadline` (the renewal loop around a worker, how it is
  stopped, and by when) and `DemandLease` (acquire and drain
  with work outside the lock).
- **Realtime speech.** `SpeechCapture` (frames, onset, pre-roll, batches), `TranscriptQueue` (the serial
  jobs and the notifications owed for each utterance), `SpeechSession`, which feeds the one into the
  other from packets, and `Playout` (generations, gates and pacing of local audio).
- **Text to speech.** `SpeechText` and `SpeechSegments` (the splitter), `PreparedSpeech` (accepting a
  segmentation made elsewhere), `SpeechExpression`, `PlanAcceptance`, `TagPlacement`, `SpeechRendering` and
  `SpokenUnits` (the controls of an expression plan, which plans are accepted, where emotion tags go, the
  controls on prepared segments, and what the rendered units say), `PcmStream` (frame writer, frame reader and the batch form).
- **Parsers and devices.** `TranscriptionEvents` (the incremental event stream reader) and
  `DabNavigation` (a tuner on a lossy command channel).

Concurrent parts are state machines: every critical section, event handler or `select!` branch is one
atomic step, a run is any legal sequence of steps, and the results hold of every run. Clocks, broker,
backend, worker, decoder and network answer as they like; what they answer is an argument of the step.
Objects whose methods change their fields are classes; each method is proved to take the state to what
the specification function of that step says, and the results about runs are proved of these functions.
Ghost fields and the fields named `frames`, `batches`, `trace`, `captures` and the like record a run for
its specification.

Where the code does less than one might expect, the model keeps the code and says exactly when:

- `demand_lease.py` defines `close` twice and the second definition wins. It does not wait for
  activities: `DemandLease.CloseQuiescesUnderActivityIff` and `DemandLease.CloseForgetsActivities`.
- `RunnerConfig.validate` does not take the poll interval or the last retry into its safety window, so a
  valid worker can outlive its lease: `LeaseSupervisor.OutlivesLeaseIff` and
  `LeaseSupervisor.SomeAcquisitionOutlivesIff` say exactly when without one attempt to renew,
  `LeaseDeadline.OutlivesFailingIff` and `LeaseDeadline.SafeConfigurations` exactly when at all.
- The broker fixes the end of a lease in its table before `ensure_ready` and tells its owner one that is
  counted from after it: `LeaseBroker.GrantIsHeld`, and `LeaseBroker.LosesPowerIff` for what can come of it.
- A lease stays unreleased when an exception of an unforeseen kind ends the supervisor and stopping the worker
  then fails, even if the worker is gone by then: `LeaseSupervisor.UnreleasedIff`.
- The stream reader notices bytes after the terminator only when they share a chunk with it:
  `PcmStream.AcceptedResponses` says exactly which responses are accepted,
  `PcmStream.TrailingBytesDependOnChunks` that the same bytes can go either way.
- Leaving a pause moves the playout deadline to now: `Playout.ResumesBoundBursts` says what each resume can
  cost, `Playout.ResumeMayBurst` that it can cost that much.
- With repeated station names a recovered tuner step can end elsewhere: `DabNavigation.TrustedIff` says on
  exactly which rings it cannot.

## Model

| member | source | states |
|---|---|---|
| InferenceStream.EveryInterleaving | services/stt/src/openclaw_local_stt/inference_stream.py:45-135 | in every interleaving of producer, consumer, repeated close and cancellation: cleanup at most once; release exactly when the response is closed and the producer done, and then after cleanup; non-error events are delivered in order from those appended, which stay within the event and byte limits |
| InferenceStream.QuiescentIsReleased | services/stt/src/openclaw_local_stt/inference_stream.py:45-57 | once the response is closed and its producer gone, cleanup and release have each happened exactly once and nothing is left queued |
| InferenceStream.ClosedProducerEnds | services/stt/src/openclaw_local_stt/inference_stream.py:59-89 | after close nothing is appended or delivered any more, and the producer has at most four steps left |
| InferenceStream.ClosedIsReleasedInTime | services/stt/src/openclaw_local_stt/inference_stream.py:82-89 | from any reachable state, close followed by four producer steps, with anything in between, ends in exactly one cleanup and one release |
| InferenceStream.PrefixOutputs | services/stt/src/openclaw_local_stt/inference_stream.py:59-69 | what is a prefix of the appended events is a prefix of the non-error ones too |
| InferenceStream.StepKeepsLifecycle | services/stt/src/openclaw_local_stt/inference_stream.py:45-57 | every step keeps cleanup, `done` and release in step with the producer |
| InferenceStream.StepKeepsMailbox | services/stt/src/openclaw_local_stt/inference_stream.py:104-115 | every step keeps delivered events plus queued ones equal to those appended, until close empties the queue |
| InferenceStream.Stream.RunInference | services/stt/src/openclaw_local_stt/inference_stream.py:71-89 | the producer loop, with its limits, failures and clean-up, is exactly the specified producer run |
| InferenceStream.Stream.AppendEvent | services/stt/src/openclaw_local_stt/inference_stream.py:59-69 | an event is refused when the work has ended or a limit would be passed, and appended otherwise |
| InferenceStream.Stream.CloseResponse | services/stt/src/openclaw_local_stt/inference_stream.py:121-135 | close empties the queue, cancels unfinished work, cleans up if nothing was started, and releases at most once |
| InferenceStream.Stream.PopNext | services/stt/src/openclaw_local_stt/inference_stream.py:104-117 | the consumer takes the oldest event, ends when the producer has, or reports the end of the work |
| RequestRegistry.RegistryIsBounded | services/stt/src/openclaw_local_stt/request_lifecycle.py:46-117 | in every run active and retired IDs are disjoint and within capacity, and background IDs are among them and within a quarter of it and 256 |
| RequestRegistry.BackgroundIsNotLast | services/stt/src/openclaw_local_stt/request_lifecycle.py:92-97 | a background registration never fills the registry |
| RequestRegistry.BackgroundLeavesRoom | services/stt/src/openclaw_local_stt/request_lifecycle.py:92-102 | after a background registration any other unused ID can still be registered |
| RequestRegistry.TombstoneStays | services/stt/src/openclaw_local_stt/request_lifecycle.py:57-61 | no event before its expiry removes a tombstone or lets its ID become active |
| RequestRegistry.BuriedAtOnce | services/stt/src/openclaw_local_stt/request_lifecycle.py:104-117 | finishing a request, or cancelling an ID that is not known, leaves a tombstone of 300 s |
| RequestRegistry.NoReuseWhileTombstoneLives | services/stt/src/openclaw_local_stt/request_lifecycle.py:88-117 | an ID that finished, or was cancelled before it arrived, is refused as unavailable exactly until its 300 s are over |
| RequestRegistry.TimeoutIsBounded | services/stt/src/openclaw_local_stt/request_lifecycle.py:75-87 | a timeout is refused exactly when it is malformed or out of range; otherwise it is within the service limit and, for background work, within its own |
| RequestRegistry.Registry.RegisterRequest | services/stt/src/openclaw_local_stt/request_lifecycle.py:67-102 | registering, on the mutable tables, does what the specification of one registration says, refusals included |
| RequestRegistry.Registry.CancelRequest | services/stt/src/openclaw_local_stt/request_lifecycle.py:109-117 | cancelling marks an active request and otherwise leaves a tombstone if there is room |
| ServiceAdmission.ComputationsExclude | services/stt/src/openclaw_local_stt/request_lifecycle.py:120-182 | in every run at most one client computes, computing and waiting clients are within the reservations, which are within capacity, at most one reservation is a background one, and only foreground clients wait |
| ServiceAdmission.EntryFollowsJoinOrder | services/stt/src/openclaw_local_stt/request_lifecycle.py:163-173 | tickets enter in the order they joined, skipping only those that withdrew |
| ServiceAdmission.ReservedIsNeverRefused | services/stt/src/openclaw_local_stt/request_lifecycle.py:157-162 | a foreground client that holds a reservation is never refused when it comes to compute |
| ServiceAdmission.HeadMovesOn | services/stt/src/openclaw_local_stt/request_lifecycle.py:165-177 | when nobody computes, the first in line enters or, if its work has ended, leaves the line |
| ServiceAdmission.PlacesInUse | services/stt/src/openclaw_local_stt/request_lifecycle.py:161-163 | the computing client, the waiting ones and one reserved client fit in the reservations, which fit in the capacity |
| ServiceAdmission.JoinKeepsBackground | services/stt/src/openclaw_local_stt/request_lifecycle.py:157-160 | a client that joins the line leaves the background client alone in its class |
| ServiceAdmission.WithdrawKeepsOrder | services/stt/src/openclaw_local_stt/request_lifecycle.py:174-177 | a ticket that withdraws does not disturb the order of the others |
| ServiceAdmission.ServiceState.JoinQueue | services/stt/src/openclaw_local_stt/request_lifecycle.py:150-177 | joining, on the mutable queue, refuses, waits or enters as specified |
| ServiceAdmission.ServiceState.LookAtQueue | services/stt/src/openclaw_local_stt/request_lifecycle.py:164-177 | a waiter that wakes up enters only as first in line with nobody computing, and otherwise keeps its place or withdraws |
| ServiceAdmission.ServiceState.ReservePlace | services/stt/src/openclaw_local_stt/request_lifecycle.py:129-142 | a reservation is refused when full, and to background work unless nothing else is going on |
| StreamingService.TokenInsideReservation | services/stt/src/openclaw_local_stt/app.py:179-232 | in every run of streaming responses on the service, whoever computes holds an unreleased reservation and its producer is running; reservations are as many as unreleased responses |
| StreamingService.ReleaseFindsNoToken | services/stt/src/openclaw_local_stt/app.py:187-225 | whenever a response gives its reservation back it does not hold the compute token |
| StreamingService.StepKeepsInv | services/stt/src/openclaw_local_stt/app.py:179-232 | every step of responses and service keeps the two in agreement |
| DemandLease.DrainsOnlyWhenIdle | services/accelerator/src/openclaw_accelerator/demand_lease.py:59-158 | before close, in every interleaving: while a keeper is quiesced or closed nobody is active and no step of anybody makes anybody active; at most one started keeper exists, and it is held exactly when the transition is ready or draining; the count is that of the active threads |
| DemandLease.NoneBegins | services/accelerator/src/openclaw_accelerator/demand_lease.py:59-118 | while a drain is on, no enabled step, acquiring, publishing or closing, begins an activity |
| DemandLease.ClosingAdmitsNobody | services/accelerator/src/openclaw_accelerator/demand_lease.py:63-64 | once closing has begun no activity is admitted |
| DemandLease.CloseQuiescesUnderActivityIff | services/accelerator/src/openclaw_accelerator/demand_lease.py:176-185 | the live `close` quiesces under running activities exactly when there are any |
| DemandLease.CloseForgetsActivities | services/accelerator/src/openclaw_accelerator/demand_lease.py:186-190 | a thread that was active when `close` ran is no longer counted, and its release is an unbalanced one |
| DemandLease.CloseMayFindActivity | services/accelerator/src/openclaw_accelerator/demand_lease.py:176-190 | a short run from the start gets there: `close` finds a running activity |
| DemandLease.AcceleratorDemandLease.TryAcquire | services/accelerator/src/openclaw_accelerator/demand_lease.py:61-82 | one turn of the acquire loop waits, enters or starts an acquisition as specified |
| DemandLease.AcceleratorDemandLease.BeginDrain | services/accelerator/src/openclaw_accelerator/demand_lease.py:121-137 | a drain begins exactly when the lease is ready, idle long enough or unhealthy, and unloading is asked for |
| LeaseBroker.PowerOffIsSafe | services/accelerator/src/openclaw_accelerator/broker.py:1082-1123 | power is turned off only with an empty lease table, with unloading requested and managed automatically, after the startup guard, and a full idle timeout after any event at which a lease was held or an earlier attempt failed |
| LeaseBroker.IdleClockFollowsLeases | services/accelerator/src/openclaw_accelerator/broker.py:879-887 | the idle clock is never older than the last event at which a lease was held |
| LeaseBroker.LiveLeaseBlocksPowerOff | services/accelerator/src/openclaw_accelerator/broker.py:923-989 | while a lease lives and its owner does not release or shorten it, no event, other peers' attempts included, turns the power off, and the lease stays |
| LeaseBroker.PowerOutlastsLease | services/accelerator/src/openclaw_accelerator/broker.py:923-1123 | nor is the power turned off before the idle timeout has passed since the end of such a lease |
| LeaseBroker.GrantIsHeld | services/accelerator/src/openclaw_accelerator/broker.py:923-958 | a granted lease is in the table for its time to live from the beginning of the call, on verified ready hardware, and its owner has at most the allowed number; the end its owner is told is later by the time between the two clock readings |
| LeaseBroker.LosesPowerIff | services/accelerator/src/openclaw_accelerator/broker.py:928-949 | the only owner of a lease can lose the power before the end it was told exactly when the idle timeout is less than the time `ensure_ready` took and less than the time to live |
| LeaseBroker.StepMovesIdleClock | services/accelerator/src/openclaw_accelerator/broker.py:979-989 | each operation moves the idle clock only forward, to now, and only as the table becomes empty |
| LeaseBroker.AcceleratorManager.ReapExpired | services/accelerator/src/openclaw_accelerator/broker.py:879-887 | the reaping loop removes exactly the leases that have expired and restarts the idle clock if it removed the last one |
| LeaseBroker.AcceleratorManager.TickOnce | services/accelerator/src/openclaw_accelerator/broker.py:1082-1141 | one tick, on the mutable state, wakes, powers off or leaves alone as specified |
| LeaseBroker.AcceleratorManager.AcquireLease | services/accelerator/src/openclaw_accelerator/broker.py:923-958 | acquiring, on the mutable table, grants or refuses as specified |
| StandbyPolicy.Policy | services/accelerator/src/openclaw_accelerator/broker.py:899-921 | where local time is constant within each UTC minute, the decision is the same for every second before the returned bound, which is within 60 s and, if less, the first second with the other answer |
| StandbyPolicy.WindowIsAnArc | services/accelerator/src/openclaw_accelerator/broker.py:125-130 | plain and midnight-wrapping schedules are the same thing: an arc on the 24-hour clock |
| StandbyPolicy.OneChangeAMinute | services/accelerator/src/openclaw_accelerator/broker.py:899-921 | within 60 s the answer changes at most once |
| LeaseSupervisor.StopBeginsInTime | services/accelerator/src/openclaw_accelerator/runner.py:156-195 | stopping the worker begins within `I + G + B + min(1, I/4) + 2P` of the last successful renewal or of the start |
| LeaseSupervisor.WorkerIsStoppedInTime | services/accelerator/src/openclaw_accelerator/runner.py:159-195 | no turn of the loop, however the broker behaves, ends later than that bound after the last success |
| LeaseSupervisor.TurnsStayOnSchedule | services/accelerator/src/openclaw_accelerator/runner.py:170-195 | every turn keeps the next renewal and the time of the first failure in step with the last success |
| LeaseSupervisor.OutlivesLeaseIff | services/accelerator/src/openclaw_accelerator/runner.py:51-67 | a valid configuration can let a worker that starts with `W` left of its lease run to the end of it without one attempt to renew exactly when `I + P > W` |
| LeaseSupervisor.SomeAcquisitionOutlivesIff | services/accelerator/src/openclaw_accelerator/runner.py:147-156 | what an acquisition leaves is more than the renew interval, and one that lets this happen exists exactly when `I + P > TTL - B` |
| LeaseSupervisor.ValidateIgnoresPolling | services/accelerator/src/openclaw_accelerator/runner.py:57-67 | there is a valid configuration, even with `I + P` within the time to live, that lets this happen |
| LeaseDeadline.StopsByDeadline | services/accelerator/src/openclaw_accelerator/runner.py:156-195 | stopping the worker begins before the deadline after the last success: renew and poll interval, the reach of failing renewals within the grace time, and one more retry |
| LeaseDeadline.StopsBeforeLeaseEnds | services/accelerator/src/openclaw_accelerator/runner.py:156-195 | where the deadline is within what every answer of the broker leaves of the lease, stopping the worker begins before its lease ends, however renewals fail |
| LeaseDeadline.OutlivesFailingIff | services/accelerator/src/openclaw_accelerator/runner.py:51-67 | a worker that starts with `W` left and whose renewals fail can still be running at the end of its lease exactly when the deadline is later than `W` |
| LeaseDeadline.SafeConfigurations | services/accelerator/src/openclaw_accelerator/runner.py:51-67 | over all acquisitions this never happens exactly when the deadline is within `TTL - B` |
| LeaseDeadline.DeadlineIsWithinBound | services/accelerator/src/openclaw_accelerator/runner.py:170-195 | the deadline is within `I + G + B + min(1, I/4) + 2P` |
| LeaseDeadline.TurnsStayOnTrack | services/accelerator/src/openclaw_accelerator/runner.py:170-195 | after k failing retries the last one returned between k retry delays and k gaps, plus a call, after the first began |
| LeaseSupervisor.StoppingTells | services/accelerator/src/openclaw_accelerator/runner.py:96-112 | the worker is reported down only when it is, and survives exactly when both signals were sent and it outlived both waits |
| LeaseSupervisor.ReleasedOnlyWhenGone | services/accelerator/src/openclaw_accelerator/runner.py:144-214 | on every path the lease is released at most once and last of all, and then the worker never started or has exited |
| LeaseSupervisor.UnreleasedIff | services/accelerator/src/openclaw_accelerator/runner.py:206-214 | a granted lease stays unreleased exactly when the last attempt to stop the worker left it alive, after both waits or for want of a signal, and it is alive at the last poll, or that attempt raised on the way out of an unexpected exception |
| LeaseSupervisor.RunLoop | services/accelerator/src/openclaw_accelerator/runner.py:156-195 | the renewal loop ends as specified, by exit, signal, lost lease or exception |
| LeaseSupervisor.FinishRun | services/accelerator/src/openclaw_accelerator/runner.py:196-207 | the handlers and the `finally` clause stop the worker as specified |
| LeaseSupervisor.Run | services/accelerator/src/openclaw_accelerator/runner.py:128-214 | the supervision loop does exactly the specified actions and returns the specified result |
| Playout.Conservation | services/matrix-rtc-media/src/playout.rs:60-114 | the frames submitted are the frames that matched the generation on receipt, in order, less at most one waiting frame for each accepted clear, the last of its generation; none is submitted while paused |
| Playout.GatesLoseNothing | services/matrix-rtc-media/src/playout.rs:79-86 | with no accepted clear, gate changes lose nothing |
| Playout.NoBurst | services/matrix-rtc-media/src/playout.rs:22-31 | with no resume from a pause, k+1 captures in a row take more than k-1 frame periods to start |
| Playout.ExactCadence | services/matrix-rtc-media/src/playout.rs:89-112 | if every capture starts less than a period late and ends by the next deadline, the n-th deadline is exactly n periods after the first |
| Playout.ResumesBoundBursts | services/matrix-rtc-media/src/playout.rs:60-114 | in every run, with R resumes from a pause, k+1 captures in a row take more than k-1-R frame periods to start |
| Playout.ResumeMayBurst | services/matrix-rtc-media/src/playout.rs:79-83 | the bound is tight: for every R there is a run with R resumes in which R+2 captures start one microsecond further apart than it says |
| Playout.RunStaysSpread | services/matrix-rtc-media/src/playout.rs:22-31 | every run keeps captures and the next deadline at their distance from the frame start of an earlier capture, less a period for each resume |
| Playout.Pump.PumpLocalAudio | services/matrix-rtc-media/src/playout.rs:54-116 | the pump loop, event by event, is the specified run |
| Playout.Pump.ClearTo | services/matrix-rtc-media/src/playout.rs:70-78 | a clear is accepted exactly when it raises the generation, and then drops the waiting frame |
| TranscriptQueue.OneOutcomePerUtterance | packages/openclaw-local-media/src/realtime-transcription-provider.ts:464-493 | in every run each utterance is told `started`, then at most one confirmation, then at most one outcome; only a live endpoint job of an open session delays the outcome |
| TranscriptQueue.TranscriptsInOrder | packages/openclaw-local-media/src/realtime-transcription-provider.ts:775-826 | transcripts come in utterance order, at most one each, exactly for the outcomes `transcribed`, and each joins the results of all jobs of its utterance |
| TranscriptQueue.ConfirmationIsPrompt | packages/openclaw-local-media/src/realtime-transcription-provider.ts:479-493 | a confirmation is told only of confirmed speech, and as soon as the newest utterance is complete, owed its outcome and confirmed |
| TranscriptQueue.JoinedIsSpaced | packages/openclaw-local-media/src/realtime-transcription-provider.ts:784-792 | the results of an utterance are joined in order with single spaces and without the empty ones |
| TranscriptQueue.QueueIsBounded | packages/openclaw-local-media/src/realtime-transcription-provider.ts:698-720 | the queue counts the jobs that hold audio and never exceeds the configured number |
| TranscriptQueue.StepReports | packages/openclaw-local-media/src/realtime-transcription-provider.ts:464-493 | every step keeps the pending utterances equal to those whose outcome is still owed |
| TranscriptQueue.StepIsSound | packages/openclaw-local-media/src/realtime-transcription-provider.ts:687-852 | every step keeps jobs in utterance order with the endpoint last, and every pending utterance backed by a live endpoint job |
| TranscriptQueue.StepAccumulates | packages/openclaw-local-media/src/realtime-transcription-provider.ts:775-792 | every step keeps the text of a wanted utterance equal to the joined results of all its jobs so far |
| TranscriptQueue.StepDelivers | packages/openclaw-local-media/src/realtime-transcription-provider.ts:793-818 | every step keeps transcripts ahead of everything still to run |
| TranscriptQueue.StepOwned | packages/openclaw-local-media/src/realtime-transcription-provider.ts:704-713 | every step keeps an open utterance pending while its endpoint job is live, unless an error is about to close the session |
| TranscriptQueue.StepAnnounces | packages/openclaw-local-media/src/realtime-transcription-provider.ts:808-816 | every step keeps `transcribed` and the handing over of a transcript together |
| TranscriptQueue.CancellationsSettle | packages/openclaw-local-media/src/realtime-transcription-provider.ts:470-478 | cancelling settles each pending utterance once and tells the others nothing |
| TranscriptQueue.ProgressTells | packages/openclaw-local-media/src/realtime-transcription-provider.ts:464-493 | the state machine of notifications and the list of what the host was told say the same |
| TranscriptQueue.SerialQueue.CancelPending | packages/openclaw-local-media/src/realtime-transcription-provider.ts:470-478 | the two loops cancel every pending utterance in order and give up every wanted turn |
| TranscriptQueue.SerialQueue.EnqueueAudio | packages/openclaw-local-media/src/realtime-transcription-provider.ts:687-721 | a batch is ignored for a dead turn, fails the session when the queue is full, and otherwise becomes a job, an endpoint publishing `started` |
| TranscriptQueue.SerialQueue.SettleFirst | packages/openclaw-local-media/src/realtime-transcription-provider.ts:728-846 | what the end of the first job does to the session, results and errors alike |
| TranscriptQueue.SerialQueue.CatchError | packages/openclaw-local-media/src/realtime-transcription-provider.ts:828-846 | a busy service ends only its own turn; any other error goes on to end the session |
| SpeechCapture.TurnIsContiguous | packages/openclaw-local-media/src/realtime-transcription-provider.ts:854-893 | the batches of one turn, put together, are one contiguous run of the frames heard, and only the last can be its endpoint |
| SpeechCapture.TurnsAreApart | packages/openclaw-local-media/src/realtime-transcription-provider.ts:910-960 | different turns take disjoint runs of frames, in turn order |
| SpeechCapture.BatchesAreBounded | packages/openclaw-local-media/src/realtime-transcription-provider.ts:989-1003 | no batch is longer than the maximum plus one frame, or the pre-roll if that is longer |
| SpeechCapture.SpeechDecides | packages/openclaw-local-media/src/realtime-transcription-provider.ts:854-893 | a turn opens on an unbroken run of loud frames as long as the onset time; its end is sent on exactly when its loud frames last the minimum, its earlier parts always |
| SpeechCapture.SilenceEndsTurns | packages/openclaw-local-media/src/realtime-transcription-provider.ts:989-1003 | a turn ends at the first frame at which the silence is long enough, or explicitly, and not otherwise; a part is cut off only near the maximum |
| SpeechCapture.HearKeeps | packages/openclaw-local-media/src/realtime-transcription-provider.ts:910-1004 | analysing a frame keeps what is held contiguous, the counters true and the record of batches faithful |
| SpeechCapture.RetainsNewest | packages/openclaw-local-media/src/realtime-transcription-provider.ts:895-908 | the pre-roll is the newest frames, within its length or a single frame |
| SpeechCapture.Capture.ShiftUntilFits | packages/openclaw-local-media/src/realtime-transcription-provider.ts:903-907 | the loop drops the oldest frames until the rest fits, but keeps the newest |
| SpeechCapture.Capture.AnalyzeFrame | packages/openclaw-local-media/src/realtime-transcription-provider.ts:910-1004 | analysing a frame, on the mutable counters, is the specified step, and reports what it started and took |
| SpeechCapture.Capture.TakeTurn | packages/openclaw-local-media/src/realtime-transcription-provider.ts:854-893 | taking the batch decides endpoint and transcription as specified and keeps or resets the turn |
| SpeechSession.PacketsDoNotMatter | packages/openclaw-local-media/src/realtime-transcription-provider.ts:1018-1032 | where the input is split into packets makes no difference to the session, whatever the speech gate remembers of frames and results |
| SpeechSession.SendCutsFrames | packages/openclaw-local-media/src/realtime-transcription-provider.ts:1018-1032 | while the session stays open the frames analysed are the input cut every 20 ms, each judged on all that came before it, and the rest waits |
| SpeechSession.EveryUtteranceEnds | packages/openclaw-local-media/src/realtime-transcription-provider.ts:687-852 | for whatever is captured, gaps, boundaries, results and close included, each utterance has the one-outcome protocol |
| SpeechSession.TranscriptCoversUtterance | packages/openclaw-local-media/src/realtime-transcription-provider.ts:854-893 | a transcript joins one result for every batch of its utterance up to the endpoint, and these batches are one contiguous run of the frames heard |
| SpeechSession.FollowKeeps | packages/openclaw-local-media/src/realtime-transcription-provider.ts:854-893 | what the capture starts and takes is always something the queue can accept, one job for each batch sent on |
| SpeechSession.PieceFills | packages/openclaw-local-media/src/realtime-transcription-provider.ts:1021-1031 | copying a whole piece into the frame is taking its bytes one by one |
| SpeechSession.Session.AcceptAudio | packages/openclaw-local-media/src/realtime-transcription-provider.ts:1018-1032 | the copying loop, stopping when the session closes, is the byte-by-byte specification |
| SpeechSession.Session.FinishInput | packages/openclaw-local-media/src/realtime-transcription-provider.ts:1065-1095 | an explicit end is refused with an incomplete frame and otherwise ends the turn |
| SpeechSession.Session.InputGap | packages/openclaw-local-media/src/realtime-transcription-provider.ts:1035-1060 | a transport gap drops the turn, the pre-roll and the incomplete frame |
| SpeechSegments.SplitKeepsTheText | services/tts/src/openclaw_local_tts/speech_segments.py:101-165 | splitting loses, repeats and reorders no spoken character; measured as it is, any text splits without error into trimmed segments within the limits; with a minimum length no mergeable neighbours remain |
| SpeechSegments.PiecesHold | services/tts/src/openclaw_local_tts/speech_segments.py:44-87 | cutting a sentence keeps its spoken text and, measured as it is, never fails and stays within the limits |
| SpeechSegments.CutPieceFits | services/tts/src/openclaw_local_tts/speech_segments.py:57-86 | the piece cut off is not empty and, measured as the text is, within the limits |
| SpeechSegments.HardLimitHolds | services/tts/src/openclaw_local_tts/speech_segments.py:57-60 | nothing up to the hard limit has more than the allowed words |
| SpeechSegments.HardLimitEndsAWord | services/tts/src/openclaw_local_tts/speech_segments.py:57-60 | a hard limit short of text and characters is the end of the last word allowed |
| SpeechSegments.CutIsPreferred | services/tts/src/openclaw_local_tts/speech_segments.py:70-82 | the cut is after the last clause end past 45 % of the window, failing that before the last gap past it, failing that at the end |
| SpeechSegments.MergingIsComplete | services/tts/src/openclaw_local_tts/speech_segments.py:152-164 | the merge loop, index stepping back and all, ends with no mergeable neighbours |
| SpeechSegments.MergingHolds | services/tts/src/openclaw_local_tts/speech_segments.py:152-164 | merging keeps the spoken text and the limits |
| SpeechSegments.PackingSpeaks | services/tts/src/openclaw_local_tts/speech_segments.py:128-149 | packing units into segments keeps the spoken text |
| SpeechSegments.PackingIsGreedy | services/tts/src/openclaw_local_tts/speech_segments.py:134-149 | a segment is closed only before a unit it has no room for, and one of several units is within the target and the limits |
| SpeechSegments.BoundSentence | services/tts/src/openclaw_local_tts/speech_segments.py:44-87 | the cutting loop yields the specified pieces or fails on an atomic unit |
| SpeechSegments.PackParagraph | services/tts/src/openclaw_local_tts/speech_segments.py:134-149 | the packing loop yields the specified segments; only the last carries a paragraph pause |
| SpeechSegments.MergeShort | services/tts/src/openclaw_local_tts/speech_segments.py:152-164 | the in-place merge loop yields the specified list, and terminates |
| SpeechSegments.SplitSpeechText | services/tts/src/openclaw_local_tts/speech_segments.py:101-165 | the whole splitter is its specification, invalid limits included |
| SpeechText.WordEndCounts | services/tts/src/openclaw_local_tts/speech_segments.py:58-60 | up to the end of the n-th word there are n words |
| SpeechText.StripHasFewerWords | services/tts/src/openclaw_local_tts/speech_segments.py:20-21 | stripping adds neither words nor characters |
| PreparedSpeech.AcceptedIsPartition | services/tts/src/openclaw_local_tts/speech_segments.py:168-200 | a prepared plan is accepted exactly when its allowed items can be laid out over the text in order, with only white space around them and no word cut, and in only one way |
| PreparedSpeech.Validate | services/tts/src/openclaw_local_tts/speech_segments.py:168-200 | the scan reports the specified first fault, or none |
| SpeechExpression.BuiltIsThePlan | services/tts/src/openclaw_local_tts/expression.py:57-118 | an accepted plan spells out the plain text, and its controls are its events and emphases in order, without overlap |
| SpeechExpression.BuildControls | services/tts/src/openclaw_local_tts/expression.py:57-117 | the loop over the parts yields the specified controls or the specified refusal |
| SpeechExpression.TagsKeepThePlan | services/tts/src/openclaw_local_tts/expression.py:171-209 | placing emotion tags moves no event or emphasis and changes no spoken word of one |
| SpeechExpression.PiecesSpeak | services/tts/src/openclaw_local_tts/expression.py:194-203 | an emphasis cut by tags still speaks the words it covers |
| SpeechExpression.InsertTag | services/tts/src/openclaw_local_tts/expression.py:205-209 | a tag outside every emphasis is sorted to a place that keeps the controls in order |
| TagPlacement.TagsArePlaced | services/tts/src/openclaw_local_tts/expression.py:171-209 | every owed tag is placed exactly once and in the order of the text, outside the emphases or at its place inside one, after the events and before the emphasis at the same place |
| TagPlacement.TagsAreOwed | services/tts/src/openclaw_local_tts/expression.py:179-189 | a tag is owed at each sentence start and each first spoken character of a change, if an emotion is in force there |
| TagPlacement.EmotionIsLatest | services/tts/src/openclaw_local_tts/expression.py:163-164 | the emotion in force is that of the last change up to the offset, and none before the first |
| TagPlacement.PiecesAreMarked | services/tts/src/openclaw_local_tts/expression.py:194-203 | an emphasis with tags inside is cut into its words with a mark exactly where each tag falls |
| PlanAcceptance.AcceptedPlans | services/tts/src/openclaw_local_tts/expression.py:50-116 | a plan is accepted exactly when its parts are allowed, spell out the text, cut no word and hold at most 64 controls, and its changes are its emotions where they begin |
| SpeechRendering.RenderedExactly | services/tts/src/openclaw_local_tts/expression.py:212-258 | rendering emits every control once and in order, each unit covering exactly its segment, and the text of each unit says what it covers and the markup of its controls, trailing events included; unless a unit becomes too long it succeeds exactly when every emphasis lies in one segment |
| SpokenUnits.PlanIsRendered | services/tts/src/openclaw_local_tts/expression.py:40-258 | from an accepted plan and an accepted segmentation, the emitted text is, white space aside, the words of the plan, each character once and in order, and the signs of its events, emphases and tags, once each and in order, with at most an emotion before each unit |
| SpokenUnits.UnitsSound | services/tts/src/openclaw_local_tts/expression.py:241-257 | all emitted text is words and signs: the words are what the units cover, the signs the markup of their controls |
| SpokenUnits.ChunksSay | services/tts/src/openclaw_local_tts/expression.py:228-240 | what the chunks of a unit show is signs and exactly the words of the text they cover |
| SpeechRendering.UnitSaysItsChunks | services/tts/src/openclaw_local_tts/expression.py:241-243 | tidying a unit changes only white space, and at most the emotion in force is put before it |
| SpeechRendering.TakeHolds | services/tts/src/openclaw_local_tts/expression.py:228-240 | what a segment takes is the first of the pending controls and covers exactly the segment |
| SpeechRendering.TakeFails | services/tts/src/openclaw_local_tts/expression.py:231-232 | a segment refuses only an emphasis that begins before its end and does not lie in it |
| SpeechRendering.TakeControls | services/tts/src/openclaw_local_tts/expression.py:228-240 | the inner loop takes the specified controls |
| SpeechRendering.RenderPrepared | services/tts/src/openclaw_local_tts/expression.py:212-258 | the rendering loops, trailing events included, are their specification |
| PcmStream.RoundTrip | packages/openclaw-local-media/src/speech-provider.ts:256-317 | whatever chunks the network makes of a completed stream, the reader closes without an error and delivers the frames written, which put together are the batch audio |
| PcmStream.StreamAgreesWithBatch | services/tts/src/openclaw_local_tts/app.py:312-336 | for segments of one rate the stream is completed exactly when the batch form succeeds within 64 MiB, and its frames are the batch audio |
| PcmStream.AcceptedResponses | packages/openclaw-local-media/src/speech-provider.ts:265-317 | a response is delivered and closed exactly when some whole chunks from its start carry valid frames and the terminator |
| PcmStream.TrailingBytesDependOnChunks | packages/openclaw-local-media/src/speech-provider.ts:307-310 | the same bytes with something after the terminator are refused in one chunk and accepted in two |
| PcmStream.EncodingEnds | services/tts/src/openclaw_local_tts/app.py:312-336 | no encoding goes on where another one ends |
| PcmStream.GenerateAgrees | services/tts/src/openclaw_local_tts/app.py:103-109 | segment by segment, writer and batch form agree on success, size and bytes |
| PcmStream.PauseIsSilence | services/tts/src/openclaw_local_tts/app.py:103-109 | an appended pause is silence of whole samples, short of its time by less than one |
| PcmStream.CarriedIsRead | packages/openclaw-local-media/src/speech-provider.ts:265-290 | frames that arrive are delivered, however they are cut |
| PcmStream.ReadIsCarried | packages/openclaw-local-media/src/speech-provider.ts:265-290 | only frames that arrived are delivered |
| PcmStream.BigEndianRoundTrip | services/tts/src/openclaw_local_tts/app.py:333 | a length written big-endian is read back, whatever follows it |
| PcmStream.WriteStream | services/tts/src/openclaw_local_tts/app.py:312-336 | the writer loop yields the specified bytes, complete or cut off by its first error |
| PcmStream.JoinSpeechSegments | services/tts/src/openclaw_local_tts/audio.py:14-34 | the joining loop yields the specified audio or none |
| PcmStream.FrameReader.NextFrame | packages/openclaw-local-media/src/speech-provider.ts:265-288 | reading one frame, on the mutable buffer, is the specified step |
| PcmStream.FrameReader.Deliver | packages/openclaw-local-media/src/speech-provider.ts:295-317 | pulling until the end delivers and closes as specified |
| TranscriptionEvents.AcceptedStreams | packages/openclaw-local-media/src/transcription-events.ts:74-127 | a stream is accepted, however it is chunked, exactly when it ends with a separator and its events are one `transcript.done` after at most one `speech.confirmed` |
| TranscriptionEvents.ServerStreamIsAccepted | services/stt/src/openclaw_local_stt/app.py:76-77 | what the server writes is accepted by the client, however it is chunked, exactly when its events are one transcript after at most one confirmation |
| TranscriptionEvents.ServerEventsAreRead | packages/openclaw-local-media/src/transcription-events.ts:74-127 | splitting what the server writes gives back its events, one frame each, with nothing left over |
| TranscriptionEvents.SplitIncrementally | packages/openclaw-local-media/src/transcription-events.ts:120-125 | splitting a first part, and later its rest with the second part, is splitting the whole |
| TranscriptionEvents.ChunksDoNotMatter | packages/openclaw-local-media/src/transcription-events.ts:109-126 | reading chunk by chunk ends in the same state as reading all the text at once |
| TranscriptionEvents.SplitIsPartition | packages/openclaw-local-media/src/transcription-events.ts:121-125 | the frames, each with its separator, and the rest are the text |
| TranscriptionEvents.SplitIsComplete | packages/openclaw-local-media/src/transcription-events.ts:121-125 | neither a frame nor the rest holds a separator |
| TranscriptionEvents.NoEarlierSeparator | packages/openclaw-local-media/src/transcription-events.ts:122-122 | more text never makes a separator begin before one that is complete |
| TranscriptionEvents.EventReader.TakeChunk | packages/openclaw-local-media/src/transcription-events.ts:118-126 | a chunk over the byte limit fails unread; otherwise the loop consumes every complete frame |
| TranscriptionEvents.EventReader.TakeFrame | packages/openclaw-local-media/src/transcription-events.ts:74-106 | a frame with data moves the reader on as specified or fails it |
| TranscriptionEvents.EventReader.TakeEnd | packages/openclaw-local-media/src/transcription-events.ts:113-117 | the stream ends well exactly with nothing pending and a transcript |
| DabNavigation.TrustedIff | packages/openclaw-denon/src/dab-navigation.ts:77-112 | a step that returns is on the neighbour, whatever is lost or unanswered, exactly on the rings whose names do not mislead: no hop or two, through a station of the same name next or next but one, ends at another station whose neighbour has another name |
| DabNavigation.ReturnsOnNeighbour | packages/openclaw-denon/src/dab-navigation.ts:77-112 | unless names mislead, a step that returns has moved to exactly the neighbour asked for, with at most seven commands, whatever was lost or unanswered |
| DabNavigation.MisledBy | packages/openclaw-denon/src/dab-navigation.ts:77-112 | for any names that mislead there are faults under which the step returns from another station |
| DabNavigation.ProbeFinds | packages/openclaw-denon/src/dab-navigation.ts:90-107 | a reverse probe that succeeds has the tuner where the attempt started, one hop ahead, or behind at a station of the same name |
| DabNavigation.ProbeRestores | packages/openclaw-denon/src/dab-navigation.ts:90-107 | among distinct names a reverse probe that succeeds has the tuner back where the attempt started |
| DabNavigation.DistinctNamesDoNotMislead | packages/openclaw-denon/src/dab-navigation.ts:77-112 | distinct names never mislead |
| DabNavigation.RepeatedNamesMislead | packages/openclaw-denon/src/dab-navigation.ts:102-107 | two stations of one name in a row before one of another name mislead |
| DabNavigation.SelectionIsOnTarget | packages/openclaw-denon/src/dab-navigation.ts:34-67 | a selection that returns is on a station of the requested name, after as many commands as it says and at most 128; a confirmed one has passed no other of that name |
| DabNavigation.DistinctIsConfirmed | packages/openclaw-denon/src/dab-navigation.ts:42-66 | with distinct names every selection that returns is confirmed |
| DabNavigation.NearestDirection | packages/openclaw-denon/src/dab-navigation.ts:6-19 | down is chosen exactly when it can be strictly shorter than every way up |
| DabNavigation.Receiver.MoveWithRecovery | packages/openclaw-denon/src/dab-navigation.ts:77-112 | the recovery loop, against any such receiver, is its specification |
| DabNavigation.Receiver.SelectByName | packages/openclaw-denon/src/dab-navigation.ts:34-67 | the selection loop, against any such receiver, is its specification |

## Left out

- Input and output: sockets, HTTP, Flask routes, subprocesses, PCI and systemd work, ffmpeg, LiveKit and the inference libraries; their answers are arguments of the model.
- UTF-8, JSON and base64: event streams are modelled on decoded text and the parsed event, transcripts on strings; the byte limit on a combined transcript is the `tooLong` flag of a result.
- Sentence splitting by syntok: paragraphs, sentences and sentence starts are arguments; that they cover the text is not proved here.
- Diagnostics, log fields, saturating counters and the loudness arithmetic of the session: whether a frame is loud is any function of it and of all that came before it.
- Callbacks that re-enter the session or the stream from a notification.
- Parsing of UUIDs, configuration files and request headers; the request ID is present and well formed or not.
- Policy leases of the broker (subscribe, renew, release): they do not take part in powering off.
- The first definition of `close` in `demand_lease.py`, which the second one replaces.
- The copy of `request_lifecycle.py` in the text-to-speech service, which has no background class.
- The expression path without prepared segments, which substitutes placeholders and splits with a budget; `SpeechSegments` proves the splitter for any budget.
- Resampling by the encoder: the stream is modelled at the native rate, where the encoder returns its input.
- Cancellation and clean-up of a stream that is being read, and aborting an event stream: both end in an error at any point.
- Errors of `lease.release()`: a release that is attempted counts as one.
- LeaseDeadline.StopsBeforeLeaseEnds: the monotonic and the wall clock advance together; `StopsByDeadline` needs no such assumption.
- Rounding below a microsecond in local time, and the float product `limit * 0.45`, which is taken as the exact 45 %.
- Microphone, device plugins, policy files and artifact checkers: single-pass validation.
- PcmStream.StreamAgreesWithBatch: segments of different rates, which the batch form refuses and the stream does not look at, are outside it.
- TranscriptionEvents.AcceptedStreams: the byte limit is not part of it; `TranscriptionEvents.EventReader.TakeChunk` has it.
- SpeechSegments.SplitKeepsTheText: with a budget other than the text itself, staying within the limits and never failing are not claimed, because the code does not promise them.
