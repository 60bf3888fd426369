# Muesli's live-transcription path and the protocols around it

Muesli records a meeting, streams its audio to a transcription plugin, relays the
segments to the client, and keeps its data in an embedded Postgres. This project
models the parts of it where state, order and concurrency matter, and proves what
the code and its comments promise about them. Nothing here runs the program.

| part of the system | Dafny files |
|---|---|
| streaming segmentation: frames, utterances, windows, triggers | Sequences, Segmentation, Intervals, Finals, Framing, Timestamps |
| the transcription goroutines, their queue and the wait group | Dispatch, SessionRuns |
| a session from end to end: audio fed to audio transcribed | Transcripts |
| the session object | StreamingSession (module Streaming) |
| relay to the client: finalised-start filter, outbound mailbox, bounded audio buffer | Relay, Mailbox, MailboxRuns, AudioBuffer |
| ownership of the Postgres data directory | Ownership, OwnershipRuns |
| the adaptive voice detector | AdaptiveVad |
| the LAN listener and its watchers | Listener |
| the live-prompt event stream and its wake-ups | LivePrompts, LiveWakes |
| a note's changes from the store to its viewers | LiveViewers |
| citation corpus, section validation, byte budget, digest | Text, Corpus, Admission |
| the two text scanners | Citations, NoteLinks |

## How the models are built

Objects that the program updates in place are classes here, with one method per
method of the source; each method is proved equal to a step on values (`Now()` is
the object as a value). Goroutines are steps of a state machine: one critical
section, one channel operation or one system call is one step, `Run` applies any
sequence of steps, and a step that its goroutine cannot take changes nothing. A
statement over `Run(events)` therefore speaks about every interleaving. Histories
(what was triggered, launched, written, signalled) are kept beside the fields so
that properties of whole runs can be stated.

What is taken for granted:

- A voice detector is any function of the frames it has been shown so far, so it
  may keep any state, but it is deterministic.
- Sample counters and durations are unbounded integers, and levels are reals.
- Ownership: the kernel frees the lock of a dead holder; a live pid names one
  process; an identity check and the signal right after it are one step; the
  Postgres library launches nothing beside a live postmaster of the directory; a
  postmaster writes the pid file as it starts and the file stays intact while it
  lives; `pg_ctl` reports success only when the postmaster is gone; the identity
  check never mistakes another process for a postmaster of the directory, though it
  may fail to recognise one.
- `pg_ctl` signals the postmaster that was just identified, in one step with the
  identity check, although it reads the pid file again by itself. While the instance
  holds the lock no other postmaster can be named there, but the orphan's pid may be
  reused in between; that gap is not modelled.
- A row of the live-prompt snapshot gets a new version whenever it changes.
- The hash behind the digest is free of collisions (`Admission.CollisionFree`).

## What turned out not to hold as written

- Identical audio segments identically however it is chunked only when a detector
  frame size is set: `Framing.ChunkingInvariantIff` shows that this is exact.
- One dropped-audio gap is not always one interval: the three channel operations of an
  enqueue are not atomic. `AudioBuffer.SplitEnqueueCanMisplaceAGap` is a run in which
  the consumer cuts in and the recorded gap covers a sample that was delivered. While
  the stream is not cancelled and the store accepts gaps, all gaps are intervals exactly
  on the runs in which no eviction continues a run after the consumer took audio
  (`AudioBuffer.GapsAreIntervalsIff`).
- The comment in vad_adaptive.go says that the climb lands on the lowest fixed point.
  It never passes it, but it may stop below: at a thin tail, at the 0.1 % tolerance or
  after 40 rounds. If there is a fixed point at all, then
  `AdaptiveVad.ClimbFindsLowestIff` says in terms of these guards exactly when the
  comment is right, and `AdaptiveVad.ThinTailStopsShort` gives recordings at whose end
  the climb rests at a level that is no fixed point although there is one above it, for any scale and any factors under which the loud
  frame stands out; `AdaptiveVad.CalibratedStandsOut` shows that the calibrated factors
  on the logarithmic scale are such.
- A failed start gives up the data directory with its postmaster alive exactly when the
  identity check fails to recognise that postmaster
  (`Ownership.LockReleasedOnlyWhenDown`, `Ownership.EarlyReleaseIff`). That is also the
  one way in which another instance can come to reap the postmaster of a live one
  (`Ownership.SignalsAreProper`, with a run in `Ownership.EarlyReleaseCanBeReaped`).
- When `pg_ctl` has failed, reaping sends a plain SIGINT without a new identity check.
  It goes to the orphan exactly when the orphan has not exited since its check
  (`Ownership.FallbackProperIff`), and a run from a fresh directory can come to signal a
  stranger (`Ownership.FallbackCanSignalAStranger`).
- Comparing address pairs alone would let a stale watcher tear down a re-enabled
  listener (`Listener.EqualPairsAreNotEnough`); the comparison of channels does not.
- The start loop never runs out of its three attempts, so its last error is unreachable
  (`OwnershipRuns.AttemptsNeverRunOut`).
- A template that repeats a heading can never be answered
  (`Corpus.AnswerableIffDistinct`).

## Model

| member | source | states |
|---|---|---|
| Segmentation.ClassifyRaisesAtMostOne | internal/pluginkit/streaming.go:221-274 | One frame raises at most one trigger, and a commit leaves the window empty |
| Segmentation.AudioConserved | internal/pluginkit/streaming.go:221-274 | After any frames the committed audio followed by the open window is exactly the audio judged as speech or tolerated as a dip, the window is within its bound, and an utterance is open exactly while the silence clock has not run out |
| Segmentation.FinishCommitsEverything | internal/pluginkit/streaming.go:301-314 | After Finish the commits alone hold all accepted audio and the window is empty |
| Intervals.TriggersLaidOut | internal/pluginkit/streaming.go:316-356 | Triggers of one window share their start and extend each other; triggers of different windows cover disjoint intervals of the clock, in order |
| Intervals.AllPaced | internal/pluginkit/streaming.go:265-274 | The preview clock is the audio gathered since the last preview or commit and never reaches the interval between frames |
| Intervals.PreviewsComeOnTime | internal/pluginkit/streaming.go:262-274 | A preview is raised exactly when an accepted frame brings the audio since the last one to a full interval and leaves the window within its bound |
| Finals.CommitsComeOnTime | internal/pluginkit/streaming.go:221-274 | A commit is raised exactly when an accepted frame overfills the window or the silence behind an utterance has lasted and the window is not empty; every trigger holds the window, starts with its utterance or at the last commit within it, and ends with the last accepted frame |
| Finals.FlushCommits | internal/pluginkit/streaming.go:308-311 | Finish commits the open window with those times, if there is one, and raises nothing else |
| Framing.CutIsTheAudio | internal/pluginkit/streaming.go:200-207 | The detector frames and the remainder put together are the audio |
| Framing.DrainCuts | internal/pluginkit/streaming.go:200-207 | Draining the buffer judges exactly the frames it can be cut into and keeps the remainder, for any judge |
| Framing.FeedAllJudges | internal/pluginkit/streaming.go:181-217 | A session fed with any chunks has judged the whole frames of the joined audio, once and in order |
| Framing.FinishJudges | internal/pluginkit/streaming.go:301-314 | Finish judges the remainder as one more frame and then commits the open utterance |
| Framing.ChunkingDoesNotMatter | internal/pluginkit/streaming.go:181-217 | With a frame size set, two ways of chunking the same audio give the same state, and after Finish the same triggers with the same samples and times |
| Framing.ChunkingInvariantIff | internal/pluginkit/streaming.go:181-199 | Triggers are independent of chunking for every detector and every audio exactly when a frame size is set |
| Framing.AllAudioIsJudged | internal/pluginkit/streaming.go:289-307 | No audio is skipped, repeated or left behind by Finish, and less than one frame is ever held back |
| Framing.SessionConservesAudio | internal/pluginkit/streaming.go:181-329 | Whatever the chunks, commits and the bounded window hold the accepted audio during the session, and after Finish the commits alone do |
| Dispatch.RunInvariant | internal/pluginkit/streaming.go:334-418 | On every interleaving: one busy goroutine at most, at most two queued commits, launches in trigger order, attempts in launch order, and every final launched, queued, or evicted while two newer finals exist |
| Dispatch.EmittedIsDelivered | internal/pluginkit/streaming.go:395-409 | On every run the emitted results are exactly those of the transcriptions that ended with something to deliver, in the order in which they ended |
| Dispatch.LaunchedIffIdle | internal/pluginkit/streaming.go:334-370 | On every run a trigger, preview or commit, is launched at once exactly when no goroutine is at work; behind one a commit is the last to wait and a preview leaves no trace |
| Dispatch.LongestWaitingIsNext | internal/pluginkit/streaming.go:374-416 | On every run the goroutine that hands off launches the commit that has waited longest, or leaves nobody at work |
| Dispatch.OneTranscriptionAtATime | internal/pluginkit/streaming.go:338-356 | Two goroutines that have not handed off yet are the same one |
| Dispatch.NothingFollowsAFinalOfItsWindow | internal/pluginkit/streaming.go:383-418 | Results come out in trigger order, and after the final of a window only later windows follow |
| Dispatch.WaitMeansAllDone | internal/pluginkit/streaming.go:276-299 | When the wait group is at zero nothing is in flight or queued and every final was attempted or evicted |
| Dispatch.GoroutineStepsCountDown | internal/pluginkit/streaming.go:395-417 | Each effective goroutine step lowers the number of remaining steps by one, whatever the order |
| Dispatch.WaitNeverSticks | internal/pluginkit/streaming.go:281-283 | While Wait blocks some goroutine can step, and when none has steps left the wait group is at zero |
| SessionRuns.TimingDoesNotMatter | internal/pluginkit/streaming.go:221-274 | The segmentation state of a run depends on the calls alone, not on when transcriptions start, end or hand off |
| SessionRuns.SystemIsADispatcherRun | internal/pluginkit/streaming.go:334-418 | Every run of a session is a run of the dispatcher whose offers are exactly the triggers of the session |
| SessionRuns.SameAudioSameTriggers | internal/pluginkit/streaming.go:181-217 | Two framed sessions with the same audio raise the same triggers, however it was chunked and scheduled |
| Transcripts.AllSpeechIsHandled | internal/pluginkit/streaming.go:285-314 | When Finish has returned, the accepted speech of the fed audio is the audio of the commits in order, each was transcribed or evicted and never both, and without evictions the transcribed commits hold all of it in order |
| Streaming.AcceptedMeansUsable | internal/pluginkit/streaming.go:142-179 | A configuration that the constructor accepts gives usable limits, and a set frame size really reframes |
| Streaming.AcceptedIff | internal/pluginkit/streaming.go:142-179 | The constructor accepts exactly the configurations with a positive rate, durations (and a frame, if set) of at least one sample, and nothing negative |
| Streaming.LimitsAreTheDurations | internal/pluginkit/streaming.go:441-451 | Each limit lies between the neighbouring sample counts of its own duration |
| Streaming.StreamingSession.Feed | internal/pluginkit/streaming.go:186-217 | Feed takes the object from its state to the state of the session model after that chunk, and offers exactly the new triggers to the dispatcher |
| Streaming.StreamingSession.JudgePendingLocked | internal/pluginkit/streaming.go:200-207 | The loop of Feed judges the frames at the front of the buffer in order and keeps what is left |
| Streaming.StreamingSession.ClassifyLocked | internal/pluginkit/streaming.go:221-260 | One frame takes the utterance machine one step |
| Streaming.StreamingSession.Finish | internal/pluginkit/streaming.go:301-312 | Finish judges the remainder and commits the open utterance |
| Streaming.StreamingSession.StartTranscriptionLocked | internal/pluginkit/streaming.go:334-357 | A trigger for a non-empty window is launched, queued when it is a final, or dropped when it is a preview |
| Streaming.StreamingSession.QueueCommitLocked | internal/pluginkit/streaming.go:361-370 | A full queue gives up its oldest commit for the newest |
| Streaming.StreamingSession.HandOffNext | internal/pluginkit/streaming.go:410-416 | After its result a goroutine launches the oldest queued commit or clears the flag |
| Timestamps.SessionSpreadsOut | internal/pluginkit/streaming.go:420-447 | From one final to any later trigger the sample clock advances by at least a detector frame, before and after Finish |
| Timestamps.MillisecondsApart | internal/pluginkit/streaming.go:445-447 | Sample times at least a millisecond apart have different millisecond values |
| Timestamps.MillisecondsBetween | internal/pluginkit/streaming.go:445-447 | A time in milliseconds is that of its sample, rounded down |
| Relay.StreamingSegmentRelayState.ShouldRelay | internal/api/stream_relay_state.go:15-24 | The verdict on an event and the starts finalised after it |
| Relay.RelayedIffNotFinalized | internal/api/stream_relay_state.go:15-24 | For any plugin an event passes exactly when no final with its start came before it |
| Relay.KeyIsTheStart | internal/api/stream.go:462-464 | The key of a segment whose T0 is its start divided by 1000 is that start |
| Relay.RoundIsNearest | internal/api/stream.go:462-464 | The key is the nearest millisecond, ties away from zero |
| Relay.SessionIsRelayedInFull | cmd/whisper-cpp-streaming/internal/live/live.go:156-165 | With detector frames of a millisecond or more the filter drops nothing that a session reports, on every chunking and schedule |
| Mailbox.StreamOutboundMailbox.EnqueueMessage | internal/api/stream_outbound.go:66-84 | A final joins the queue and removes the pending partial; a partial replaces the pending one, or is dropped behind a final |
| Mailbox.StreamOutboundMailbox.TakeWritablePartial | internal/api/stream_outbound.go:110-119 | A partial is handed out only when no final is queued |
| MailboxRuns.WrittenInOrder | internal/api/stream_outbound.go:66-119 | What is written follows the order of enqueueing; every final is written, held or queued exactly once; a pending final excludes a partial |
| MailboxRuns.PartialIsTheNewest | internal/api/stream_outbound.go:178-196 | A partial taken for writing is the newest message of all |
| MailboxRuns.EnqueuedIsKept | internal/api/stream_outbound.go:66-84 | On every run a final is queued and removes the partial that waits; a partial that finds no final is kept in place of an older one, and behind a final it is dropped |
| MailboxRuns.PartialLeavesOnlyFor | internal/api/stream_outbound.go:110-119 | A partial leaves the mailbox only for the writer, or because a final or a newer partial was enqueued |
| MailboxRuns.NewestIsDelivered | internal/api/stream_outbound.go:66-213 | The newest message, if it is a final or found none waiting, is in the mailbox, in the writer's hand or written until something newer comes, and written when the writer comes to rest without a failed write |
| MailboxRuns.PartialsAreDebounced | internal/api/stream_outbound.go:178-196 | A partial is taken for writing only from the select with the armed timer, by the timer |
| MailboxRuns.DebounceBranches | internal/api/stream_outbound.go:182-200 | Each branch of that select is open exactly with its token, and only a partial wake leaves the timer running |
| MailboxRuns.ReturnsIffClosedAndEmpty | internal/api/stream_outbound.go:175-211 | At either check the writer returns exactly from a closed and empty mailbox |
| MailboxRuns.NoLostWakeUp | internal/api/stream_outbound.go:127-146 | A writer blocked in either select can go on whenever a message is pending or some close call has completed, whatever other close calls are doing |
| MailboxRuns.WriterProgresses | internal/api/stream_outbound.go:167-212 | Every effective step of the writer alone uses up some of a finite amount of work |
| MailboxRuns.RestMeansDelivered | internal/api/stream_outbound.go:148-213 | A writer at rest whose writes succeeded has nothing pending, and has returned if any close call has completed |
| MailboxRuns.RunInvariant | internal/api/stream_outbound.go:93-97 | The writer returns without error only from a closed and empty mailbox, with every final enqueued until then written |
| AudioBuffer.StreamDropTracker.ObserveFrame | internal/api/stream.go:63-74 | A dropped frame opens or extends the run, anything else closes it |
| AudioBuffer.NothingUnaccounted | internal/api/stream.go:229-275 | On every interleaving the samples received are those taken, buffered, recorded as gaps and in the open run |
| AudioBuffer.NothingLost | internal/api/stream.go:229-275 | While the stream is not cancelled and the store accepts gaps nothing is given up, and after the disconnect every sample is taken, buffered or recorded |
| AudioBuffer.DropsOnlyWhenFull | internal/api/stream.go:442-460 | A frame is sent at once exactly when the buffer has room; a full one gives up its oldest frame for it |
| AudioBuffer.TakenInOrder | internal/api/stream.go:278-286 | What the consumer took, the buffer and the frame in hand are frames of the stream in its order, each once |
| AudioBuffer.RunConsecutive | internal/api/stream.go:442-460 | The buffered frames are consecutive and end where the stream ends, and after an eviction there is room |
| AudioBuffer.EvictionAdjacentIff | internal/api/stream.go:443-453 | An eviction continues the open run without a hole exactly when the consumer took no audio between the failed send and the eviction |
| AudioBuffer.GapsAreIntervalsIff | internal/api/stream.go:442-460 | While the stream is not cancelled and the store accepts gaps, the open run and every recorded gap are intervals of consecutive dropped frames exactly when no eviction continued a run after the consumer took audio |
| AudioBuffer.UntornGapsAreIntervals | internal/api/stream.go:229-275 | One direction of that for every run, cancelled or not |
| AudioBuffer.RunDescribes | internal/api/stream.go:61-78 | On every run the start and the count of each gap are those of the frames dropped behind it |
| AudioBuffer.AtomicGapsAreIntervals | internal/api/stream.go:442-460 | When enqueueing is atomic every recorded gap is one interval of consecutive dropped frames |
| AudioBuffer.UntornGapEnds | internal/api/stream.go:385-400 | Without such an eviction a gap, by its start and its count alone, ends where its last dropped frame ends |
| AudioBuffer.SplitEnqueueCanMisplaceAGap | internal/api/stream.go:442-460 | Without atomicity a run that ends in an orderly disconnect records a gap over a sample that the consumer did take |
| Ownership.RunSafe | internal/embedded/postgres.go:62-121 | Over all runs of any number of instances the lock has one owner, the pid file names every live postmaster, whoever launched it is dead, holds the lock or released it early, what the lock holder relies on is true, and every signal is proper |
| Ownership.SignalsAreProper | internal/embedded/postgres.go:272-324 | On every run Stop and the force-kill signal only the postmaster of their own instance, reaping signals only postmasters before its fallback, and a signal hits the postmaster of another live instance exactly when that instance released the lock early |
| Ownership.OneOwnerOnePostmaster | internal/embedded/ownerlock.go:42-68 | Two instances never hold the lock at once and a live postmaster is unique |
| Ownership.LockReleasedOnlyWhenDown | internal/embedded/postgres.go:245-258 | On every run a live instance gives up the lock with a postmaster of its own alive exactly in the probe of a failed start that does not recognise it: never on a path of its one Stop |
| Ownership.StoppedMeansGone | internal/embedded/postgres.go:159-225 | On every run, once a first Stop has returned nil no postmaster of the instance is alive at any later moment, even after the instance has died |
| OwnershipRuns.CapturesItsOwn | internal/embedded/postgres.go:366-381 | On every run an instance that captures its pid while its postmaster is alive runs at the pid of that postmaster and holds the lock |
| OwnershipRuns.StartSucceeds | internal/embedded/postgres.go:342-381 | From any state without a live postmaster and with a free lock a new instance can come to run one, whatever the pid file holds |
| OwnershipRuns.StartsOverOrphan | internal/embedded/postgres.go:558-624 | And so over a live orphan, which is signalled once, with pg_ctl or without |
| OwnershipRuns.FallsBack | internal/embedded/postgres.go:578-623 | A failed pg_ctl is followed by one plain signal, and the exit of the orphan removes the file |
| OwnershipRuns.ClearsFile | internal/embedded/postgres.go:626-649 | A pid file is removed exactly when it cannot be parsed or names a dead process |
| OwnershipRuns.FailedLaunch | internal/embedded/postgres.go:382-409 | A failed launch is retried once for a stale pid file and once for a taken port, and else given up |
| OwnershipRuns.RecoversFromStale | internal/embedded/postgres.go:383-396 | A stale file behind a failed launch is removed and the launch tried again; a file that is not stale is not retried for |
| OwnershipRuns.AttemptsNeverRunOut | internal/embedded/postgres.go:346-412 | On every run the start loop has an attempt left when it comes round: its error about exceeded attempts is never returned |
| OwnershipRuns.FailedStart | internal/embedded/postgres.go:103-118 | A failed start that recognises its own postmaster keeps the lock, and one without a pid in the file gives it up |
| OwnershipRuns.StopSucceeds | internal/embedded/postgres.go:159-225 | From any state in which an instance runs its postmaster, Stop can end it with one signal, return nil and give up the lock |
| OwnershipRuns.KillSucceeds | internal/embedded/postgres.go:304-323 | And with a second signal when it does not exit in time |
| OwnershipRuns.KillFails | internal/embedded/postgres.go:315-319 | A postmaster that survives the kill keeps the directory locked |
| OwnershipRuns.KillFindsItGone | internal/embedded/postgres.go:693-703 | A process that is gone by the time of the kill makes Stop succeed without that signal |
| OwnershipRuns.StopFindsItDead | internal/embedded/postgres.go:187-197 | Stop after the postmaster died by itself gives up the lock without a signal, and returns nil exactly when the file still names it |
| OwnershipRuns.StopFindsAStranger | internal/embedded/postgres.go:277-299 | A stranger at the captured pid is never signalled, and the lock is kept |
| OwnershipRuns.KillCancelled | internal/embedded/postgres.go:320-323 | A Stop cancelled during the wait for the kill reports it but gives up the lock once the postmaster is gone |
| OwnershipRuns.FullLife | internal/embedded/postgres.go:62-225 | Runs from a fresh directory that reach the running state, and then a nil Stop with one signal to the instance's own postmaster |
| OwnershipRuns.FullLifeByForce | internal/embedded/postgres.go:680-708 | And one through the force-kill, with two |
| Ownership.EarlyReleaseIff | internal/embedded/postgres.go:103-118 | A failed start gives up the lock with its postmaster alive exactly when the identity check does not recognise it |
| Ownership.UnansweredProbeReleasesEarly | internal/embedded/postgres.go:234-243 | A run from a fresh directory that ends with a released lock and a live postmaster of the live instance |
| Ownership.EarlyReleaseCanBeReaped | internal/embedded/postgres.go:558-600 | That run goes on to one in which another instance reaps that postmaster |
| Ownership.FallbackProperIff | internal/embedded/postgres.go:578-600 | What has the orphan's pid when pg_ctl has failed is signalled, and it is a postmaster exactly when the orphan has not exited since its identity check |
| Ownership.FallbackAfterReuse | internal/embedded/postgres.go:590-600 | Wherever a run waits for pg_ctl it can go on to signal a stranger |
| Ownership.FallbackCanSignalAStranger | internal/embedded/postgres.go:578-600 | A run from a fresh directory in which the reaping instance signals a stranger |
| AdaptiveVad.QuantileMonotone | internal/pluginkit/vad_adaptive.go:259-280 | Conditioning on louder frames never lowers the quantile, while there are such frames |
| AdaptiveVad.NextMonotone | internal/pluginkit/vad_adaptive.go:218-225 | The map of the iteration is non-decreasing wherever the tail has mass |
| AdaptiveVad.ClimbStaysBelow | internal/pluginkit/vad_adaptive.go:226-242 | The climb never goes down, never abandons the update and never passes a fixed point above its start |
| AdaptiveVad.ClimbReachesIff | internal/pluginkit/vad_adaptive.go:226-242 | When the iterates of the map rise to a fixed point, the loop ends there exactly when it has rounds enough, every iterate before has mass enough above it and no step but the last is within the tolerance |
| AdaptiveVad.LowestFixedPointIff | internal/pluginkit/vad_adaptive.go:221-242 | For every histogram the climb finds the lowest fixed point exactly when the iterates rise to a fixed one within its rounds and its guards let it go so far |
| AdaptiveVad.FixedPointIsReached | internal/pluginkit/vad_adaptive.go:218-225 | If the map has any fixed point, its iterates from the noise floor rise to a fixed one in at most as many steps as there are bins |
| AdaptiveVad.ClimbFindsLowestIff | internal/pluginkit/vad_adaptive.go:221-242 | Whenever the map has a fixed point, its lowest one is an iterate, and the loop ends there exactly when it has rounds enough and its guards let it go so far |
| AdaptiveVad.ThinTailStopsShort | internal/pluginkit/vad_adaptive.go:207-254 | Recordings of noise and one loud frame after which the detector has updated its threshold from a climb that stayed at the noise floor, as it would for any number of rounds, although the floor is no fixed point and the map has one above it |
| AdaptiveVad.CalibratedStandsOut | internal/pluginkit/vad_adaptive.go:16-47 | On a logarithmic scale of 51 bins to the decade the calibrated factors make such recordings, for a loud frame two decades above the noise |
| AdaptiveVad.SlewIsSmall | internal/pluginkit/vad_adaptive.go:244-253 | The new threshold differs from the old by at most the slew share of it, or is the minimum threshold |
| AdaptiveVad.RecomputeAimsBelowFixedPoints | internal/pluginkit/vad_adaptive.go:207-254 | An update aims at a level between the noise floor and every fixed point and moves towards it by a small step |
| AdaptiveVad.HeardSane | internal/pluginkit/vad_adaptive.go:174-254 | Over any recording the mass is the sum of the bins and no frame moves the threshold far |
| AdaptiveVad.VerdictIff | internal/pluginkit/vad_adaptive.go:174-197 | After any recording a frame that tells nothing is no speech and changes nothing; any other is speech exactly when it reaches the threshold in force after it, which is the fallback during the warm-up and moves only at the end of an update period |
| AdaptiveVad.UpdateMoves | internal/pluginkit/vad_adaptive.go:204-254 | At the end of an update period after the warm-up the threshold moves by the slew towards where the climb on the faded histogram settles |
| AdaptiveVad.SlewAimsAt | internal/pluginkit/vad_adaptive.go:244-253 | Of all thresholds within the slew, the new one is nearest to the aim |
| AdaptiveVad.HistogramRemembers | internal/pluginkit/vad_adaptive.go:199-211 | Over any recording each bin holds its frames, each faded by the decay once for every update since |
| AdaptiveVad.LoudFrameVerdict | internal/pluginkit/vad_adaptive.go:188-196 | At the end of the recordings of ThinTailStopsShort the loud frame is speech exactly when it reaches the threshold then in force |
| AdaptiveVad.AdaptiveEnergyVAD.FindQuantile | internal/pluginkit/vad_adaptive.go:259-280 | The two loops find the first bin at which the running sum reaches the share of the mass |
| AdaptiveVad.AdaptiveEnergyVAD.ClimbFrom | internal/pluginkit/vad_adaptive.go:226-242 | The loop computes the climb on the histogram |
| AdaptiveVad.AdaptiveEnergyVAD.Judge | internal/pluginkit/vad_adaptive.go:174-197 | One frame takes the detector one step, with the verdict of the threshold then in force |
| Listener.ListenerController.EnableOn | internal/api/listener_controller.go:71-133 | Enable takes down what ran before and, when the bind succeeds, starts a new generation |
| Listener.ListenerController.TearDownBy | internal/api/listener_controller.go:217-233 | A watcher takes the listener down only while the current channel is its own |
| Listener.TearDownsAreOwn | internal/api/listener_controller.go:217-233 | Over any continuation of any run a generation stays current, on its pair and with its channel open, exactly until Enable or Disable is called or its own watcher, having seen the pair go, takes the mutex |
| Listener.StaleWatcherIsHarmless | internal/api/listener_controller.go:218-238 | No sequence of steps of watchers of other generations, whatever their pairs, changes the current generation or its pair |
| Listener.EqualPairsAreNotEnough | internal/api/listener_controller.go:220-228 | With the pair compared alone, a run in which a stale watcher tears down the generation that re-enabled its pair |
| Listener.ChannelsCloseOnce | internal/api/listener_controller.go:173-178 | No channel is closed twice, and none while its generation is current |
| Listener.UnusableIsSticky | internal/api/listener_controller.go:185-197 | Unusable implies no bound pair and only Disable or a successful Enable clears it |
| Listener.CallsEndTheGeneration | internal/api/listener_controller.go:71-171 | Disable clears the mark and takes the listener down, Enable takes down what ran before and starts a new generation exactly when it binds, and both cancel the watcher of the old one |
| Listener.CancelledExits | internal/api/listener_controller.go:208-210 | A cancelled watcher that has not noticed anything exits and changes nothing |
| Listener.WatcherClosesItsChannel | internal/api/listener_controller.go:233-235 | A watcher that is through with the mutex closes the channel of its generation |
| Listener.OwnWatcherActs | internal/api/listener_controller.go:229-232 | The watcher of the current generation that saw its pair go does take the listener down |
| LivePrompts.LiveNoteStream.Reread | internal/api/live_prompts.go:256-290 | A reread that finds the note succeeds on a connection with room for the held and the read rows; the viewer then holds exactly the snapshot read, having been sent only what changed; when the note is gone it holds nothing, and after a failed lookup nothing was sent |
| LivePrompts.LiveNoteStream.Serve | internal/api/live_prompts.go:292-335 | For any number of rereads, at the end of each read the replayed events give exactly what that read found; and all reads are served when each finds the note and the connection has room |
| LivePrompts.LiveNoteStream.EndsEverything | internal/api/live_prompts.go:246-254 | On a connection that carries them the ended events empty the viewer |
| LiveWakes.LiveNoteHub.Register | internal/api/live_prompts.go:62-80 | A registration adds an empty one-slot mailbox under an id that the note does not have yet |
| LiveWakes.LiveNoteHub.Wake | internal/api/live_prompts.go:85-94 | Every mailbox of the note holds a wake afterwards and those of other notes are untouched |
| LiveWakes.WakesAreServed | internal/api/live_prompts.go:310-324 | Every wake is followed by a read that starts later or is about to, or is still in the mailbox, or the handler has left |
| LiveWakes.OneMoreRead | internal/api/live_prompts.go:310-324 | A wake that waits, or a heartbeat, leads to one more read, after which the handler waits again |
| LiveViewers.RestMeansCurrent | internal/api/live_prompts.go:82-94 | On every interleaving of changes, wakes and any number of handlers, a handler that waits with an empty mailbox has a viewer that holds the rows as of the last announced change or later, and the present rows when all changes have been announced |
| LiveViewers.TokenLeadsToReread | internal/api/live_prompts.go:314-317 | A wake that waits leads to a reread that shows all changes so far |
| LiveViewers.HeartbeatCatchesUp | internal/api/live_prompts.go:318-324 | A heartbeat leads to one as well, whether or not any wake came |
| LiveViewers.NewViewerIsShown | internal/api/live_prompts.go:292-303 | A new viewer is shown the rows as they are when its first read starts |
| LiveViewers.AnnouncementReachesAll | internal/api/live_prompts.go:85-94 | An announcement puts a wake into every mailbox |
| LiveViewers.UnrestedCanGoOn | internal/api/live_prompts.go:310-324 | A handler that does not wait with an empty mailbox has a step to take |
| Corpus.SegmentKeyInjective | internal/execution/executor.go:187-192 | Two pairs of note and segment index never share a key |
| Corpus.NumbersAreDistinct | internal/execution/executor.go:186-207 | Distinct numbers stand for distinct pairs |
| Corpus.AssignNumbers | internal/execution/executor.go:186-207 | The distinct pairs get the numbers 1, 2, ... in document and segment order, and every segment has one |
| Corpus.BuildCorpus | internal/execution/prompt.go:31-71 | Between the directive and the focus the corpus shows for each document its header and notes and then every segment once, in order, and the number on each line leads back to the source with that note and index |
| Corpus.LineShowsItsNumber | internal/execution/prompt.go:51-58 | The text of a line begins with that number in brackets, and carries speaker and text |
| Corpus.PromptIsMeasured | internal/execution/prompt.go:102-112 | The measured prompt begins with the corpus and has 43 bytes beside its variable parts |
| Corpus.PrepareDocuments | internal/execution/executor.go:175-231 | The three refusals exactly when they are due, and otherwise the numbering, corpus, prompts and generations |
| Corpus.GenerationsAreTheLast | internal/execution/executor.go:188-190 | Each note of the input is recorded with the generation of its last document |
| Corpus.ValidateSections | internal/execution/executor.go:346-364 | A response is accepted exactly when it repeats the headings in order, distinct and with content, and is found empty exactly when a blank section comes first |
| Corpus.AnswerableIffDistinct | internal/execution/executor.go:346-364 | Some response to a template passes exactly when its headings are distinct |
| Admission.ParsedIffUsable | internal/execution/admission.go:80-104 | A parsed configuration is never found invalid by Admit, and what Admit could use is never refused |
| Admission.CeilingIsExact | internal/execution/admission.go:32-60 | A list of prompts passes exactly when its largest is within context minus reserve minus framing, in bytes, and exceeds the budget exactly when it is not |
| Admission.DigestTextInjective | internal/api/cross_analysis.go:186-191 | The hashed text determines the plugin id and all four fields |
| Admission.PreflightIff | internal/api/cross_analysis.go:123-149 | Preflight succeeds exactly with a default plugin whose budget is usable and not exceeded, and reports an exceeded one as such |
| Admission.GeneratorOnlyWhenAdmitted | internal/api/cross_analysis.go:201-220 | However the plugin changed in between, the generator is called exactly when id and budget are unchanged, and then the prompts would be admitted under the configuration read at the call |
| Citations.ParseMarkerNumber | internal/chat/citations.go:65-74 | The bounded parser gives the value of the digits, or nothing exactly when it exceeds 2^30 |
| Citations.CitedIsFirstAppearances | internal/chat/citations.go:25-30 | The cited numbers are the in-range values of the markers, each once, in order of first appearance, and none is missing |
| Citations.ParseCitations | internal/chat/citations.go:31-59 | The result lists the cited numbers in order, each with the fields of the source at that position |
| Citations.RenderedTextMarkers | internal/chat/citations.go:21-23 | In a text of bracket-free fragments and markers exactly the markers are found, in order |
| NoteLinks.TrimmedIff | internal/notelinks/notelinks.go:23-26 | Trimming leaves no white space at either end and leaves exactly such texts alone |
| NoteLinks.ParseMentions | internal/notelinks/notelinks.go:10-33 | The scanner terminates on every text and returns what the recursive scan finds |
| NoteLinks.MentionsReadBack | internal/notelinks/notelinks.go:5-9 | A note written from titles, plain text and escaped openers reads back as exactly its titles, in order |
| NoteLinks.TitleIsTrimmed | internal/notelinks/notelinks.go:17-28 | Any closed title is read trimmed, and one of white space alone is no mention |
| NoteLinks.UnclosedGivesNothing | internal/notelinks/notelinks.go:18-22 | A text without a closing delimiter has no mentions, whatever it opens |

## Left out

- HTTP handlers, routing, sessions, OAuth, exports and the store: request plumbing; store calls appear only as the outcomes the modelled code reacts to.
- Overflow of 64-bit sample counters, of duration times rate, and of 32-bit platform integers.
- Rounding of floating-point arithmetic in the detector and in T0; the level of a frame is an arbitrary real, and the histogram's scale is any monotone pair of maps with binOf(valueOf(i)) = i.
- EnergyVAD and the detector configuration checks: single comparisons.
- Text and errors of a transcription: a step says only whether a result is emitted.
- Compaction of the buffer behind Feed, and copies of samples: the model has values.
- The gap boundary flag, the gap message and the store's copy of a gap: only the recorded start and count are modelled.
- Timer durations: an armed timer may fire at any step.
- Ownership.SignalsAreProper: says nothing of overlapping Stop calls on one instance, which zero the captured pid under each other; an instance is stopped once, as cmd/muesli/main.go does.
- Ownership.LockReleasedOnlyWhenDown: has the same limit; a second Stop that overlaps the first may find the captured pid zeroed and then release the lock unconditionally, with the postmaster alive.
- Ownership: a pid file that records another directory on its second line, the effect of the library's own stop after a failed pid capture, the port choice and the contents of the password file.
- internal/embedded/processidentity.go and the Windows bookkeeping: the identity check is an answer that a step brings along.
- Reset of the listener's certificate, TLS, and errors of closing a server.
- The heartbeat message and the renewal of the subscription's lease: a heartbeat counts as one more reread.
- Order of the events within one reread: the model picks the keys in some order, as ranging over a map does.
- Executor.Run's request assembly and the Markdown rendering of the result.
- JSON decoding and SHA-256: budgets are modelled after decoding, the hash by its freedom from collisions.
- UTF-8: corpus and prompt text has one character per byte, note text and the content of sections one character per code point; the fixed sentences of the prompts are parameters.
