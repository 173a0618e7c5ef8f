# Verified model of a streaming server's core

This project models six parts of the streaming server in Dafny and proves what they promise, over every
input, every run or every reachable state. `dafny verify dfyconfig.toml` checks all of it.

| file | part of the server |
|---|---|
| AnnexB.dfy, AnnexBReader.dfy | the splitter that cuts a chunked Annex B byte stream (section B.1.1 of ITU-T H.264) into NAL units |
| PlaybackClock.dfy, PlaybackMerge.dfy | the ring reader with its playback clock, and the audio/video merge of a subscriber's playback loop |
| RecordAdmission.dfy | automatic recording: admission by the concurrency gate, the race between registering a job and its publisher's end, ownership of the slot |
| PublisherState.dfy, PublisherRuns.dfy, StreamHub.dfy, HubRuns.dfy, HubLaws.dfy, StreamServer.dfy | publishers, waiting lists, aliases, and the subscribers that move between them: one publisher and its runs, the server as a value, its runs and what each event means for everybody, the server with its loops |
| UploadRecovery.dfy, UploadQueue.dfy, UploadRetries.dfy, UploadReuse.dfy, UploadStale.dfy | recovery of failed uploads, and the retry queue with its concurrent workers: exclusion and media, retries and backoff, pending names used again, and what stale snapshots can do |
| ResidentPull.dfy, RouteWait.dfy, StorageReconnect.dfy | the timed loops: pull proxies, the bounded wait of API routing, storage reconnection |
| Wrappers.dfy | the option type they share |

Objects whose methods update their fields are classes; each method is proved against a specification on
values, and the properties are lemmas about that specification or invariants the methods keep. Protocols
with several parties (recording, upload workers) are state machines over atomic steps, with an invariant that
every step keeps and an induction over runs. The environment appears as parameters: readers' frames, gate
verdicts, file and database faults, clock readings and library choices are arbitrary inputs unless an
assumption is named below.

## Assumptions about what is not modelled

- The ring behind a reader is a log with increasing sequence numbers and non-decreasing timestamps; the
  playback span fits the 32-bit millisecond clock; sequence numbers do not wrap.
- The task library: a rejected task never starts, OnStart runs once, a started task that ends runs the dispose
  callbacks registered by then and none that is registered later, a publisher is stopped before it sweeps its tasks, and the server's stream task runs one
  operation at a time.
- Aliases never name their own target; an attempt to upload that does not crash ends within the stale limit of
  two hours; operators reset only rows that are not uploading; the name given to a second pending file of the
  same base name is unused. Recovery moves media to paths where no file is, as it does
  unless `UploadRecovery.Overwrites`.
- Only `Publisher.Go` itself ends a publisher for being idle or unwatched, and a stream's publish
  configuration is not overridden by arguments in its URL.

## Where the code does less than it says

- After a first upload the missing-file branch (upload_retry.go:140-151) writes the row without a claim, so a
  task can be claimed twice. `UploadStale.ExclusionFails` is such a run, without a crash and without any other
  loss of files. A run is free of concurrent attempts if and only if no claim is made on top of one
  (`UploadQueue.ExclusionExactly`), and it has neither those nor a row that belies an attempt if and only if no
  missing-file write hits the task while an attempt of it is in flight (`UploadQueue.MutualExclusionExactly`);
  `UploadQueue.SecondClaim` is what a worker can do after one that does. That the row is not uploading is a test
  that suffices (`UploadQueue.MutualExclusionByStatus`), and before the first upload of a task nothing has to be
  tested (`UploadQueue.ExclusiveUntilFinished`).
- The mark that is to end all retries of a lost file (upload_retry.go:143-144) is undone by an older worker's
  failure (`UploadStale.StaleSnapshotRewinds`), exactly if that worker's snapshot had fewer than max - 1
  retries, or by a reset (`UploadRetries.ComesBackExactly`); with fresh snapshots it is final
  (`UploadRetries.RetriesSpent`).
- A pending file name is used again as soon as the earlier file is gone (pkg/storage/upload_manager.go:169-176),
  and an older worker can then upload and remove the new media for the old task
  (`UploadStale.ReusedNameAtRisk`). `UploadReuse.ReuseSafeExactly` says exactly when no run can.
- The look at the pending name treats every error as "free" (pkg/storage/upload_manager.go:173), so an existing
  recording can be overwritten (`UploadRecovery.PendingRecordingDestroyed`), exactly when
  `UploadRecovery.OverwritesExactly` says.
- A confirmed registration (upload_recover.go:138-151) need not be a row the queue will retry, because the
  status is not looked at (`UploadRecovery.ConfirmedWithoutFailedRow`); `UploadRecovery.ConfirmedRow` says
  exactly when it is.
- A pull job that ends before the proxy has hung its hook on it (pull_proxy.go:223-233) leaves the proxy
  believing for ever that its pull has started (`ResidentPull.EarlyEndStrandsProxy`);
  `ResidentPull.PullStartedExactly` says exactly when it believes so.
- A transfer puts the publisher it leaves into the state of waiting for subscribers however many vod subscribers
  stay (publisher.go:611-632), and the delayed close then ends it under them (publisher.go:190-193), as in the
  run of `PublisherRuns.VodLeftBehind`. It can happen if and only if a transfer has run with a vod subscriber
  attached and since then no newcomer has come and not all vod subscribers have left
  (`PublisherRuns.WatchedCloseOverRuns`).
- A transfer does not uncount the subscribers it moves away (publisher.go:611-632), so the counted buffer times
  are those of the attached subscribers alone if and only if no transfer has moved anybody
  (`PublisherRuns.CountsExactly`); for ever after they count both, and each removal that leaves somebody takes
  the maximum over both (`PublisherState.RemoveRecomputes`).
- A rejected start watcher gives the slot of a recording back although its job goes on (plugin.go:951-959), and
  so does a look at a job that is being stopped; that happens to a job that can be live if and only if one of the
  two did (`RecordAdmission.SlotKeptUnderLiveJob`), and then any number of jobs can run beside the gate's limit
  (`RecordAdmission.MoreJobsThanSlots`).
- A transfer resets the buffer time of the publisher it leaves (publisher.go:623), which can be less than a
  remaining subscriber asked for: `PublisherState.TransferShortensBuffer`, with the exact condition in
  `PublisherState.TransferBuffer`.
- The end of a publisher clears only the aliases of its own path (alias.go:232-239). An alias that it served as
  a stand-in keeps naming the dead publisher and sends new subscribers to it (`StreamServer.StandInEnds`,
  `StreamHub.StandInOutlived`), exactly as `StreamHub.UnpublishNamesLive` says.
- `Size` of the Annex B reader is decremented twice when both offsets are non-zero
  (pkg/annexb_reader.go:30-42), as `AnnexBReader.SizeDrifts` shows; `AnnexBReader.AnnexBReader.ClipFront` says
  exactly when it stays right.

## Model

| member | source | states |
|---|---|---|
| AnnexB.FirstStart | pkg/annexb_reader.go:46-71 | the least position at which a 3- or 4-byte start code begins, or the length when there is none |
| AnnexB.FirstStartUnique | pkg/annexb_reader.go:46-71 | no other position has those two properties |
| AnnexB.FirstStartNotPrecededByZero | pkg/annexb_reader.go:61-67 | the look-behind guard of a 3-byte match is always true where it is reached |
| AnnexB.InvalidExactly | pkg/annexb_reader.go:122-128 | a read reports invalid data if and only if there is a start code, but not in front |
| AnnexB.NaluExactly | pkg/annexb_reader.go:113-150 | it returns a unit if and only if there is a start code in front and another behind it, and then up to the first of those |
| AnnexB.FoundStartIsStable | pkg/annexb_reader.go:46-71 | a start code that was found stays the first one, with the same length, whatever is appended |
| AnnexB.StepIsStable | pkg/annexb_reader.go:113-150 | bytes that arrive later never change what a completed read decided |
| AnnexB.RestStartsWithCode | pkg/annexb_reader.go:136-150 | what remains after a read begins with a start code again |
| AnnexB.PayloadHasNoStart | pkg/annexb_reader.go:136-177 | an emitted payload contains no start code |
| AnnexB.ChunkInvariance | pkg/annexb_reader.go:17-177 | for every stream and every interleaving of chunks and reads, what was emitted followed by the parse of the unread bytes is the flat parse of the whole stream; in particular the emitted units are a prefix of it |
| AnnexB.DrainedRunEmitsParse | pkg/annexb_reader.go:113-177 | once reads emit nothing, exactly the flat parse was emitted, however the stream was cut |
| AnnexB.AlignedRunNeverInvalid | pkg/annexb_reader.go:122-128 | on a stream that begins with a start code no read of any run reports an invalid prefix |
| AnnexB.PayloadEnd | pkg/annexb_reader.go:46-71 | a payload in front of a start code ends at its own end if and only if it holds no 00 00 01 and does not lend a zero to a 3-byte code |
| AnnexB.RoundTrip | pkg/annexb_reader.go:113-177 | printing NAL units with 3- or 4-byte start codes and a closing code reads back exactly if and only if every payload is printable in that sense |
| AnnexB.RoundTripChunked | pkg/annexb_reader.go:17-177 | the same through any cutting into chunks that is read to the end |
| AnnexBReader.AnnexBReader.constructor | pkg/annexb_reader.go:11-15 | an empty reader is valid and has no unread bytes |
| AnnexBReader.AnnexBReader.AppendBuffer | pkg/annexb_reader.go:17-21 | the unread bytes grow by the chunk, empty chunks included |
| AnnexBReader.AnnexBReader.ClipFront | pkg/annexb_reader.go:23-43 | the unread bytes stay; Size stays equal to the retained bytes exactly unless both offsets were non-zero |
| AnnexBReader.AnnexBReader.GetByteAt | pkg/annexb_reader.go:74-99 | the byte at a position of the unread bytes, 0 behind their end |
| AnnexBReader.AnnexBReader.FindStartCode | pkg/annexb_reader.go:46-71 | found if and only if there is a start code; then its least position and its length |
| AnnexBReader.AnnexBReader.Forward | pkg/annexb_reader.go:188-209 | skips the given number of unread bytes, at most all of them, across chunks |
| AnnexBReader.AnnexBReader.SkipCurrentBuffer | pkg/annexb_reader.go:212-219 | skips exactly the unread rest of the current chunk |
| AnnexBReader.AnnexBReader.GetCurrentBuffer | pkg/annexb_reader.go:180-186 | the unread rest of the current chunk, a prefix of the unread bytes |
| AnnexBReader.AnnexBReader.ReadNALU | pkg/annexb_reader.go:113-177 | error exactly for a start code that is not in front; a unit is consumed exactly if there is a start code in front and another behind it; the new unread bytes and what each output receives are those of the flat reader, so any outcome but a complete unit changes neither |
| AnnexBReader.AnnexBReader.FindPayloadEnd | pkg/annexb_reader.go:130-150 | the look-ahead finds the next start code behind the current one and leaves the cursor where it was |
| AnnexBReader.SizeDrifts | pkg/annexb_reader.go:23-43 | a reader, reached by two chunks and one read, whose Size is no longer the retained bytes |
| AnnexBReader.AnnexBReader.EmitUnit | pkg/annexb_reader.go:152-177 | the copy loop moves start code and payload to the outputs byte for byte, the second one without the start code, and ends even with empty chunks |
| AnnexBReader.NaluConservation | pkg/annexb_reader.go:152-177 | emitted bytes followed by the remaining ones are the old ones; the output without start code is the one with it minus the code; nothing emitted means nothing consumed |
| AnnexBReader.Drive | pkg/annexb_reader.go:17-177 | the chunked reader, driven by any run, emits and leaves what the flat run says |
| PlaybackMerge.SubscribeHandler.Run | subscriber.go:408-531 | the callbacks made are exactly those of the merge, defined without loops, for the frames settled so far; every video frame read was delivered once in order or is the one held, every audio frame too unless it was below SkipTs; callbacks after the first video frame are sorted; playback stops at once, and only when a reader has nothing more and nothing of it is held, at the first callback that fails, or at the first look that finds the subscriber stopped, whose frame just read stays held |
| PlaybackMerge.SubscribeHandler.PlayVideo | subscriber.go:424-477 | the inner video loop keeps accounting and merge, never advances the audio reader, and leaves only with a held video frame, with no video frame left, or at once for one of the other reasons |
| PlaybackMerge.SubscribeHandler.PlayAudio | subscriber.go:483-531 | the inner audio loop keeps accounting and merge, never advances the video reader while its frame is held, and leaves only with a held audio frame, with no audio frame left, or at once for one of the other reasons |
| PlaybackMerge.SubscribeHandler.SendAudioFrame | subscriber.go:352-362 | the held audio frame is delivered and released, also when the callback fails |
| PlaybackMerge.SubscribeHandler.SendVideoFrame | subscriber.go:364-374 | the same for the held video frame |
| PlaybackMerge.DeliverVideo | subscriber.go:460-473 | delivering the held video frame keeps accounting and order when it is no later than the held audio frame, or is the very first |
| PlaybackMerge.DeliverAudio | subscriber.go:460-464 | the same for the held audio frame |
| PlaybackMerge.ReadVideo | subscriber.go:425-430 | reading the next video frame while none is held keeps the accounting |
| PlaybackMerge.ReadAudio | subscriber.go:495-500 | reading the next audio frame while none is held keeps the accounting |
| PlaybackMerge.SkipAudio | subscriber.go:526-530 | a skipped audio frame was below SkipTs, and skipping keeps the accounting |
| PlaybackMerge.VideoGoesOut | subscriber.go:458-473 | sending a video frame that is not later than the held audio frame, or is the first, is the next step of the merge |
| PlaybackMerge.HeldAudioGoesOut | subscriber.go:460-464 | so is sending the held audio frame in front of a later video frame |
| PlaybackMerge.HeldVideoGoesOut | subscriber.go:520-525 | so is sending the held video frame in front of a later audio frame |
| PlaybackMerge.AudioSettles | subscriber.go:526-530 | so is sending, or skipping below SkipTs, an audio frame that is not later than the held video frame |
| PlaybackMerge.SmallMerge | subscriber.go:458-530 | what the merge of two video frames and an audio frame is, for all timestamps: order, ties and skipping |
| PlaybackMerge.TieWithHeldAudio | subscriber.go:458-473 | a video frame with the timestamp of a held audio frame goes out in front of it |
| PlaybackMerge.SkipsBelow | subscriber.go:526-530 | no audio frame at or above SkipTs is skipped, and any below it is that is not later than the second video frame |
| PlaybackClock.AVRingReader.ReadFrame | pkg/av_reader.go:84-203 | the clock is at least 1 and never falls; the frame is never before SkipTs; playback time starts at StartTs, then advances with the timestamps, and by exactly 10 ms across the jump from the first key frame |
| PlaybackClock.AVRingReader.ReadFirst | pkg/av_reader.go:152-169 | on the first group of pictures: reads on, or jumps to a newer key frame and gains exactly 10 ms whatever its timestamp |
| PlaybackClock.AVRingReader.ReadUntilKey | pkg/av_reader.go:180-191 | waiting for a key frame ends at the first one after the current frame |
| PlaybackClock.AVRingReader.ReadNextFrame | pkg/av_reader.go:59-82 | moves forward; only a reader in NORMAL state may skip frames |
| PlaybackClock.AVRingReader.StartReading | pkg/av_reader.go:100-151 | in every mode the first frame is shown at exactly StartTs |
| PlaybackClock.AVRingReader.FirstSeqIsFirst | pkg/av_reader.go:153-158 | the sequence test recognises exactly the first key frame; any other visible one lies at or after the current frame |
| PlaybackClock.AVRingReader.UpdateClock | pkg/av_reader.go:194-202 | the shown clock is the exact playback time in milliseconds, 0 shown as 1, and counts up on a late frame |
| PlaybackClock.ShownMonotone | pkg/av_reader.go:198-201 | the shown clock is monotone in playback time below the 32-bit limit |
| PlaybackClock.JumpsOnce | pkg/av_reader.go:153-159 | a playback leaves its first key frame for a newer one at most once |
| PlaybackClock.StartLaw | pkg/av_reader.go:100-151 | for every mode the frame a fresh reader begins at, the state it is then in, and when that call fails |
| PlaybackClock.FirstLaw | pkg/av_reader.go:152-169 | on the first group of pictures: the latest key frame in sight if it is a newer one, else the next frame; and when the call fails |
| PlaybackClock.NormalLaw | pkg/av_reader.go:59-82 | afterwards: the next frame, or, exactly for a reader behind by more than the threshold with a later key frame in sight, that one; and when the call fails |
| PlaybackClock.WaitKeyLaw | pkg/av_reader.go:180-191 | while waiting: the first key frame after the current frame; fails exactly if there is none or a frame up to it was discarded |
| PlaybackClock.ThresholdGrows | pkg/av_reader.go:63-72 | the threshold is between half and seven eighths of the ring and grows with the speed |
| PlaybackClock.RealModeReadsOn | pkg/av_reader.go:112-117 | over every run in Real mode with a key frame in sight, the latest one is played first and frame after frame from there, until a newer one comes into sight |
| PlaybackClock.RealModeJumps | pkg/av_reader.go:152-159 | the first call that sees a newer key frame plays the latest, 10 ms of playback time after the frame in front, or fails exactly if that was discarded |
| PlaybackClock.Play | pkg/av_reader.go:84-203 | over every run of a fresh reader each call plays the specified frame, and the run ends early only at a call whose frame is beyond the log or discarded; the clock after each call shows the exact playback time, which begins at StartTs and goes with the timestamps but by 10 ms across the jump; it is at least 1 and never decreases |
| PlaybackClock.PlayNext | pkg/av_reader.go:84-203 | one call of such a run |
| RecordAdmission.RecStepKeeps | plugin.go:930-1058 | every step of caller, job, watcher and publisher keeps the stop and slot invariants of a recording |
| RecordAdmission.NoOrphan | plugin.go:1019-1058 | in every interleaving, once registration, OnStart and the publisher's stop and sweep are over, some party has stopped the started job |
| RecordAdmission.SlotsConserved | plugin.go:930-974 | free slots and holders always add up to the capacity, and no recording frees its slot twice |
| RecordAdmission.SlotComesBack | plugin.go:938-960 | when a recording is over, on whatever path, its slot was freed exactly once |
| RecordAdmission.SlotKeptUnderLiveJob | plugin.go:941-959 | while the job of an admitted recording can be live, its slot is held if and only if neither the caller saw the job stopped nor the watcher was rejected |
| RecordAdmission.MoreJobsThanSlots | plugin.go:951-959 | with any capacity but 0 a world is reached in which any given number of admitted jobs run |
| RecordAdmission.NotAdmittedNeverStarts | plugin.go:961-973 | queued, refused and unanswered recordings never get a job here |
| RecordAdmission.JobExactlyIfAdmitted | plugin.go:930-974 | once its caller is done a recording has a job exactly if there is no gate or the gate admitted it, and has taken a slot exactly if it was admitted with a release function |
| RecordAdmission.RejectionReported | plugin.go:897-926 | AddTaskRejected never misses a synchronous rejection, whatever happens between its reads, and its only other report is of an accepted task that is gone and whose parent has stopped |
| RecordAdmission.RunInv | plugin.go:930-1058 | the invariant holds in every state of every run |
| PublisherState.Publisher.constructor | publisher.go:98-119 | a new publisher has no subscribers, counts or counters |
| PublisherState.Publisher.AddSubscriber | publisher.go:276-308 | the whole new state of publisher and subscriber; the channel is closed only for a first publisher |
| PublisherState.Publisher.RemoveSubscriber | publisher.go:236-274 | the whole new state, with the buffer time found by the loop over the counted ones |
| PublisherState.Publisher.KeepOnly | publisher.go:621-631 | the end of a transfer, as the whole new state |
| PublisherState.AddKeeps | publisher.go:289-303 | adding keeps the buffer counts (those attached and those moved away), before any transfer a sufficient buffer time, exact counters and the meaning of waiting |
| PublisherState.RemoveKeeps | publisher.go:236-274 | so does removing a member |
| PublisherState.RemoveRecomputes | publisher.go:238-259 | after a removal the counts are those of the attached and the moved-away subscribers, and the buffer time is the maximum over both and the default, or the default when nobody is left; it suffices for everybody left |
| PublisherState.RemoveRecomputesMax | publisher.go:238-259 | before any transfer the counts are exact, and the buffer time is the maximum of the default and the remaining subscribers' |
| PublisherState.TransferCounts | publisher.go:611-632 | a transfer keeps exact counts exact if and only if it moves nobody |
| PublisherState.RemoveWaits | publisher.go:262-269 | a watched publisher starts waiting exactly when its last server-type and vod subscriber has left |
| PublisherState.TransferOutKeeps | publisher.go:611-631 | a transfer keeps the invariants and never leaves the publisher in the watched state |
| PublisherState.TransferTakes | publisher.go:611-632 | a transfer takes exactly the server-type subscribers and leaves the publisher waiting, unless nobody has watched it yet |
| PublisherState.KeptInUse | publisher.go:174-215 | a paused publisher never ends by itself, nor a watched one whose tracks deliver |
| PublisherState.EndsByItself | publisher.go:174-215 | when any other ends by itself, for each of the three reasons |
| PublisherState.TransferBuffer | publisher.go:621-623 | after a transfer the buffer time suffices if and only if no remaining subscriber asks for more than the default |
| PublisherState.TransferShortensBuffer | publisher.go:621-623 | an input where it does not suffice |
| PublisherState.JoinedMore | publisher.go:289-303 | joining one more raises set, state and buffer time by just that subscriber |
| PublisherState.WatchedCloseExactly | publisher.go:174-194 | the delay-close exit can fire while a server-type or vod subscriber is attached if and only if delayed closing is configured and the publisher waits with one attached |
| PublisherState.RemoveWatchedWait | publisher.go:236-274 | a removal never begins such a wait, and ends it exactly with the last vod subscriber |
| PublisherState.TransferWatchedWait | publisher.go:611-632 | a transfer leaves such a wait behind if and only if a vod subscriber is attached when it runs |
| PublisherRuns.RunInv | publisher.go:236-309 | over every run of additions, removals and transfers: exact counters, buffer counts of those attached or moved away, and waiting only without a server-type subscriber |
| PublisherRuns.WatchedWaitExactly | publisher.go:611-632 | over every run a publisher waits while watched if and only if a transfer has run with a vod subscriber attached, and since then no newcomer has come and not all vod subscribers have left |
| PublisherRuns.WatchedCloseOverRuns | publisher.go:174-194 | so the delay-close exit can fire under a watcher exactly then, if delayed closing is configured |
| PublisherRuns.VodLeftBehind | publisher.go:611-632 | a run of two events after which it fires under a vod subscriber |
| PublisherRuns.CountsExactly | publisher.go:611-632 | over every run the buffer counts are exact if and only if no transfer has moved anybody |
| PublisherState.DelayCloseOnlyUnwatched | publisher.go:174-194 | the delay-close exit never fires while a server-type subscriber is attached, nor a vod one unless a transfer has run |
| StreamHub.WokenKeeps | wait_stream.go:34-39 | waking a path's waiters up keeps the partition and all publisher invariants |
| StreamHub.TransferredKeeps | publisher.go:611-632 | so does a transfer between any two publishers |
| StreamHub.AttachKeeps | publisher.go:276-308 | so does attaching a new subscriber |
| StreamHub.EnlistKeeps | wait_stream.go:16-32 | so does queueing one on its own path |
| StreamHub.DepartKeeps | subscriber.go:132-141 | so does the end of a subscriber, which leaves no trace of it anywhere |
| StreamHub.UnpublishedKeeps | alias.go:228-258 | so does the end of a publisher |
| StreamHub.OpenedKeeps | publisher.go:152-172 | so does registering a new publisher |
| StreamHub.PublishedKeeps | publisher.go:152-172 | so does the whole start of a publisher |
| StreamHub.BindUnbound | alias.go:218-220 | binding an unbound alias moves exactly its waiters |
| StreamHub.BindLent | alias.go:221-224 | rebinding an alias served by another stream moves exactly that stream's server-type subscribers |
| StreamHub.PublishedInSteps | publisher.go:168-169 | waking the path and then binding the aliases one by one, in any order, amounts to one simultaneous move |
| StreamHub.PublishedGets | publisher.go:152-172 | a new publisher gets exactly those who wait for its path or for an unbound alias of it, and the server-type subscribers of other streams that serve such an alias; everybody else stays where they are |
| StreamHub.UnpublishedLeaves | alias.go:243-257 | each subscriber of an ended publisher is back at the stream its alias had replaced, or waits for its own path |
| StreamHub.ExactlyOnePlace | subscriber.go:105-141 | a live subscriber is in exactly one waiting list or publisher, and its channel was closed at most once |
| StreamHub.DelayCloseExactly | publisher.go:190-193 | in every reachable state that exit can end a publisher under a live server-type or vod subscriber exactly if delayed closing is configured and the publisher waits with one attached |
| StreamHub.DelayCloseConcernsNobody | publisher.go:190-193 | in every reachable state the delay-close exit of a publisher concerns no attached server-type subscriber, nor a vod one unless a transfer has run |
| StreamHub.StandInOutlived | alias.go:231-242 | a server that satisfies the invariant where an alias outlives its stand-in |
| StreamHub.UnpublishNamesLive | alias.go:231-242 | after the end of a publisher an alias names a dead one exactly if that publisher had served it as a stand-in, and then sends new subscribers there |
| HubRuns.HubNextKeeps | publisher.go:152-632 | every event of a run keeps the invariant |
| HubRuns.RunInv | subscriber.go:105-141 | over every run of starts, ends, transfers, wake-ups and alias edits: partition, counters, buffer counts and registration |
| HubRuns.OnePlaceOverRuns | subscriber.go:105-141 | in every state of every run a live subscriber is in exactly one waiting list or publisher |
| HubRuns.ClosedWithFirstPublisher | publisher.go:276-287 | over every run a subscriber's channel is closed at the event that gives it its first publisher, and at no other |
| HubLaws.SubscribeHolds | subscriber.go:105-130 | a new subscriber is in the publisher its bound alias names; else, without alias, in the live stream its path is rewritten to; else in the live stream of its own path; else on the waiting list of its path; it is turned away only by a full stream of its own path; nobody else is touched |
| HubLaws.UnsubscribeHolds | subscriber.go:132-141 | a subscriber that ends is taken from its one place and nothing else changes |
| HubLaws.PublishHolds | publisher.go:152-172 | a new publisher gets exactly the subscribers and aliases that are its to claim, with the buffer time the most demanding of them needs; it is turned away only by the maximum of streams |
| HubLaws.UnpublishHolds | publisher.go:587-609 | an ended publisher is disposed of and empty; where each of its subscribers goes, which of its aliases lose their publisher and which go |
| HubLaws.TransferHolds | publisher.go:611-632 | a transfer moves exactly the server-type subscribers |
| HubLaws.WakeHolds | wait_stream.go:34-47 | waking a path hands over exactly those who wait for it |
| HubLaws.LawHolds | publisher.go:152-632 | every event obeys its law, alias edits and events that do not fit the state included |
| HubLaws.LawOverRuns | subscriber.go:105-141 | so does every event of every run |
| StreamServer.Server.constructor | wait_stream.go:11-14 | the empty server satisfies the invariant |
| StreamServer.Server.AddSubscriber | publisher.go:276-308 | one publisher and one subscriber change, and nothing else |
| StreamServer.Server.RemoveSubscriber | publisher.go:236-274 | one publisher changes, and nothing else |
| StreamServer.Server.Wait | wait_stream.go:16-32 | the subscriber is added to the list of its own path and its waiting clock runs |
| StreamServer.Server.Leave | wait_stream.go:59-63 | the subscriber is taken from the list of its own path |
| StreamServer.Server.WakeUp | wait_stream.go:34-47 | the loop hands exactly the waiters of the path to the publisher and empties the list |
| StreamServer.Server.TransferSubscribers | publisher.go:611-632 | the loop hands exactly the server-type subscribers over; source and target end as specified |
| StreamServer.Server.ProcessAliasOnStart | alias.go:260-313 | a subscriber is rerouted exactly when its alias is bound or its new alias has a live target, and a pattern adds the alias |
| StreamServer.Server.SubscriberStart | subscriber.go:105-130 | a new subscriber lands where aliases and streams send it, as HubLaws.SubscribeHolds says; it is refused exactly by a full stream of its own path |
| StreamServer.Server.SubscriberDispose | subscriber.go:132-141 | the subscriber leaves its one place, and the invariant is kept |
| StreamServer.Server.BindAlias | alias.go:214-225 | one round of the alias loop, in all four branches |
| StreamServer.Server.BindAliases | alias.go:212-226 | the loop over all aliases, as one simultaneous move |
| StreamServer.Server.PublisherStart | publisher.go:152-172 | the whole effect of a publisher's start; refused exactly at the maximum of streams |
| StreamServer.Server.UnbindAliases | alias.go:230-242 | the first loop of the end of a publisher: which aliases lose their publisher, are related, or go |
| StreamServer.Server.Evict | alias.go:243-255 | the second loop: everyone goes to the specified destination |
| StreamServer.Server.EvictOne | alias.go:245-254 | one round of that loop |
| StreamServer.Server.PublisherDispose | publisher.go:587-609 | the whole effect of the end of a publisher, keeping the invariant |
| StreamServer.Server.NameAlias | alias.go:106-182 | writing an alias entry keeps the invariant |
| StreamServer.Handle | publisher.go:152-309 | the effect of each event on the whole server, as HubRuns specifies it, and what it means for everybody, as HubLaws says; nothing at all when the event does not fit the state |
| StreamServer.StandInEnds | alias.go:228-242 | three events after which an alias sends new subscribers to a publisher that is gone |
| StreamServer.Run | subscriber.go:105-141 | a run of the server passes through exactly the states that its events specify, from the empty server on; each event obeys its law, and partition and counters hold in each state |
| UploadQueue.NextRetryDelayGrows | upload_task.go:52-64 | the delays grow with the retry count, strictly up to the fifth, from one minute to one day |
| UploadQueue.NextSelection | upload_task.go:121-212 | from when on a task can be selected after each step that writes its row: a new one after a minute, a reset or reclaimed one at once, a failed one after the backoff while it has retries, a missing, claimed or successful one never |
| UploadQueue.ExclusiveExact | upload_task.go:156-164 | a step of any worker, tick, operator or crash ends exclusion if and only if it is a successful claim on top of an attempt in flight |
| UploadQueue.ExclusionExactly | upload_retry.go:119-214 | a run is free of concurrent attempts at a task if and only if it makes no such claim |
| UploadQueue.CoveredStep | upload_task.go:156-212 | every step but a missing-file write during an attempt keeps the rows true to the attempts, reclaims included |
| UploadQueue.MutualExclusion | upload_task.go:156-212 | over every run, however stale the snapshots, at most one attempt of a task is between claim and final write, as long as no missing-file write hits the task during an attempt |
| UploadQueue.MutualExclusionExactly | upload_retry.go:140-151 | over every run a task has at most one attempt at a time and a row true to it if and only if no missing-file write hits it during an attempt |
| UploadQueue.MutualExclusionByStatus | upload_retry.go:140-151 | in particular as long as no such write hits a row that is uploading |
| UploadQueue.MarkMissingExact | upload_retry.go:140-151 | the condition of MutualExclusion is exact for the step: the write keeps the row true to the attempts if and only if none is in flight |
| UploadQueue.SecondClaim | upload_retry.go:140-156 | when one is in flight, any worker that had seen the file claims the task a second time |
| UploadQueue.HarmlessStep | upload_retry.go:119-214 | a task that can do no harm to a file at its path stays so while the file is there and nobody resets it |
| UploadQueue.KeptStep | upload_task.go:167-175 | every step of such runs keeps the file of an unfinished task, against older tasks of the same path too |
| UploadQueue.PlacedStep | upload_recover.go:54-70 | so it does with media whose row has not been written yet |
| UploadQueue.KeptInsert | upload_recover.go:68-70 | the row that recovery writes takes over that file, with its safety from older tasks |
| UploadQueue.MediaInvHolds | upload_task.go:167-175 | in runs without a vanished file, with pending names used again only over harmless tasks, the file is there and no worker has seen it missing until an attempt goes on to record the success, whether or not that write is lost |
| UploadQueue.MediaConserved | upload_retry.go:182-213 | in such runs, with older workers at work between the move of the media and the writing of its row, media on its way is in place, and every task's file is in place or an upload of it has completed |
| UploadQueue.ExclusiveUntilFinished | upload_retry.go:119-214 | in such runs exclusion holds without condition until the task's first success is about to be recorded |
| UploadReuse.KeptNeverLost | pkg/storage/upload_manager.go:169-176 | with harmless older tasks no run of the queue loses new media at a used name before it is uploaded |
| UploadReuse.HarmfulLoses | upload_retry.go:139-213 | with one that is not harmless some run does |
| UploadReuse.ReuseSafeExactly | pkg/storage/upload_manager.go:169-176 | media at a used pending name is safe in every run of the queue if and only if all older tasks of that path are harmless |
| UploadRetries.RetryBound | upload_task.go:178-192 | in every reachable state a retry count is at most the maximum plus one |
| UploadRetries.RetriesSpent | upload_task.go:121-130 | with fresh snapshots and no reset at most the maximum of attempts fail, retries count failed attempts only, and a task marked as lost is never selected again |
| UploadRetries.ComesBackExactly | upload_task.go:178-192 | a row out of retries can be selected again after a step if and only if that was a reset or a failed attempt whose snapshot had fewer than max - 1 retries |
| UploadRetries.BackoffRespected | upload_task.go:178-192 | with fresh snapshots a task is selected again no earlier after a failed attempt than the backoff for its number of failures |
| UploadStale.ExclusionFails | upload_retry.go:140-156 | a run with two attempts in flight, without crash, reset or lost file |
| UploadStale.StaleSnapshotRewinds | upload_task.go:178-192 | with a stale snapshot a task marked as lost comes back below its maximum |
| UploadStale.ReusedNameAtRisk | pkg/storage/upload_manager.go:169-176 | a reachable state in which a used pending name puts the new media at risk |
| UploadRecovery.Disk.MoveLocalFile | pkg/storage/upload_manager.go:139-155 | when a move succeeds and what it leaves in every case, failed clean-ups included; in every state on the way the media is at source or target |
| UploadRecovery.Disk.CopyAndDelete | pkg/storage/upload_manager.go:148-154 | the fallback of a move, state by state |
| UploadRecovery.MoveExactly | pkg/storage/upload_manager.go:139-155 | when a move succeeds, that it has then changed the path of the media and nothing else, and that a failed one touches at most the target |
| UploadRecovery.Disk.MoveToPendingDir | pkg/storage/upload_manager.go:159-182 | the files after the move for every combination of faults, a failing look at the pending name included; the media is at its original or its pending path at all times |
| UploadRecovery.PutMedia | pkg/storage/upload_manager.go:159-182 | the media reaches its pending path or stays, and no file at a third path changes |
| UploadRecovery.PlaceExactly | upload_recover.go:45-67 | where the media ends up and is registered: under its pending name, under the other one if that is seen to be taken, or, when the move is impossible, in place |
| UploadRecovery.OverwritesExactly | pkg/storage/upload_manager.go:171-178 | the move leaves every other file alone if and only if it does not meet a taken name that it fails to look at |
| UploadRecovery.PendingRecordingDestroyed | pkg/storage/upload_manager.go:173-178 | an input where another recording is destroyed |
| UploadRecovery.Disk.RestoreMedia | upload_recover.go:118-128 | an occupied original path is left alone; otherwise the media is at one of the two paths at all times and nothing else is touched |
| UploadRecovery.Database.SaveFailedUpload | upload_task.go:83-118 | what is written, and what is reported, for each outcome of the insert |
| UploadRecovery.Database.RegisterFailedUpload | upload_recover.go:91-112 | success exactly if the insert reports no error, the count works and a matching row is in the table afterwards; a row written without an error is there, and confirmed whenever the count works |
| UploadRecovery.ConfirmedExactly | upload_recover.go:138-151 | the same of the confirmation as a value |
| UploadRecovery.ConfirmedRow | upload_recover.go:138-151 | a confirmed registration is one the queue will retry exactly if the insert took effect or an older match had failed |
| UploadRecovery.ConfirmedWithoutFailedRow | upload_recover.go:138-151 | a confirmed registration without such a row |
| UploadRecovery.RegisterOrRestore | upload_recover.go:68-84 | after the move: registered, or the media is put back whenever the way back works |
| UploadRecovery.RecoverFailedUpload | upload_recover.go:35-85 | for every combination of faults: success exactly if the registration is confirmed for the place where the media is, so always without database faults; a path means the media is there with a matching row, an error means it is still on disk, at every moment it is at its original or pending path and nothing at a third path is touched; no other file is lost or changed if and only if the pending name is not overwritten |
| ResidentPull.PullJob.PublisherDisposed | puller.go:262-269 | the disposal hook ends the job or restarts the puller |
| ResidentPull.PullTimes | pull_proxy.go:202-211 | the publish settings of a pull that stops on idle and of a resident one |
| ResidentPull.EndOfFirst | publisher.go:174-215 | a publisher ends with the first wake-up that Go returns from, the end of its task included |
| ResidentPull.JobEndsExactly | puller.go:243-269 | successive publishers end the job exactly if one of them ends idle, unwatched, through the user or without retries, all before it having ended otherwise; that one's reason is the job's |
| ResidentPull.ResidentNeverIdle | pull_proxy.go:202-211 | a resident publisher never ends for being idle or unwatched |
| ResidentPull.ResidentPullSurvives | puller.go:243-269 | over every run of publishers a resident pull with retries is ended by them only through a user stop; all other ends restart the puller, one for one |
| ResidentPull.PublisherEndsJobExactly | puller.go:243-248 | publishers can end the job without the user if and only if it stops on idle or has no retries |
| ResidentPull.BasePullProxy.ChangeStatus | pull_proxy.go:125-145 | the new status, and the one transition that pulls by itself |
| ResidentPull.BasePullProxy.Pull | pull_proxy.go:219-227 | up to acceptance: the job runs, without its hook yet, and the mark of refused credentials is cleared; a second job is refused |
| ResidentPull.BasePullProxy.HangHook | pull_proxy.go:228-233 | the rest: the pull counts as started, and the hook hangs on the job or comes too late |
| ResidentPull.BasePullProxy.JobDisposed | pull_proxy.go:233-241 | the end of the job, which the proxy learns of only through the hook, and the mark of refused credentials |
| ResidentPull.BasePullProxy.PublisherStarted | pull_proxy.go:288-308 | a publisher's start changes the status only of a reachable proxy, and never pulls |
| ResidentPull.BasePullProxy.PublisherEnded | pull_proxy.go:310-317 | a publisher's end puts a pulling proxy online, without a pull |
| ResidentPull.PullStartedExactly | pull_proxy.go:219-241 | over every run pullStarted is true if and only if a job with its hook runs or a hook came too late and no job with a hook has ended since |
| ResidentPull.PullStartedIsRunning | pull_proxy.go:219-241 | if no job ends between acceptance and hook, exactly while a job with its hook runs |
| ResidentPull.EarlyEndStrandsProxy | pull_proxy.go:223-233 | a run without that, after which only a person starts a pull again |
| ResidentPull.NoPullOnTop | pull_proxy.go:133-143 | over every run no job is accepted on top of another, and a proxy does not even try while its job has the hook |
| ResidentPull.AuthFailureStops | pull_proxy.go:136-141 | after refused credentials only a person pulls again |
| ResidentPull.RunningJobIsKept | plugin.go:857-873 | until its job ends no status change, publisher or person starts another |
| ResidentPull.PullsExactly | pull_proxy.go:125-145 | a job is accepted exactly if a person pulls or the proxy first goes online with nothing against it, the server accepts and no other job runs; and the status after every event |
| ResidentPull.AuthFailedExactly | pull_proxy.go:219-241 | over every run the mark of refused credentials is set exactly if a job with its hook has ended over them, that stops retries, and the proxy has not tried since |
| RouteWait.DecideAPIRouteWaitAction | grpc_api_route_wait.go:89-100 | local first, then a peer, and not found only for an empty answer after the deadline |
| RouteWait.TightenedMeans | grpc_api_route_wait.go:105-118 | the polling interval is the one asked for or the default, never longer than the window |
| RouteWait.WaitAPIRouteStream | grpc_api_route_wait.go:105-134 | at most ceil(timeout / interval) + 1 probes with the tightened interval; the answer is that of the last probe; not found exactly for no window, cancellation or an empty answer after the deadline |
| StorageReconnect.StorageReconnectBackoff | storage_reconnect.go:110-122 | the doubling loop is min(5 s * 2^(attempt - 1), 5 min) |
| StorageReconnect.BackoffMonotone | storage_reconnect.go:110-122 | the delay never shrinks with the attempt, between 5 s and 5 min |
| StorageReconnect.BackoffDoubles | storage_reconnect.go:110-122 | the delay doubles from attempt to attempt until it meets the maximum |
| StorageReconnect.StorageReconnectTask.constructor | storage_reconnect.go:36-45 | the first attempt is due one backoff after the start |
| StorageReconnect.StorageReconnectTask.Tick | storage_reconnect.go:54-74 | one tick: nothing before the deadline or after completion, otherwise the outcome of the attempt |
| StorageReconnect.StorageReconnectTask.HandleFailure | storage_reconnect.go:76-93 | a permanent failure completes the task, any other plans the next attempt |
| StorageReconnect.NothingAfterCompletion | storage_reconnect.go:55-57 | nothing is tried or changed after completion |
| StorageReconnect.Schedule | storage_reconnect.go:54-93 | over every run attempts n and n + 1 are at least backoff(n + 1) apart, and all but the last failed transiently |
| StorageReconnect.ScheduleFromStart | storage_reconnect.go:36-93 | the first attempt comes no earlier than five seconds after the start, the second ten seconds after it, and so on; before the first nothing has changed |
| StorageReconnect.Prompt | storage_reconnect.go:47-61 | with regular polling they are less than that plus one poll apart |
| StorageReconnect.SnapshotKept | storage_reconnect.go:69-93 | failures keep the active backend, its type and the fallback flag and leave the status degraded with their time and error; a success installs the connected backend with a clean status; success and permanent failure complete the task, and ticks that try nothing change nothing |

## Left out

- UploadQueue.MutualExclusion: exclusion without its condition is false of the code; the condition, its exactness and a counterexample are given.
- UploadQueue.MediaConserved: a file that vanishes by itself, one that recovery moves back although its row was written, and the reset of an old task whose path another one has taken, are excluded.
- RecordAdmission.RejectionReported: the scan of the sub-tasks is one read, and the reported reason is not modelled.
- AnnexBReader.Drive: reads without the output that keeps start codes; ReadNALU covers both outputs.
- StreamServer.Server.NameAlias: the transfers and wake-ups of the alias API are separate events of a run.
- UploadRecovery.RecoverFailedUpload: runs alone; another recording that takes the same paths meanwhile is not modelled.
- StreamServer.Server.WakeUp: does not register the clean-up of the emptied list (wait_stream.go:40-44); an empty list here stays.
- ResidentPull.BasePullProxy.Pull: the disposal of the proxy itself, which ends its job, is not modelled.
- AnnexBReader.AnnexBReader.ReadNALU: the two output memories must be different objects, and the bytes carried by the invalid-data error are not modelled.
- PlaybackMerge.SubscribeHandler.Run: SyncMode 1, key-frame-only and high-speed playback, missing readers, publisher changes and the sequence frames sent on codec changes are not modelled.
- PlaybackClock.AVRingReader.StartReading: the sleeps (buffer mode, pacing of the first group of pictures) are not modelled; what the buffer search finds is arbitrary.
- StreamServer.Run: collections are sets, so the order in which their members are visited is arbitrary; publishers are named by id.
- Publisher takeover by a second publisher of the same path (publisher.go:634-655), which re-points subscribers without adding them.
- Switching a subscriber to another stream through the API, and the single subscriber that removing an alias may send back to its waiting list (alias.go:192-199).
- The publisher state for an added track, which no code sets; pausing and resuming; tracks, rings, codecs and memory internals.
- Timers of publishers: `Publisher.Go` is modelled by the events that wake it up.
- The ordering and the limit of twenty of the query for pending uploads: any selectable row may be returned, alone.
- Alarms, webhooks, logging, progress steps, metrics, persistence of aliases, and on-demand pulls triggered by subscribers.
- The rest of the server (HTTP and gRPC handlers, configuration, transcoding, pushing, plugins): flat branching and wiring.
