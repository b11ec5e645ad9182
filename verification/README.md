# Verification of the zwfm-encoder

This project models the parts of the encoder that must stay right when something fails halfway, and
proves what they promise with Dafny 4.11. `dafny verify dfyconfig.toml` checks everything.

- **Recordings on disk** (`Directory.dfy`, `Outbox.dfy`): the ticket queue as files that are created,
  appended to, synced and unlinked, with a power cut possible between any two operations. A directory
  is what the process sees and, for each name, the set of images a power cut may leave: an entry that
  was not synced may or may not be there, content that was not synced may be torn. Every state a call
  passes through is recorded with what is promised in it, so a statement about all recorded moments is
  one about a crash at any point. A write, a removal or a start may fail at any operation.
- **Delivery to S3** (`Uploader.dfy`, `Keys.dfy`): one recording with its tickets, its marker, its file
  and the bucket, under lost answers, failed HEADs, failed persists, other writers, crashes and
  restarts. A PUT is conditional (`If-None-Match: *`, section 13.1.2 of RFC 9110).
- **The recorder loop** (`Recorder.dfy`, `RecorderRuns.dfy`): each closure of the loop, each completion
  of a helper, each timer and each call of capture is one method; all keep one invariant, so any
  interleaving does.
- **The file of a segment** (`Output.dfy`, `SilenceFill.dfy`, `Distributor.dfy`): from the reservation to
  its commit, removal or quarantine, with what a power cut leaves of it; the silence that fills an
  outage; the whole frames consumers get. **Delivery times** (`Schedule.dfy`): which recording is due.
- **The jitter buffer** (`Jitter.dfy`), **incident dumps** (`Dump.dfy`, `DumpRuns.dfy`), **reading the
  event log backwards** (`ReverseLines.dfy`), **grouping events** (`EventGroups.dfy`, `ItemKeys.dfy`) and
  **the log writer** (`RollingWriter.dfy`): loops and buffers, proved against a simple specification.
- **Stream claims** (`Streams.dfy`), **the encoder lifecycle** (`EncoderStates.dfy`,
  `EncoderLifecycle.dfy`), **detector hysteresis** (`Debouncer.dfy`) and **storage monitoring**
  (`Storage.dfy`): protocols and hysteresis.

A class holds the state a source object holds and its methods are the source's; where a component has
many fields they are one record value in one field, updated step by step. Functions on that value say
what a step does, lemmas say what it keeps.

## Findings

The code does not always keep what it is for. Each case has its exact condition and a run or an input
that shows it.

- Removing a ticket right after a write whose directory sync failed can bring back an older generation
  (`Directory.RemovalIsSafeIff`, `Outbox.RemovalCanBringBackAnOlderGeneration`).
- For a delivered S3-only recording that older generation can carry a key another writer has: a start
  then finds a ready recording without a file whose key is not its own, and the worker retries it turn
  after turn although its object is in S3 (`Uploader.RemovalKeepsKeyIff`, `Uploader.StartKeepsKeyIff`,
  `Uploader.FailedSaveStrandsARecording`, the last clauses of `Uploader.Delivery.Process`). That at most
  one object is made, that nothing is overwritten and that a file goes only after its delivery hold in
  every run (`Uploader.RunsAreSafe`).
- A start prefers a generation whose content was never synced and prunes its durable predecessor
  (`Directory.PruningIsSafeIff`, `Outbox.LoadingUnsyncedContentCanLoseATicket`).
- `SetError` marks whatever entry is current. A monitor that is late can so revive a stream that is
  being stopped (`Streams.MarkIsSafeIff`, `Streams.LateMarkRevivesCaller`,
  `Streams.LateMarkRevivesListener`); a listener that gives up can overwrite a stop in progress
  (`Streams.GiveUpIsSafeIff`, `Streams.LateGiveUpIsStoppedTwice`).
- A dump that is finished more than 35 s after the end of its incident silently contains later audio
  (`Dump.MadeIsWanted`); one capture at a time with the usual chunk sizes rules it out
  (`DumpRuns.ReplayOneAtATime`), two that recover at once do not, because one write finishes at most
  one (`DumpRuns.TwoAtOnceSpoilADump`).
- A log file torn by a failed write whose size cannot be read keeps its torn end, and the next record
  is glued to it (`RollingWriter.Writer.Write`, `RollingWriter.UnreadableSizeGluesRecords`).

## Model

| member | source | states |
|---|---|---|
| Directory.GuardedIsCrashSafe | internal/recording/outbox.go:140-200 | a structural condition on the directory (something is certain to survive unless the ticket may be gone, and every survivor that is not promised lies below something certain) holds if and only if every image a power cut can leave makes a start load a promised generation, or nothing where that is allowed |
| Directory.PowerCutKeepsGuarded | internal/recording/outbox.go:140-200 | whatever image a power cut leaves, what is promised about a ticket stays guarded in it, so power cuts can follow one another |
| Directory.ChangeKeepsGuarded | internal/recording/outbox.go:541-553 | a change to one file that is not certain to survive, and whose new readable content is promised, keeps every promise |
| Directory.SyncKeepsGuarded | internal/recording/outbox.go:416-428 | syncing the directory keeps every promise |
| Directory.RemovalIsSafeIff | internal/recording/outbox.go:337-381 | removing every generation but the newest is crash-safe at the end if and only if the directory was Removable: every survivor that is not promised lies below the newest generation, and that one is certain |
| Directory.RemovableSteps | internal/recording/outbox.go:337-381 | Removable survives each unlink of an older generation, in any order, and each directory sync |
| Directory.PruningIsSafeIff | internal/recording/outbox.go:140-175 | a start that prunes to the newest readable generation keeps a certain ticket certain if and only if the content of that generation was synced |
| Directory.LoadedIsPromised | internal/recording/outbox.go:185-200 | the newest readable generation of a guarded directory is one of those promised, also without a power cut |
| Directory.CertainIsSynced | internal/recording/outbox.go:140-175 | a generation that alone is promised has synced content, so a start that loads it is certain of it |
| Outbox.KeptIsCrashSafe | internal/recording/outbox.go:402-435 | a moment is kept if and only if a power cut at that moment leaves every ticket as promised |
| Outbox.PowerCutKeepsMoment | internal/recording/outbox.go:101-136 | a directory left by a power cut at a kept moment is a kept moment of the next process |
| Outbox.PruningMayBegin | internal/recording/outbox.go:140-175 | what a start reads from a settled directory was promised, and from then on that generation alone is promised if its content is durable |
| Outbox.RemovalMayBegin | internal/recording/outbox.go:337-381 | once removal begins the promise is the old one or nothing, widened by what is not yet erased only if the newest generation is not durable |
| Outbox.Outbox.AfterPowerCut | internal/recording/outbox.go:101-136 | a process started on any image a power cut can leave at a kept moment begins in a valid state with the same promises |
| Outbox.Outbox.AfterKill | internal/recording/outbox.go:101-136 | a process started after another was killed at a kept moment begins in a valid state with the same promises |
| Outbox.Outbox.WriteSynced | internal/recording/outbox.go:541-553 | the file is created exclusively; on success it is there with durable content, on failure nothing changed but that the incomplete file may have stayed; it fails only through a fault |
| Outbox.Outbox.AddGeneration | internal/recording/outbox.go:402-415 | generations that exist, as failed writes leave them, are skipped; the generation written is newer than any on disk, and nothing else about any ticket changes |
| Outbox.Outbox.Confirm | internal/recording/outbox.go:416-434 | once the directory sync succeeds the generation is the only one promised and may be removed behind, when it fails nothing is promised anew |
| Outbox.Outbox.Supersede | internal/recording/outbox.go:420-434 | the durable generation becomes the only one promised, and the one before it is unlinked |
| Outbox.Outbox.Write | internal/recording/outbox.go:402-435 | at every moment of the call a power cut leaves what is promised; a write that returns success makes its generation the only one a start may load, a failed one adds its generation to those; without faults it succeeds and removes the previous generation |
| Outbox.Outbox.RemoveFiles | internal/recording/outbox.go:337-381 | at every moment of a removal a power cut leaves a promised generation or nothing; on success nothing of the ticket is left; after a failure what is promised is either unchanged or exactly what AfterRemoval says: the promise of before or nothing, widened by the generations not erased yet only if the newest is not durable |
| Outbox.Outbox.NewestGeneration | internal/recording/outbox.go:185-200 | the newest readable generation, or none exactly if there is none; a failed read is reported and makes the answer void |
| Outbox.Outbox.LoadTicket | internal/recording/outbox.go:140-175 | loads the newest readable generation, which was promised and stays, and keeps only that one; a ticket that is not loaded is left alone, its files and its promise as they were, unless no generation of it is readable; without faults every readable one is loaded |
| Outbox.Outbox.LoadAll | internal/recording/outbox.go:140-175 | every ticket with a readable generation is loaded unless a fault interferes, each loaded one was promised, and one that is not loaded keeps its files and its promise |
| Outbox.Outbox.Open | internal/recording/outbox.go:101-136 | a start on whatever a crash left loads only promised generations, and makes each the only one promised when its content was durable; a ticket with a readable generation that is not loaded is as it was when the directory was settled; when the directory cannot be settled nothing changes; without faults it loads all |
| Outbox.Outbox.Update | internal/recording/outbox.go:298-304 | a change is published in memory only once it is durable |
| Outbox.Outbox.Delete | internal/recording/outbox.go:324-335 | a ticket leaves memory only once nothing of it is left on disk |
| Outbox.RemovalCanBringBackAnOlderGeneration | internal/recording/outbox.go:365-381 | removal right after a write whose directory sync failed can let a power cut bring back a generation older than one reported durable: the case Removable shuts out |
| Outbox.LoadingUnsyncedContentCanLoseATicket | internal/recording/outbox.go:541-553 | a generation whose content was never synced, and was not cleaned up, is preferred by the next start and can then be lost with its durable predecessor: the case the content condition shuts out |
| Keys.NextFollowsNumbered | internal/recording/uploader.go:313-321 | counting on from the key with number n gives n + 1, for every base key and every n below the largest 64-bit number: the suffix parser inverts the suffix writer |
| Keys.NumberedIsInjective | internal/recording/recorder.go:309-312 | differently numbered names of one base differ |
| Keys.AtoiOfItoa | internal/recording/uploader.go:313-321 | a decimal number that fits 64 bits reads back as itself, a larger one does not read |
| Keys.NextRecordingFilename | internal/recording/recorder.go:300-306 | the first of name, name-2, name-3, ... that is not taken, found after finitely many tries when finitely many are taken |
| Uploader.StepKeepsSafe | internal/recording/uploader.go:143-309 | every atomic step of an upload, of a persisted change, of a failed removal, of other writers, of a crash or of a start keeps Safe: at most one object carries the upload id, with the recording as content; whatever a start may load is a generation of this recording, under a key it reached past taken ones, and if delivered its object is there; a removed S3-only file has its object; a condemned recording is marked or failed wherever a start goes on |
| Uploader.AtMostOneObject | internal/recording/uploader.go:240-309 | in a safe state no two keys name an object of this recording, and the one that does has its content |
| Uploader.RunsAreSafe | internal/recording/uploader.go:143-309 | after any run of such steps the state is safe, no object was replaced or removed, key numbers never went back, and a condemned recording was not sent again although a send is guarded by the marker alone |
| Uploader.StepIsAlignedIff | internal/recording/uploader.go:143-309 | from a state in which the object is or goes where every loadable generation looks, a step keeps that if and only if it is careful: a removal begins with the newest file certain or without an older generation that would go on under another key, and a start loads synced content or leaves no such generation |
| Uploader.CarefulRunsAreAligned | internal/recording/uploader.go:143-309 | after any run of careful steps the object is under the key of everything a start may load, so a start finds it |
| Uploader.RemovalKeepsKeyIff | internal/recording/uploader.go:184-202 | a removal that fails after the delivery leaves the object under every key a start may load if and only if the write before it was durable, or no generation not erased yet carries another key |
| Uploader.StartKeepsKeyIff | internal/recording/outbox.go:140-175 | a start on a delivered recording does if and only if what it loads was synced, or no generation left carries another key |
| Uploader.FailedSaveStrandsARecording | internal/recording/uploader.go:151-174 | from any reservation of an S3-only recording there is a run (the key is taken by another writer, the next one is sent, the save of the delivery and the removal after it fail) to a ready recording without a file under a key that is another writer's, while its object is under the next key |
| Uploader.Delivery.Put | internal/recording/uploader.go:240-275 | a conditional PUT takes effect at once or not at all, whatever its answer; a positive answer means the recording is in S3 |
| Uploader.Delivery.Head | internal/recording/uploader.go:276-300 | an answer tells whose object the key names; without faults there is one exactly if the key names an object |
| Uploader.Delivery.Persist | internal/recording/uploader.go:207-212 | a persisted change is what a start loads; a failed one may or may not be, and leaves the newest file uncertain if anything was written |
| Uploader.Delivery.NextKey | internal/recording/uploader.go:285-309 | the ticket moves to the next number only past a key that names another writer's object, and the new key is durable before anything is sent under it |
| Uploader.Delivery.SendOnce | internal/recording/uploader.go:240-309 | one attempt ends sent, with the key taken by another's object, or given up; without faults it does not give up |
| Uploader.Delivery.Send | internal/recording/uploader.go:240-309 | sends the recording under the current or the next free key; without faults it fails only if ten keys in a row are taken |
| Uploader.Delivery.OpenRecording | internal/recording/uploader.go:324-337 | a recording opens only without a marker, and an unreadable marker check counts as marked |
| Uploader.Delivery.Upload | internal/recording/uploader.go:220-309 | a marked or damaged recording is never sent; success means the object is in S3, also for a missing file |
| Uploader.Delivery.Cleanup | internal/recording/uploader.go:184-202 | the local file goes only in S3-only mode, only after delivery, and before its ticket in every case; a removal that fails may bring older generations back; without faults file and ticket are gone |
| Uploader.RecoveryIsExact | internal/recording/outbox.go:233-272 | for every interrupted ticket and whatever stands at its path: when exactly it goes to S3, fails, counts as lost, is dropped or stays as it is |
| Uploader.Delivery.Save | internal/recording/uploader.go:207-212 | a state that could not be persisted still applies in memory, and nothing else changes |
| Uploader.Delivery.Process | internal/recording/uploader.go:143-174 | one turn of the worker: a ticket or a local file goes only if its object is in S3, an S3-only ticket only after its file; a failed attempt counts, and without faults the new count is what a start loads, unless the worker was stopped; nothing else counts; a lost recording is one whose file is blank; a marked one is not sent; without faults a delivered ticket is gone, and one that stays ready met ten taken keys; a stranded recording stays stranded |
| Uploader.Delivery.Fail | internal/recording/outbox.go:308-321 | a failed recording is condemned as soon as either its failed generation or its marker is durable; without faults one of them is |
| Uploader.Delivery.Mark | internal/recording/outbox.go:308-321 | the marker is created exclusively, and settled only by the directory sync after it |
| Uploader.Delivery.CutPower | internal/recording/outbox.go:308-321 | a power cut may drop a marker that was not settled, and nothing else |
| Uploader.Delivery.Restart | internal/recording/outbox.go:101-136 | a start goes on from any generation the crash allows, the only one from then on if its content was synced and otherwise one of those left or none, or begins without the ticket only if that may be gone |
| Uploader.Delivery.Recover | internal/recording/outbox.go:217-230 | crash recovery: a marked ticket becomes failed before anything else is decided; delivered and failed ones stay; without faults the state is the one the file at its path calls for |
| Uploader.Delivery.RecoverInterrupted | internal/recording/outbox.go:233-272 | an interrupted recording becomes ready, failed, lost or is dropped by what stands at its path; it is dropped only when nothing is to be kept of it |
| Recorder.Recorder.constructor | internal/recording/recorder.go:63-88 | a new recorder satisfies the loop invariant, stopped, with its stop channel closed |
| Recorder.Recorder.StartRun | internal/recording/recorder_run.go:48-61 | keeps the loop invariant; a refused start changes nothing, an accepted one prepares the first segment behind the clock and counts drops anew |
| Recorder.Recorder.StartHourly | internal/recording/recorder_run.go:65-77 | an enabled, active, hourly recorder that is stopped or failed starts, one that is stopping starts afterwards, any other is left alone |
| Recorder.Recorder.FinishStop | internal/recording/recorder_run.go:113-127 | a stop completes exactly when nothing is being finalized any more: its channel closes, once, and an active, enabled hourly recorder that asked to start again does |
| Recorder.Recorder.Stop | internal/recording/recorder_run.go:82-99 | ends a run: the current segment is retired, timers and pending preparation go, and the channel returned is closed exactly if the recorder is stopped; a stop in progress keeps its channel |
| Recorder.Recorder.Activate | internal/recording/recorder.go:176-184 | keeps the invariant and starts an enabled hourly recorder, also after an error |
| Recorder.Recorder.Deactivate | internal/recording/recorder.go:187-194 | keeps the invariant; the recorder ends, will not restart, and refuses starts |
| Recorder.Recorder.StartOnDemand | internal/recording/recorder.go:197-213 | starts exactly if the recorder is active, enabled, on demand, and stopped or failed |
| Recorder.Recorder.StopOnDemand | internal/recording/recorder.go:217-234 | stops exactly an on-demand recorder that runs or starts, through a new channel |
| Recorder.Recorder.FireTimer | internal/recording/recorder_run.go:332-370 | a timer that was stopped or replaced does nothing; one still in its slot rotates, retries or stops, and keeps the invariant: an hourly run always has a rotation timer or a pending preparation, an hourly failure its retry timer |
| Recorder.Recorder.Prepared | internal/recording/recorder_run.go:239-279 | only the pending preparation counts: what a stale one opened is abandoned and nothing else changes; a failed one ends a run that has no segment yet and leaves a running encoder alone; a successful one hands capture over |
| Recorder.Recorder.PrepareFailed | internal/recording/recorder_run.go:246-262 | the current encoder and its channel stay; an hourly recorder has its next rotation or its retry ahead |
| Recorder.Recorder.Succeed | internal/recording/recorder_run.go:264-279 | make before break: the new segment is current and has the only open channel, the previous one is being finalized, and the output is that of the configuration |
| Recorder.Recorder.Finalized | internal/recording/recorder_run.go:303-316 | a finalization that is reported lets a stop in progress complete when it was the last |
| Recorder.Recorder.WriteFailed | internal/recording/recorder_run.go:320-330 | a broken encoder ends the run with an error only if it is current, and is then finalized; an hourly recorder retries |
| Recorder.Recorder.ApplyConfig | internal/recording/recorder_run.go:165-202 | keeps the invariant for every change of settings and never looks up a missing segment; a running recorder keeps its segment and channel until the next is ready, prepares one exactly if the output it has or plans differs, and its timers follow the mode; disabling stops it |
| Recorder.Recorder.SwitchMode | internal/recording/recorder_run.go:175-187 | a mode change replaces the timers; leaving hourly mode cancels a pending rotation |
| Recorder.Recorder.Replan | internal/recording/recorder_run.go:188-199 | what is pending or, without a pending preparation, what runs has the output of the configuration afterwards |
| Recorder.AdjustmentKeepsRunning | internal/recording/recorder_run.go:165-202 | for every change of settings of a running recorder: same segment and channel, output planned or already right, timers of the new mode, and nothing prepared needlessly |
| Recorder.SameOutputIff | internal/recording/recorder_run.go:204-209 | outputs count as the same if and only if the settings differ at most in being enabled, in the mode and in secrets that are there before and after, and then codec, directory, destination and deletion of a segment are the same |
| Recorder.OnlyFirstWaits | internal/recording/recorder_run.go:213-237 | the first segment of a run waits for the clock, one prepared while another runs does not |
| Recorder.Recorder.PollClock | internal/recording/recorder_segment.go:96-123 | a stale job gives up; one that had to wait takes the settings of that moment, which keeps its output and directory those of the configuration |
| Recorder.Recorder.OpenSegment | internal/recording/recorder_segment.go:127-147 | a segment that was opened is in flight from exactly one job; nothing is started once the loop has ended |
| Recorder.Recorder.WriteAudio | internal/recording/recorder.go:258-280 | a chunk goes to the open channel of the current segment, is counted as dropped exactly when 30 are queued, and is ignored while nothing records; nothing is sent on a closed channel |
| Recorder.Recorder.TakeAudio | internal/recording/recorder_segment.go:352-408 | a writer takes the chunks of its channel in order |
| Recorder.Recorder.Quit | internal/recording/recorder.go:90-106 | the end of the loop releases the waiters of a stop in progress; a deactivated recorder then has no current segment |
| Recorder.SwitchKeepsSent | internal/recording/recorder.go:284-292 | a hand-over loses nothing: the chunks accepted so far are still the concatenation of what was sent to the segments |
| Recorder.SucceededKeepsOwned | internal/recording/recorder_run.go:264-279 | when the pending segment takes over, every segment is still in flight from one job, current, retired or abandoned, and has at most one channel |
| Recorder.EndsOnce | internal/recording/recorder_run.go:213-330 | from step to step becomes over any number of steps: segments are never forgotten and end once (one that was retired or abandoned stays just that), and accepted audio and closed stop channels stay |
| RecorderRuns.Loop | internal/recording/recorder.go:90-106 | whatever sequence of events comes to a new recorder (commands, settings, timers, helpers, writers, capture, the end of the loop), the invariant holds at every moment, an active, enabled hourly recorder records, is about to, waits to retry, or starts again after the stop in progress, what has ended stays as it ended, no accepted audio is forgotten and no stop undone |
| Jitter.DeliversInOrder | internal/dante/media.go:51-127 | for a gap-free run of packets whose first arrives first, any arrival order with duplicates, late and stray packets in between, and every packet on time: the output is the in-order concatenation of the converted payloads up to the first packet still missing, and exactly what arrived beyond it is pending |
| Jitter.DeliversAll | internal/dante/media.go:51-127 | once all packets of the run have arrived the output is the whole run in order and nothing is pending |
| Jitter.AdvanceHolds | internal/dante/media.go:86-127 | with every packet on time an advance plays all that is next and never fills a gap |
| Jitter.AdvancedKeepsTimeline | internal/dante/media.go:86-127 | whatever was received, an advance keeps the output on the timeline, plays and keeps only pending packets, and if it ends without error every pending packet lies past what is expected and arrived less than the gap wait ago |
| Jitter.OutputFollowsTimeline | internal/dante/media.go:86-173 | the output has exactly the frames from the first position to what is expected; each packet played sits at its own position and every other byte is silence |
| Jitter.SamplesFollowTimeline | internal/dante/media.go:86-173 | each sample of each packet played is in the output at its own time, rounded down to 16 bits |
| Jitter.OnlyWideGapsFail | internal/dante/media.go:86-127 | an advance ends with an error only if every pending packet is more than a second ahead and one has waited long enough; otherwise nothing that waited long enough is left |
| Jitter.ParseReadsBack | internal/dante/media.go:71-84 | a datagram parses to its position and payload if and only if it carries whole frames and its offset lies within the second |
| Jitter.FramesIsQuotient | internal/dante/media.go:133-135 | the frames counted one by one are the payload length divided by the frame size |
| Jitter.MediaProcessor.Receive | internal/dante/media.go:51-69 | a packet joins exactly if it is neither passed nor pending; the state afterwards is that of the specification, on the timeline |
| Jitter.MediaProcessor.Advance | internal/dante/media.go:86-127 | refines the specification of an advance, terminates, and leaves the gap deadline at the oldest pending arrival; output is only appended |
| Jitter.MediaProcessor.Wait | internal/dante/media.go:110-117 | a gap is filled exactly if some pending packet has waited for it long enough, and then up to the earliest one |
| Jitter.MediaProcessor.EarliestPending | internal/dante/media.go:137-147 | the least pending position, or none exactly if nothing is pending |
| Jitter.MediaProcessor.Convert | internal/dante/media.go:150-161 | for every frame and channel the 16 output bits, less significant byte first, are the value of the big-endian sample divided by 256 per dropped byte and rounded down, both in two's complement; and the output is nothing else |
| Jitter.MediaProcessor.AppendSilence | internal/dante/media.go:163-173 | writes exactly the missing frames, in batches |
| Streams.StoppedStaysStopped | internal/streaming/manager.go:602-695 | there is one starter at a time but for those a Stop took on, and none replaces what runs; Stop takes an entry on at most once; from then on it never runs again and has no starter while it is current; what no thread is about to stop any more has no live process and no bound port |
| Streams.Manager.Claim | internal/streaming/manager.go:253-306 | a claim succeeds exactly if nothing runs or starts and the expected entry, if any, is the current one; it then replaces exactly that entry |
| Streams.Manager.ReleaseReplaced | internal/streaming/manager.go:298-303 | the replaced entry's process, port and context are stopped before the claim starts its own |
| Streams.Manager.Bind | internal/streaming/manager.go:371-399 | a listener binds its port only while it has the claim |
| Streams.Manager.Launch | internal/streaming/manager.go:308-325 | a cancelled claim starts nothing; a failed start leaves no claim, process or port |
| Streams.Manager.Publish | internal/streaming/manager.go:339-353 | an entry is published exactly if its claim stands, which no Stop has taken on; under a lost claim process and port are stopped before the starter returns |
| Streams.Manager.StopBegins | internal/streaming/manager.go:602-660 | Stop takes on the managed entry unless another Stop has it, cancels it, and removes at once what is not running |
| Streams.Manager.StopResources | internal/streaming/manager.go:524-568 | the context is cancelled, the port closed, and the process ended unless it is still its starter's |
| Streams.Manager.StopEnds | internal/streaming/manager.go:664-695 | the entry Stop waited for goes, an entry that replaced it stays |
| Streams.Manager.SeeExit | internal/streaming/manager.go:901-909 | a monitor acts on an exit only while it owns the entry |
| Streams.Manager.Judge | internal/streaming/manager.go:976-1010 | keeps the protocol unless it marks an entry that is starting or being stopped as failed |
| Streams.MarkIsSafeIff | internal/streaming/manager.go:868-875 | marking the current entry as failed keeps the protocol if and only if that entry is neither starting nor being stopped |
| Streams.OwnMarkIsSafe | internal/streaming/manager.go:868-875 | the mark is safe whenever the monitor that makes it still has the current entry, or there is none |
| Streams.Manager.WriterFails | internal/streaming/manager.go:186-194 | a failed write marks its own entry as failed, and only while that is the current one and runs |
| Streams.LateMarkRevivesCaller | internal/streaming/manager.go:976-1010 | a run from a new manager: the mark of a late monitor hits an entry a Stop waits for, and the monitor of that entry claims the stream anew |
| Streams.LateMarkRevivesListener | internal/streaming/manager.go:371-436 | a run from a new manager: such a mark on a starting listener lets a Stop leave it in place, and its starter publishes it after the Stop |
| Streams.Manager.RemoveIfOwned | internal/streaming/manager.go:913-927 | an entry is removed only by its owner, which is then about to stop its resources |
| Streams.Manager.Decide | internal/streaming/manager.go:1014-1034 | a monitor goes on only while it owns its entry; when it ends the entry goes unless its retries are used up or it is not its any more |
| Streams.Manager.Restart | internal/streaming/manager.go:1085-1115 | a restart claims only the exact entry its monitor owns, and never one a Stop took on |
| Streams.Manager.Restarted | internal/streaming/manager.go:1085-1115 | the monitor goes on with what was published, or ends without leaving its old entry behind |
| Streams.Manager.SeeRunEnd | internal/streaming/manager.go:1140-1165 | one monitor at a time takes a listener's ended encoder, and goes on only if it still owns a listener that was not cancelled |
| Streams.Manager.Reserve | internal/streaming/manager.go:1245-1257 | a new context is made only for a running listener no Stop took on |
| Streams.Manager.LaunchRun | internal/streaming/manager.go:1226-1242 | an encoder starts only while its context is not cancelled |
| Streams.EncoderAttaches | internal/streaming/manager.go:446-481 | a new encoder becomes its entry's without replacing a live one |
| Streams.Manager.CheckRun | internal/streaming/manager.go:1193-1205 | an encoder a Stop may have missed is stopped by the monitor that started it |
| Streams.GiveUpIsSafeIff | internal/streaming/manager.go:1298-1320 | a listener giving up keeps the protocol if and only if no Stop has taken it on meanwhile |
| Streams.LateGiveUpIsStoppedTwice | internal/streaming/manager.go:1298-1320 | a run from a new manager: a listener gives up over a Stop in progress, and the next Stop takes it on a second time |
| Dump.MadeIsWanted | internal/silencedump/dump.go:247-273 | a dump is 15 s before the incident, at most its first 5 s and 15 s after it if its end is still within the 35 s ring; otherwise what follows is taken from at least 35 s later |
| Dump.LatestIsItselfIff | internal/silencedump/dump.go:295-299 | the ring still holds a position if and only if it is within 35 s of the end, and otherwise holds the latest one in its place |
| Dump.WrittenHolds | internal/silencedump/dump.go:279-289 | a write of at most 35 s, wrapping at most once, leaves the ring holding the newest bytes |
| Dump.ReadsHeld | internal/silencedump/dump.go:295-299 | reading from a position on with at most one wrap gives what the ring holds in the place of those bytes |
| DumpRuns.ReplayOneAtATime | internal/silencedump/dump.go:230-244 | over any run with one capture at a time, chunks of at most 20 s and recovery plus chunk at most 35 s, every dump is the wanted one and none is missing |
| DumpRuns.TwoAtOnceSpoilADump | internal/silencedump/dump.go:230-244 | a run within the same bounds in which two captures recover at once and the second dump is not the wanted one |
| Dump.ExtendedIsOk | internal/silencedump/dump.go:143-148 | until it recovers a capture keeps exactly the first seconds of its incident |
| Dump.Ring.Write | internal/silencedump/dump.go:279-289 | the buffer refines the history of everything written |
| Dump.Ring.Read | internal/silencedump/dump.go:295-299 | what is copied is what the ring holds for those positions |
| Dump.Capturer.WriteAudio | internal/silencedump/dump.go:132-154 | history grows by the audio; at most one capture is finished, one that is due, and its dump is the wanted one if it comes in time; otherwise none is due |
| Dump.Capturer.CheckAndFinalize | internal/silencedump/dump.go:230-244 | finishes one due capture, or finds that none is |
| Dump.Capturer.OnIncidentStart | internal/silencedump/dump.go:157-195 | a new capture keeps the 15 s before it; an active capture of the same trigger gives way, one that has recovered and those of the other trigger stay |
| Dump.Capturer.OnIncidentRecover | internal/silencedump/dump.go:199-223 | the capture ends at the recovery less its confirmation, not before its start |
| Dump.Capturer.SetEnabled | internal/silencedump/dump.go:114-122 | disabling forgets audio and captures, enabling keeps them, and nothing is enabled without an encoder |
| ReverseLines.ReadLinesReverse | internal/eventlog/logger.go:549-600 | for every content, every chunk size from 1 and every handler, what is handed out is the reverse of the lines, less an empty first line, up to where the handler stops |
| ReverseLines.HandedJoins | internal/eventlog/logger.go:575-593 | of a part read from the end all lines but its first are complete |
| ReverseLines.SplitJoins | internal/eventlog/logger.go:575-593 | the lines of a concatenation are those of its parts, with the last line of the one and the first of the other glued |
| ReverseLines.CollectorHolds | internal/eventlog/logger.go:500-527 | the handler of readLast collects one more event than asked for, from the offset on, and goes on exactly while it has not |
| ReverseLines.ReadLast | internal/eventlog/logger.go:485-547 | take n of drop offset of the filtered history of active and rotated file, newest first; hasMore is exact; n is capped at 500 and a negative offset counts as 0 |
| ReverseLines.PagesConcatenate | internal/eventlog/logger.go:485-547 | adjacent pages make up one larger page |
| EventGroups.GroupEvents | internal/eventlog/groups.go:135-208 | every event is in exactly one row; the events were paired one by one, oldest first, and open incidents of removed streams ended; attention holds exactly the rows of ongoing and abandoned incidents, resolved those of ended ones, activity a row for each event of no incident that is not routine, routine one row of all others; every problem is in attention or resolved, every upload given up in attention; a resolved incident that was not stopped holds an event that ends what its first event began |
| EventGroups.KeysDiffer | internal/eventlog/groups.go:533-539 | audio events of a source share a key exactly if they carry the same incident number, other events of it always do |
| EventGroups.EndsMatchStarts | internal/eventlog/groups.go:300-315 | exactly the troubles that can pass have an end, of the same subject and no trouble itself; only a stream also ends by being stopped or by starting anew as a listener |
| EventGroups.DumpJoinsItsOwn | internal/eventlog/groups.go:379-394 | a dump joins the latest silence or imbalance of this run that fits its trigger and its number, none if that one was stopped or there is none |
| EventGroups.RowsPartition | internal/eventlog/groups.go:158-208 | the rows of incidents and of ungrouped events hold each event once |
| EventGroups.OutcomeKeepsInvariant | internal/eventlog/groups.go:223-281 | processing an event keeps the invariant: each incident is open under its key, closed or failed, its events are its own and in order, and the event joins at most one incident |
| EventGroups.ProblemsAreGrouped | internal/eventlog/groups.go:223-281 | a problem always becomes part of an incident of its key |
| EventGroups.OpenIncidentsDiffer | internal/eventlog/groups.go:223-281 | at most one incident is open per key |
| EventGroups.IdentifiedStaysInRun | internal/eventlog/groups.go:285-298 | an identified incident never spans two runs: everything logged from its first to its last event is of one run |
| EventGroups.Grouping.EnterRun | internal/eventlog/groups.go:285-298 | a new run ends exactly the identified open incidents, as stopped, in any order |
| EventGroups.Grouping.Process | internal/eventlog/groups.go:223-281 | enters the event's run and does what the specification of an event's outcome says |
| EventGroups.Grouping.FindDumpTarget | internal/eventlog/groups.go:379-394 | the latest match among the incidents closed in this run, none if that one was stopped |
| EventGroups.DumpTargetGrows | internal/eventlog/groups.go:379-394 | a dump joins only an incident that was closed in the current run |
| EventGroups.Grouping.CloseRemoved | internal/eventlog/groups.go:158-166 | exactly the open incidents of streams that are no longer configured end, as stopped; all others are as they were |
| ItemKeys.UniqueIff | internal/eventlog/groups.go:213-221 | numbering makes keys unique if and only if no numbered key reads like another key |
| ItemKeys.RepeatCanClash | internal/eventlog/groups.go:213-221 | three keys, none ending in a colon and a number, for which it does not |
| ItemKeys.IncidentKeysAreUnique | internal/eventlog/groups.go:213-221 | keys that end in a colon and a number are always unique once numbered |
| ItemKeys.IncidentKeyEndsInNumber | internal/eventlog/groups.go:430-433 | the keys of incidents end in a colon and a number |
| ItemKeys.UniqueItemKeys | internal/eventlog/groups.go:213-221 | the n-th occurrence of a key is numbered n, the first stays |
| EncoderStates.LoopsDoNotOverlap | internal/encoder/encoder.go:877-924 | in an orderly history, which every method of Lifecycle keeps, a source loop ends before the next one begins |
| EncoderStates.SupersededNeverBegins | internal/encoder/encoder.go:618-723 | in an orderly history, which every method of Lifecycle keeps, a restart that was asked for before an explicit Stop never brings the encoder up, neither directly nor as the one more a restart in the background makes up for |
| EncoderStates.LogAlternates | internal/encoder/encoder.go:877-924 | input_lost and input_restored strictly alternate in the log, across stops and starts, beginning with what the last process left open |
| EncoderStates.AlternateAt | internal/encoder/encoder.go:1087-1110 | in an alternating log the first report fits what was left open and no two neighbours are equal |
| EncoderLifecycle.Lifecycle.Start | internal/encoder/encoder.go:457-497 | a start goes through exactly if the encoder is stopped and configured and, for a restart, no explicit Stop came since it was asked for; it then begins the only loop |
| EncoderLifecycle.Lifecycle.Stop | internal/encoder/encoder.go:526-589 | an explicit Stop supersedes every restart asked for before it and ends the wish to record; a superseded restart stops nothing; a loop and its source are told to end |
| EncoderLifecycle.Lifecycle.TeardownEnds | internal/encoder/encoder.go:573-586 | the encoder counts as stopped only once its loop has finished |
| EncoderLifecycle.Lifecycle.Reserve | internal/encoder/encoder.go:1043-1051 | no source is opened once a shutdown began, and every opened one can be cancelled |
| EncoderLifecycle.Lifecycle.Publish | internal/encoder/encoder.go:1061-1072 | a source is published exactly if no shutdown began; one that is not was cancelled |
| EncoderLifecycle.Lifecycle.ConfirmInput | internal/encoder/encoder.go:1087-1110 | an open outage ends only for the run that is running |
| EncoderLifecycle.Lifecycle.RecordEnd | internal/encoder/encoder.go:877-924 | the end of a source opens an outage, as news only if none is open, unless the encoder is stopping |
| EncoderLifecycle.Lifecycle.RestartInBackground | internal/encoder/encoder.go:630-643 | refused after an explicit Stop; requests made while a restart runs collapse into one that knows the generation of the last request |
| EncoderLifecycle.Lifecycle.TakeTurn | internal/encoder/encoder.go:661-709 | one restart at a time; one that is superseded stops nothing |
| EncoderLifecycle.Lifecycle.FinishRestart | internal/encoder/encoder.go:710-723 | a restart brings the encoder up, with its recordings, if and only if the teardown ended in time, the encoder is configured and no explicit Stop came since it was asked for |
| EncoderLifecycle.Lifecycle.SettleBackground | internal/encoder/encoder.go:645-659 | one more restart runs for the request made meanwhile, with the generation of that request |
| EncoderLifecycle.Lifecycle.ReadWish | internal/encoder/encoder.go:508-521 | once no sync is under way the recordings follow the latest wish |
| RollingWriter.Writer.Write | internal/util/rolling_writer.go:61-116 | whatever fails, rotated and active file are the newest records, each whole, but for one torn end that is remembered; no record is appended to it; the records of the active file stay, in it or as the rotated file, and older ones go only in a rotation, which comes only when the record does not fit; without a blocked rename the active file stays within the cap or holds one record; all that is kept if and only if the write did not tear the file while its size could not be read |
| RollingWriter.Writer.RollBack | internal/util/rolling_writer.go:76-89 | a torn end is cut off before anything is appended, or the handle goes |
| RollingWriter.Writer.Rotate | internal/util/rolling_writer.go:168-189 | whatever of close, remove, rename and reopen fails, the files stay the newest records: a rename that works leaves the active file as the rotated one, one that fails leaves it as it is, and only the older rotated file may go |
| RollingWriter.ActiveRecordsStay | internal/util/rolling_writer.go:168-189 | whatever a rotation leaves, the records of the active file are the newest of the two files |
| RollingWriter.Writer.Append | internal/util/rolling_writer.go:97-116 | a record lands whole, or what it left is undone or remembered |
| RollingWriter.Writer.Tear | internal/util/rolling_writer.go:98-113 | a part that was written is cut off again, or its boundary is remembered exactly; it is forgotten if and only if the size cannot be read |
| RollingWriter.UnreadableSizeGluesRecords | internal/util/rolling_writer.go:97-113 | for any three records: the second is torn after its first byte in a file that does not tell its size, the third is reported as written, and the file is no concatenation of records |
| Output.SyncedAudioSurvives | internal/recording/outbox.go:233-272 | whatever of a cut-off recording a power cut leaves, a start never reports synced audio as lost and never drops it, and removes the file only when nothing is in it |
| Output.RecordingOutput.Sync | internal/recording/recorder_segment.go:271-284 | the ticket never claims more synced audio than is durable; on success the whole file as it was is durable and the ticket on disk says so |
| Output.RecordingOutput.Release | internal/recording/recorder_segment.go:299-320 | a file is taken for the recorder's own only if the path still names it |
| Output.RecordingOutput.Commit | internal/recording/recorder_segment.go:288-294 | in local-only mode the ticket goes and the file stays, otherwise the ticket is ready on disk; without faults it succeeds |
| Output.RecordingOutput.Remove | internal/recording/recorder_segment.go:324-329 | the file goes before its ticket; a removal that fails leaves what a start may load as it was, or adds the superseded generations not erased yet exactly if the newest file is not certain; without faults file and ticket are gone |
| Output.RecordingOutput.Discard | internal/recording/recorder_segment.go:332-346 | a reservation goes with its ticket, but a file that replaced it stays and the ticket becomes failed; without faults it ends exactly so |
| Output.RecordingOutput.FinishOutput | internal/recording/recorder_segment.go:493-526 | audio is never removed, a replaced file neither removed nor handed on, what is handed on is durable as a whole; without faults the end is removal exactly for silence (or an empty file of a broken encoder), quarantine for anything else of a broken encoder or a replaced path, and commit otherwise |
| Output.RecordingOutput.FinishEncoder | internal/recording/recorder_segment.go:443-490 | only a drained encoder whose file was synced hands its file on |
| SilenceFill.AudioWriter.Tick | internal/recording/recorder_segment.go:376-396 | the timer writes silence only when no input is queued; the silence of an outage is exactly what was written since the last input and never exceeds what the clock asks for |
| SilenceFill.AudioWriter.Take | internal/recording/recorder_segment.go:370-396 | input goes to the encoder as it is and ends the outage; audio is noted exactly if the encoder accepted input |
| SilenceFill.SilenceIsDue | internal/recording/recorder_segment.go:376-386 | whenever the timer fires at least a second passed since the last input and silence is due: no buffer of negative or no length is made |
| SilenceFill.CatchesUp | internal/recording/recorder_segment.go:383-395 | with every step the file gets level with the clock, or a full second closer to it |
| SilenceFill.StaysLevel | internal/recording/recorder_segment.go:383-395 | a level file is level again after the next step unless that comes a second late |
| Schedule.NextDue | internal/recording/outbox.go:458-479 | chooses a ready or delivered recording that is due and has waited longest, if any is due; otherwise the wait ends exactly when the next becomes due, at most after an hour |
| Schedule.BackoffDoubles | internal/recording/uploader.go:178-180 | the wait doubles from a minute up to an hour for any number of failures, and the shift never overflows |
| Schedule.Alarm.Check | internal/recording/uploader.go:356-385 | alerts and clears take turns, across restarts, and follow whether any recording is overdue; the count and the oldest are those of the overdue recordings |
| Distributor.Distribute | internal/encoder/encoder.go:1196-1267 | however a pipe cuts the audio into reads and whenever the run ends, consumers got every whole frame read so far, in whole frames |
| Distributor.ReadJoins | internal/encoder/encoder.go:1242-1265 | the bytes held back and the next read together give the next whole frames and the next rest |
| Distributor.Read | internal/encoder/encoder.go:1242-1265 | one read into the reused buffer hands on its whole frames and moves the incomplete one to the start |
| Debouncer.Debouncer.Update | internal/audio/debounce.go:34-87 | entered exactly if every update since some time found the condition true for the duration this call asks for, recovered exactly if every update found it false long enough; entries and recoveries alternate with the same id; the total is last active minus start |
| Debouncer.SinceIsUnbroken | internal/audio/debounce.go:34-87 | the time measured is that of an update which began an unbroken stretch, and no longer stretch exists |
| Debouncer.EntryNeedsDuration | internal/audio/debounce.go:34-87 | under non-decreasing times the updates of that stretch span the duration |
| Debouncer.Debouncer.Restart | internal/audio/debounce.go:91-96 | time measured before does not count afterwards; a confirmed incident keeps its start |
| Debouncer.Debouncer.Clear | internal/audio/debounce.go:99-104 | detection begins anew, with the incident sequence kept |
| Debouncer.LogGrows | internal/audio/debounce.go:34-87 | the transition of an update keeps the log in turn: a recovery directly follows the entry of the same incident, and an entry finds none open |
| Storage.Recovery | internal/recording/storage.go:97-132 | the space needed to recover is never below the threshold, above it whenever possible, and never exceeds the total when that exceeds the threshold; nothing leaves 64 bits |
| Storage.MarginIsFull | internal/recording/storage.go:127-132 | the margin is the full max(1 GiB, 2.5%) exactly from 3 GiB up |
| Storage.HeldUntilRecovered | internal/recording/storage.go:136-146 | a monitored path that was unhealthy becomes healthy if and only if a clean probe finds the space to recover |
| Storage.LowBelowThreshold | internal/recording/storage.go:97-117 | a healthy path becomes low exactly below the threshold |
| Storage.ScanKeepsLog | internal/recording/storage.go:151-184 | after every scan the log has an open incident for exactly the paths that are unhealthy |
| Storage.RestoredIsTrue | internal/recording/storage.go:151-184 | a restored event follows an open incident, and for a monitored path tells of a probe that found the space to recover |
| Storage.Monitor.constructor | internal/recording/manager.go:70-91 | a new process takes over exactly the incidents the log left open, with their kind |
| Storage.Monitor.CheckStorage | internal/recording/storage.go:44-66 | a scan observes, holds and reports as specified and keeps the log in step; a scan of an earlier run publishes nothing |
| Storage.RestoredMatches | internal/recording/manager.go:70-91 | what is restored from a log matches it, path by path |

## Left out

- Uploader.StepKeepsSafe: other writers are assumed never to delete an object; if they did, a key that was persisted but not loaded could give a recording a second object.
- Uploader.Delivery.Send: requires that the number of the current key plus ten fits 64 bits; the source's parser gives up on longer numbers and n + 1 would wrap around.
- Uploader.Delivery.Process: counts attempts; the time of the next one that follows from the count is in Schedule only.
- Uploader.Delivery.Put: an effect that is delayed past the end of the call is not modelled.
- Uploader.Delivery.Restart: uses what Outbox.Open, Outbox.Write and Outbox.RemoveFiles promise instead of the files themselves: after a failure it allows everything they allow, also the runs in which less was left.
- Outbox.Outbox.Write: generation numbers do not wrap around at 2^64, names with leading zeros do not occur, and the content of a file is a whole ticket or torn.
- Recorder.Recorder.ApplyConfig: the status error text, the names of the files and the times of the timers are not part of the state.
- Recorder.Recorder.WriteAudio: holding the lock and looking at the recording flag count as one step.
- Streams.Manager.Judge: keeps the protocol only under the condition MarkIsSafeIff shows to be exact.
- Streams.Manager.GiveUp: likewise, with the condition of GiveUpIsSafeIff.
- RollingWriter.Writer.constructor: leaves it to the first write to open the file, where the source opens it at once or fails.
- RollingWriter.Writer.Write: keeps records whole exactly as long as the size of a torn file can be read, see Findings.
- Dump.Capturer.WriteAudio: chunks longer than the ring are excluded, as in the source; the ring is allocated from the start instead of with the first chunk.
- EventGroups.GroupEvents: the order of the rows within a list and what a row says about its events are not modelled.
- ReverseLines.ReadLast: a rotation between reading the two files, which ReadLast detects and repeats, is not modelled.
- EncoderLifecycle.Lifecycle.Start: audio times, backoff delays and the resets of detectors are not modelled.
- Storage.Monitor.CheckStorage: an event that cannot be written to the log is not modelled.
- Output.RecordingOutput.Fail: the marker that stands in for a failed state that cannot be persisted is modelled in Uploader instead; the two share what Outbox.Write and Outbox.RemoveFiles promise, not their state.
- Output.RecordingOutput.Discard: a reservation that could not get its ticket is not modelled, nor is an unlink that a power cut undoes.
- SilenceFill.AudioWriter.Tick: counts frames exactly, where the source multiplies seconds in floating point.
- Schedule.NextDue: the worker's loop around it (sleeping, being woken) and the names of overdue recorders are not modelled.
- The index of paths and the saved destinations: one-branch facts beside the queue.
- StopAll of the streams: it relies on the encoder refusing starts once it stops.
- Audio levels and alerts.
- FFmpeg and capture processes, sockets, the AWS SDK, permissions and Windows variants.
