# A verified model of the dubbing pipeline

The repository turns a video and its subtitles into a dubbed video. Web jobs wait in a queue and run a
checkpointed pipeline; the speech step keeps a cache of audio per subtitle segment across edits; the speech
is laid out on a timeline, and the source video and audio are cut and stretched so that every cue lands on
its new start. Warm daemons hold the models. This project models the logic of those parts in Dafny and
proves what they promise, or exactly when they keep the promise.

`dafny verify dfyconfig.toml` checks everything.

## Modules

| module | what it models |
|---|---|
| `SegmentCache`, `CacheTruth`, `CacheRuns` | the audio cache: migration to an edited SRT, the closed form of its outcome, lookups, and the fallback flag |
| `CacheHistory`, `CacheFailures` | histories of runs that end, raise or crash; two ordinary histories that end in wrong words |
| `CacheAdoption`, `CacheRetries` | runs without metadata, and the same file run again |
| `Timeline`, `Retiming`, `Landing`, `GenVideo`, `Coverage` | the speech timeline, both retimers, where cues land, batch-wise rendering, and which part of the source each piece plays |
| `Slotting`, `Calibration`, `MergeConservation`, `WalkPairs`, `CalibratedText` | calibration of displayed subtitles against a standard transcript: the walk, what it keeps, what it pairs, and the result read back against both inputs |
| `JobQueue`, `JobRows` | the queue protocol: tokens, conditional claim, cancel, resubmit, delete, crash and boot; which step writes which status |
| `Pipeline` | checkpoints: crash, resume, edit, delete |
| `ModelLoad`, `Slots`, `ThermalGate` | the warm daemons: load/generate exclusion, slot admission, thermal gate and hang guard |
| `RateLimiter`, `DirIndex`, `SplitText`, `TranslateSrt` | fast or in-place forms against their simple references |
| `Text`, `Sequences`, `Counting` | shared strings, sequence facts and sums |

The cache, the collector, the checkpointed job, the gate, the guard and the limiter are classes whose
methods are tied to functions of their state; slotting works in place on an array; the loops of the
timelines, retimers, merge, splitter and translator are loops. The queue and the two daemon protocols are
state machines over values, one step per action between which another thread or process may run.

## What was found

- `_migrate_cache` raises when a segment's audio has to move onto an index that still has a file while its
  own is already gone. A new cue put in front of an SRT of different cached cues raises exactly when there are
  two or more of them (`CacheRuns.FrontInsertionRaises`). `CacheTruth.FinalState` says for every cache, whatever
  files lie beside it, and every new SRT whether it raises and what it leaves.
- A raise leaves the files moved and the old metadata saved. Going back to the old SRT then plays one cue's
  audio for another (`CacheFailures.RevertPlaysTheOther`).
- A migration leaves the entry of an index whose audio moved away. If the run does not refill that index,
  the next migration can move the wrong audio under it, and a later hit plays the wrong words; three cached
  cues and two ordinary edits are enough (`CacheFailures.LeftBehindEntryLies`).
- Over all histories of whole runs, raises and crashes the files stay described by the metadata exactly when
  every run meets a condition on its pairing and its takes (`CacheHistory.HistoryTruthIff`), and as long as
  they are, a lookup is right exactly when its audio comes from an entry like its match
  (`CacheHistory.HistoryHitRightIff`, `CacheHistory.NextRunRightIff`).
- The flag that marks stand-in silence is read from the dictionary that is being rewritten. It is kept exactly
  when the entry at the end of the chain of matches has it too (`CacheRuns.FlagKeptIff`); a swap of two
  segments loses it (`CacheRuns.FallbackLost`).
- An unchanged file with equal cues is migrated without moving anything exactly when the dictionary lists its
  segments in order (`CacheRetries.UnchangedIff`). Runs of one file keep that order from the first on
  (`CacheRetries.RetriesMoveNothing`); a torn save can reverse it, and then one of two equal cues loses its audio
  (`CacheRetries.TornRunReverses`).
- Without metadata every audible WAV is taken for the words of the segment that has its index, and the run leaves
  a truthful cache exactly when that is right or the WAV is overwritten (`CacheAdoption.AdoptionTruthIff`).
- `_slot_standard_entries` promises monotonic timing in its docstring; it holds exactly when no entry
  overflows its gap (`Slotting.SlottingInOrder`, `Slotting.MonotonicTimingFails`).
- The audio-side retimer computes a wrong length exactly when the first cue starts after the end of the video
  (`Retiming.DefsConserved`); the video-side one clamps first and never does. A cue cut by the end of the video
  is stretched alike on both sides exactly when its adjusted length fits what is left of it or is tenfold the whole
  (`Coverage.CutCueAgreesIff`).
- A cancelled job stays cancelled exactly when its handler can be loaded and no worker is running or rejecting
  it at that moment (`JobQueue.CancelledStaysIff`), because completion and failure are written unconditionally.
  For the same reason a submission or resubmission stays pending until it is started under exactly the same
  condition (`JobQueue.SubmissionKeptIff`); one made while the cancelled handler still runs can be swallowed
  (`JobQueue.ResubmissionSwallowed`). A deleted or completed job stays so under the same condition, when moreover
  no request has passed the check for it and it is not marked as edited (`JobRows.OverStaysIff`).
- A resumed run of a pipeline with a validation label fails at its very end exactly when the audio step was
  checkpointed before it (`Pipeline.Job.RunFull`). Saving the visible copy of the adjusted SRT is lost
  (`Pipeline.CopyEditIsLost`), and deleting a file leaves later artifacts as they are
  (`Pipeline.DeletionRebuildsOneStep`).
- Model loads exclude generations over all runs exactly when the daemon has one worker
  (`ModelLoad.ExclusionIff`).
- The hot polls that stop an idle daemon need not be consecutive, as the documentation of the gate says:
  polls during a job neither count nor reset (`ThermalGate.BusyPollsKeepStreak`).
- A translated SRT is not always read back as written: an emptied block whose time line is blank vanishes, and
  white space at both ends of the file goes (`TranslateSrt.TranslationRereadIff`).
- The incremental directory index is stale exactly when directories that have gone since the last full scan
  held files (`DirIndex.CallRightIff`).

## Model

| member | source | states |
|---|---|---|
| SegmentCache.SegmentStore.Migrate | gen_audio/gen_audio.py:178-246 | the dictionary and file operations of the migration, loop by loop, leave exactly the cache that the fold `Migrated` gives, or raise when it does |
| SegmentCache.SegmentStore.GroupByContent | gen_audio/gen_audio.py:194-201 | the waiting lists hold, per content, the old indices in dictionary order |
| SegmentCache.SegmentStore.SweepStale | gen_audio/gen_audio.py:232-243 | exactly the entries still waiting lose their entry and their WAV |
| CacheTruth.MatchInjective | gen_audio/gen_audio.py:203-214 | first-in-first-out pairing never gives one old entry to two segments, duplicates included |
| CacheTruth.OnlyTaker | gen_audio/gen_audio.py:203-231 | only the paired segment ever takes an old entry's audio away |
| CacheTruth.WaitingIsUnmatched | gen_audio/gen_audio.py:194-214 | what is left in the waiting lists after all segments is exactly the unpaired entries with content |
| CacheTruth.FinalState | gen_audio/gen_audio.py:178-246 | for every cache, whatever files are there, and every new SRT: the migration raises if and only if some segment finds a file in its place and nothing at its match's index; what the files are by then; and otherwise every WAV and every entry afterwards in closed form from the pairing |
| CacheRuns.HitRecords | gen_audio/gen_audio.py:127-167 | every lookup: it hits an audible WAV that has no entry, or an unflagged entry with this content; a hit leaves the segment's entry with the reported duration and no flag, and everything else as it was |
| CacheRuns.HitIff | gen_audio/gen_audio.py:127-167 | for every cache with metadata: which lookups hit after a migration, what WAV they play and what duration they report |
| CacheRuns.HitRightIff | gen_audio/gen_audio.py:127-167 | when every audible WAV is described by its entry, a hit plays its segment's words at the reported length if and only if its audio comes from an entry like the matched one |
| CacheRuns.HitPlaysTheSegment | gen_audio/gen_audio.py:134-167 | when moreover every entry has its WAV, a hit always plays its segment's words, at the entry's duration, from the WAV of its paired old entry |
| CacheRuns.FrontInsertionRaises | gen_audio/gen_audio.py:216-222 | inserting a spoken cue that is not cached before an SRT of different, fully cached cues raises if and only if there are at least two of them |
| CacheRuns.FlagKeptIff | gen_audio/gen_audio.py:215-227 | the silence flag follows the audio if and only if the entry at the end of the chain of matches, followed while the old index is smaller and spoken, has the flag of the matched entry |
| CacheRuns.FallbackKept | gen_audio/gen_audio.py:215-227 | in particular it does when the old index is not rewritten before it is read |
| CacheRuns.FallbackLost | gen_audio/gen_audio.py:215-227 | a swap of two segments loses the silence flag of the first |
| CacheHistory.LeftBehind | gen_audio/gen_audio.py:216-243 | at an index without a spoken segment an entry survives exactly when its audio moved away |
| CacheHistory.RaiseIsStop | gen_audio/gen_audio.py:216-246 | a raise is a stop in the matching loop: the metadata on disk is still the old one, the files are as moved by then |
| CacheHistory.NextRunRightIff | gen_audio/gen_audio.py:178-246 | after a raise or a crash in the migration, a hit of the next run is right if and only if its audio, followed back through both runs, comes from an entry like the one matched |
| CacheHistory.EditTruthIff | gen_audio/gen_audio.py:639-961 | a run that ends, raises or crashes anywhere between two writes or inside a save leaves every audible WAV on disk described by its saved entry if and only if the condition of its ending holds |
| CacheHistory.RunKeepsTruth | gen_audio/gen_audio.py:639-961 | a whole run from a cache in which every entry has its WAV meets that condition |
| CacheHistory.BackedIffRefilled | gen_audio/gen_audio.py:639-961 | it leaves every entry with its WAV if and only if it refills every index that audio moved away from |
| CacheHistory.HistoryTruthIff | gen_audio/gen_audio.py:639-961 | over any history of such runs the disk is truthful all along if and only if each of them meets its condition |
| CacheHistory.HistoryHitRightIff | gen_audio/gen_audio.py:127-246 | while every run met its condition, a hit of the next one plays its segment's words if and only if the audio comes from an entry like its match |
| CacheAdoption.AdoptionTruthIff | gen_audio/gen_audio.py:160-167 | a whole run from a directory without metadata leaves every entry with its WAV, and every audible WAV described, if and only if those it found say the words of their segments or are overwritten |
| CacheAdoption.NextEditRight | gen_audio/gen_audio.py:127-246 | then every hit after the next edit plays its segment's words |
| CacheAdoption.AdoptedIsRecorded | gen_audio/gen_audio.py:160-167 | an adopted WAV is kept and recorded with its segment's words and its length |
| CacheRetries.UnchangedIff | gen_audio/gen_audio.py:194-231 | from a cache with every entry and WAV, migrating to the same file, duplicates included, moves nothing if and only if the dictionary lists the segments of each content in order |
| CacheRetries.RetriesMoveNothing | gen_audio/gen_audio.py:639-961 | from an empty directory any number of runs of one file leave the keys ascending, and no migration touches the cache |
| CacheRetries.RetryAt | gen_audio/gen_audio.py:127-167 | a retry keeps what hits and generates what is silent or flagged again |
| CacheRetries.TornRunReverses | gen_audio/gen_audio.py:160-214 | after a torn save two equal cues can be recorded in reverse, and then the unchanged file does not keep both |
| CacheFailures.RevertPlaysTheOther | gen_audio/gen_audio.py:216-246 | four cached cues, the first two swapped and a new one in third place raises, and the next run on the old SRT plays the first cue's audio for the second |
| CacheFailures.LeftBehindEntryLies | gen_audio/gen_audio.py:203-243 | from an ordinary cache of three cues two edits, each run to its end or up to its lookups, make a hit play the middle cue for the last |
| Timeline.AllCachedTimeline | gen_audio/gen_audio.py:676-729 | the fast path for all-cached input gives the reference timeline: adjusted cues, changed list, total |
| Timeline.GeneratedTimeline | gen_audio/gen_audio.py:734-956 | the slow loop gives the same reference timeline, or refuses it when it is over three times as long |
| Timeline.GapNeverShrinks | gen_audio/gen_audio.py:734-945 | the gap to the next cue grows by exactly what the speech falls short of its cue |
| Timeline.AdjustedOrdered | gen_audio/gen_audio.py:734-945 | for any speech lengths adjusted cues stay ordered and never overlap |
| Timeline.TotalCoversSpeech | gen_audio/gen_audio.py:945-956 | the returned total is the room from the first adjusted start to the end of the padded last cue |
| Timeline.LengthsAre | gen_audio/gen_audio.py:734-945 | generated speech never ends before its cue would, silence has its cue's length and cached audio its own |
| Timeline.ChangedIsRight | gen_audio/gen_audio.py:734-945 | the changed list has one entry with the right times for each segment whose length changed by more than 0.05 s, in order, and no other |
| Retiming.BuildSegmentDefs | chatterbox-server/segment_utils.py:35-90 | the loop with its clamps, skipped gaps, slop and early break computes the reference pieces |
| Retiming.DefsConserved | chatterbox-server/segment_utils.py:35-90 | the stretched pieces last as long as the tracked position plus the trailing piece, if and only if the first cue does not start after the video's end |
| Coverage.DefsLaid | chatterbox-server/segment_utils.py:35-90 | for all inputs: the pieces are the source before the first cue, the kept cues at their shifted places with their stretch, between them exactly the gap or the 40 ms before its start, and what follows the last |
| Coverage.SourceInOrder | chatterbox-server/segment_utils.py:35-90 | for cues in order inside the source at any offset the pieces play the whole source in order, each from where the one before it ended, up to 40 ms again and a millisecond skipped |
| Landing.GapFill | chatterbox-server/segment_utils.py:52-74 | a clamped gap never overshoots, and fills exactly up to the hundredfold |
| Landing.LagBounds | chatterbox-server/segment_utils.py:39-90 | the tracked position is never late, and at most a millisecond early when no speech is over tenfold |
| Landing.CueLands | chatterbox-server/segment_utils.py:39-90 | the piece of every cue starts where all pieces before it end, never after its adjusted start and at most 0.001 s before it |
| Landing.TotalLands | chatterbox-server/segment_utils.py:80-90 | the designed total is the video plus the accumulated offset, short by at most 0.001 s |
| GenVideo.CalculateSegments | gen_video.py:81-122 | one segment per cue, in order, with lengths and factor |
| GenVideo.FilterSegments | gen_video.py:148-169 | the segments kept are the clamped ones before the first that starts past the end |
| GenVideo.ProcessVideo | gen_video.py:171-236 | the loop over the kept segments computes the reference pieces |
| GenVideo.RetimersAgree | gen_video.py:148-236 | with every cue inside the video both retimers give the same list of starts, ends and stretches |
| GenVideo.VideoPiecesConserved | gen_video.py:148-238 | for all inputs, clamped ones included, the pieces last as long as the tracked position plus the trailing piece |
| Coverage.VideoPiecesLaid | gen_video.py:148-238 | for all cues the video pieces are laid out like that, with cues cut at the end of the video and each stretched by the ratio of its whole lengths |
| Coverage.CutKeepsStretch | gen_video.py:157-169 | what is left of a cue cut by the end of the video is stretched as the whole cue would have been |
| Coverage.CutCueAgreesIff | gen_video.py:157-169 | both retimers stretch a cut cue alike if and only if its adjusted length fits what is left, or is at least ten times the whole |
| GenVideo.JoinLevel | gen_video.py:319-357 | one level of joining plays the same pieces in the same order with as many files as groups of at most 42 need |
| GenVideo.RenderInOrder | gen_video.py:249-359 | batches joined level by level end in one file that plays all pieces in order |
| Slotting.SlotFits | chatterbox-server/routes/files.py:569-594 | a slot has positive length, starts at the cursor or later, and passes the gap's end if and only if the gap was used up or the entry's own timing lies past it |
| Slotting.SlottedKeeps | chatterbox-server/routes/files.py:550-594 | displayed-based entries are untouched; standard entries keep text and kind and get a timing |
| Slotting.SlotStandardEntries | chatterbox-server/routes/files.py:550-594 | the in-place loops over the list compute the reference slotting |
| Slotting.RunIncreases | chatterbox-server/routes/files.py:566-594 | inside a run each entry starts where the one before it ends or later, and stays in its gap if and only if it fits |
| Slotting.SlottingInOrder | chatterbox-server/routes/files.py:550-594 | from ordered displayed cues the result is ordered and free of overlaps if and only if every standard entry fits its gap |
| CalibratedText.SlotGiven | chatterbox-server/routes/files.py:566-594 | a missed segment gets the part of its own timing that lies in what is free of the gap, its own timing if that lies past it, and else two seconds cut at the end of the gap unless nothing is left |
| Slotting.MonotonicTimingFails | chatterbox-server/routes/files.py:580-594 | a full gap breaks the promised order |
| Calibration.Reanchor | chatterbox-server/routes/files.py:480-498 | the double loop with its skips finds what the row-by-row scan finds |
| Calibration.NearestIs | chatterbox-server/routes/files.py:480-498 | re-anchoring finds a pair if and only if the window of ten cues and ten lines holds one; it is a nearest one, and of those the one that skips the fewest cues |
| Calibration.AlignSegments | chatterbox-server/routes/files.py:444-547 | the walk, the window cut and the slotting together compute the reference result |
| MergeConservation.WalkInOrder | chatterbox-server/routes/files.py:463-515 | the walk takes every displayed cue and every standard segment once and in order, and pairs only what matches |
| WalkPairs.WalkIsGreedy | chatterbox-server/routes/files.py:463-515 | from each position the present pair is taken if it matches, else the best in the window, and no pair if there is none |
| MergeConservation.DisplayedTimingKept | chatterbox-server/routes/files.py:444-547 | the displayed-based entries of the result are exactly the displayed cues in order with untouched timing |
| MergeConservation.StandardWindowKept | chatterbox-server/routes/files.py:517-545 | the standard segments of the result are exactly those from the first matched to the last matched one, once and in order |
| MergeConservation.WindowedEnds | chatterbox-server/routes/files.py:517-545 | the cut list neither begins nor ends with a standard entry |
| MergeConservation.NoOpenGap | chatterbox-server/routes/files.py:562-563 | every standard entry has a displayed-based entry on both sides, so the open-ended branches of slotting are dead |
| MergeConservation.CalibratedInOrder | chatterbox-server/routes/files.py:444-594 | the calibrated file is ordered and free of overlaps if and only if every inserted segment fits its gap |
| CalibratedText.DisplayedTextKept | chatterbox-server/routes/files.py:444-547 | every displayed cue is in the result in order with its timing: a matched one with the text of a line that matches it, another one with its own text if it stands between matched ones and with none otherwise |
| CalibratedText.MissedSegmentShown | chatterbox-server/routes/files.py:517-594 | every inserted entry is a standard segment with its text, timed from that segment's own timing and the gap |
| JobQueue.NothingIsLost | chatterbox-server/jobqueue.py:166-215 | over every interleaving of any number of processes, once a boot has followed the last crash, each pending job has a token that some process holds, even if the Valkey list is lost, and each processing job is run by a worker |
| JobQueue.OneProcessing | chatterbox-server/jobqueue.py:259-296 | with one process at most one job is processing, and it is the worker's current one |
| JobQueue.BootRecovers | chatterbox-server/jobqueue.py:88-132 | from any state whatever, boot leaves no processing job, makes pending exactly what was pending or processing, and gives each a token |
| JobQueue.PendingCanStart | chatterbox-server/job_worker.py:199-288 | a pending job that no worker is busy with is started by the process that holds its token alone, which works through the Valkey list and its own queue in their order |
| JobQueue.StartsAtMostEnqueued | chatterbox-server/job_worker.py:238-247 | with any duplication of tokens and any number of consumers a handler starts at most as often as the job was made pending |
| JobQueue.WithdrawnNeverStarts | chatterbox-server/jobqueue.py:542-557 | a job that is cancelled, deleted or finished never starts until it is enqueued again |
| JobQueue.CancelledStaysIff | chatterbox-server/job_worker.py:210-288 | with at least one process, cancelled stays cancelled over all runs if and only if the handler can be loaded and no worker is running or rejecting the job |
| JobQueue.SubmissionKeptIff | chatterbox-server/job_worker.py:210-288 | with at least one process, a pending job stays pending until it is started, over all runs in which nobody asks for anything else, if and only if the handler can be loaded and no worker is running or rejecting the job |
| JobQueue.ResubmissionSwallowed | chatterbox-server/jobqueue.py:480-540 | cancelling and resubmitting a running job in any process makes it pending and counts as a new enqueue, and it can end without having started |
| JobRows.CompletedIff | chatterbox-server/job_worker.py:264-288 | a job becomes completed if and only if a handler of it returns, whatever its row says by then |
| JobRows.FailedIff | chatterbox-server/job_worker.py:210-277 | a job becomes failed if and only if a handler of it raises or could not be loaded |
| JobRows.ProcessingIff | chatterbox-server/job_worker.py:238-247 | a job is processing from the claim of a worker that finds it pending |
| JobRows.PendingIff | chatterbox-server/jobqueue.py:88-215 | a job becomes pending if and only if it is submitted, its checked resubmission is committed, or a boot recovers it |
| JobRows.CompletedReturned | chatterbox-server/job_worker.py:264-288 | every job that a run completes had a handler that returned in that run |
| JobRows.FailedRaised | chatterbox-server/job_worker.py:210-277 | every job that a run fails had a handler that raised, or could not be loaded, in that run |
| JobRows.ResubmitIff | chatterbox-server/jobqueue.py:480-540 | a resubmission makes a job pending if and only if it had failed, was cancelled, or was completed and edited or given a checkpoint |
| JobRows.OverStaysIff | chatterbox-server/jobqueue.py:495-557 | a deleted or completed job stays so over all runs without a new submission, edit or deletion if and only if it is not marked as edited, its handler can be loaded, no worker is running or rejecting it and no request has passed the check |
| JobRows.TakesFirst | chatterbox-server/jobqueue.py:276-286 | the list and the queues are taken from in order, the queue only when the list is empty or out of reach |
| Pipeline.Job.RunStep | chatterbox-server/pipeline.py:289-325 | a step is skipped when marked; otherwise its artifact is written and then it is marked |
| Pipeline.Job.InvalidateAfter | chatterbox-server/job_checkpoint.py:85-149 | exactly the later steps lose their marks and their files; an unknown step only loses its own mark |
| Pipeline.Job.RunFull | chatterbox-server/pipeline.py:895-947 | a full run is the reference run, and fails its validation if and only if a label is given and audio was marked at its start |
| Pipeline.MarkedIsDone | chatterbox-server/video_util.py:196-209 | marking a step makes it done and changes no other step |
| Pipeline.ResumeEqualsReference | chatterbox-server/pipeline.py:289-517 | after any history of crashes between any two actions, resumptions, edits and deletions, a complete run leaves the artifacts of one run from scratch in which the standing edits, and what was made from an edit that was deleted, replace their steps |
| Pipeline.CrashesDoNotMatter | chatterbox-server/pipeline.py:289-517 | any schedule of crashes and resumptions that completes equals one clean run |
| Pipeline.EditRestarts | chatterbox-server/job_checkpoint.py:85-149 | after an edit and any crashes, earlier artifacts are kept and all later ones are those of the pipeline restarted from the edited one |
| Pipeline.LaterFilesGone | chatterbox-server/job_checkpoint.py:85-149 | after an edit no later step of the OCR pipeline has a file |
| Pipeline.MarksAfter | chatterbox-server/job_checkpoint.py:85-127 | a known step voids the marks of the later steps only, an unknown one its own |
| Pipeline.CopyEditIsLost | chatterbox-server/routes/files.py:771-774 | saving the copied SRT is undone by the next complete run |
| Pipeline.DeletionRebuildsOneStep | chatterbox-server/job_checkpoint.py:44-82 | deleting one file of a finished job rebuilds that artifact and no other |
| Pipeline.FullIsWellFormed | chatterbox-server/config.py:186-196 | the OCR pipeline's steps stand in the canonical order and pass its helper, so the results apply to it |
| ModelLoad.LoadsNeverOverlap | gen_audio/gen_audio_daemon.py:266-306 | for any number of threads no two are loading at once |
| ModelLoad.SomeoneCanGo | gen_audio/gen_audio_daemon.py:164-178 | no reachable state with a thread inside is deadlocked |
| ModelLoad.EveryoneGetsOut | gen_audio/gen_audio_daemon.py:266-306 | no wake-up is lost: once nobody asks any more, every schedule ends after a bounded number of steps, with everyone out |
| ModelLoad.ExclusionIfAlone | gen_audio/gen_audio_daemon.py:152-178 | for any number of threads, while at most one is in the load section, no generation overlaps a load |
| ModelLoad.TwoLoadersBreach | gen_audio/gen_audio_daemon.py:279-306 | the run in which the first of two loaders clears the flag of the second |
| ModelLoad.ExclusionIff | gen_audio/gen_audio_daemon.py:152-178 | exclusion holds over all runs if and only if there is one worker |
| ModelLoad.AllCanGenerate | gen_audio/gen_audio_daemon.py:152-178 | any number of threads can generate at the same time |
| Slots.SlotsConserved | translate/translate_daemon.py:316-438 | after any run free plus held slots make up each pool, and the active and watched counts equal the jobs between raising and lowering them |
| Slots.AnsweredAndReleasedOnce | translate/translate_daemon.py:322-438 | statement by statement, wherever the body raises, whether the NPU answers or falls back, and whether the submit works: a request is answered once and its slot is released exactly as often as acquired, at most once |
| Slots.RaisesLate | gen_audio/gen_audio_daemon.py:481-561 | nothing can raise before the active count is raised and the guard armed, so the cleanup never lowers too much |
| Slots.GateBeforeAnswer | gen_audio/gen_audio_daemon.py:503-548 | a translation or speech job gets to its successful answer only through the thermal gate |
| Slots.RoutingIff | translate/translate_daemon.py:408-438 | a request gets the NPU slot if and only if one is free, a GPU slot if and only if all NPU slots are held, one is free and it is no ensure_model or there is no NPU slot, and busy otherwise |
| Slots.EveryoneCloses | translate/translate_daemon.py:322-398 | every request can go on until it ends, after a bounded number of steps besides waits at the thermal gate, and then all slots are free and nothing is active or watched |
| ThermalGate.Gate.DoPoll | gpu_thermal.py:134-176 | the fields keep telling the whole history of calls, and the poll stops the daemon if and only if the history says so |
| ThermalGate.Gate.SetBlocked | gpu_thermal.py:141-148 | the gate closes at the limit, opens at the cooldown target, and stays as it is in between |
| ThermalGate.HotStreakStep | gpu_thermal.py:149-166 | the counter counts idle-hot polls since the last idle poll that was not hot |
| ThermalGate.BlockedIffDeadBand | gpu_thermal.py:141-148 | the gate tells the last reading outside the dead band over every run if and only if cooldown is below the limit |
| ThermalGate.StopsIff | gpu_thermal.py:134-176 | a poll stops the daemon if and only if it is free and either enough idle polls have found it hot since one did not, or the timeout armed last and not disarmed since has passed |
| ThermalGate.BusyPollsKeepStreak | gpu_thermal.py:149-166 | polls during a job leave the streak alone |
| ThermalGate.CriticalStops | gpu_thermal.py:149-164 | on a critical machine every idle poll counts and the threshold's poll stops the daemon, grace or not |
| ThermalGate.HotPollIff | gpu_thermal.py:114-166 | a poll counts as hot if and only if the daemon is free and one sensor, whatever the other reads, is critical, or warm with the last grace over or ended |
| ThermalGate.SinceMeans | gpu_thermal.py:205-228 | a thread's job started when its last mark armed it, and it has none when that disarmed it or there is none |
| ThermalGate.Guard.Stuck | gpu_thermal.py:220-228 | stuck are exactly the threads whose last mark is an arming longer ago than the timeout |
| RateLimiter.Limiter.Check | chatterbox-server/valkey_util.py:192-206 | a call is refused if and only if `limit` accepted calls of its key lie in the window that ends now; the store never exceeds its cap, and history is forgotten only when it is full of live keys |
| RateLimiter.Limiter.Cleanup | chatterbox-server/valkey_util.py:208-216 | dropping stale keys loses nothing, and eviction ends at the cap without touching the key just recorded |
| RateLimiter.WindowsObeyLimit | chatterbox-server/valkey_util.py:192-206 | no window of that length anywhere holds more than `limit` accepted calls of a key |
| RateLimiter.CountInIs | chatterbox-server/valkey_util.py:192-206 | the count is the number of accepted calls later than the start of the window and not after its end |
| SplitText.LastSentenceEnd | gen_audio/gen_audio.py:279-284 | the loop over the separators finds the rightmost sentence end whatever their order |
| SplitText.Split | gen_audio/gen_audio.py:269-298 | the loop ends with the reference pieces for every text and positive limit |
| SplitText.CutIsRightmost | gen_audio/gen_audio.py:279-288 | a cut at a sentence is the rightmost one in its window |
| SplitText.SentenceEndIs | gen_audio/gen_audio.py:279-284 | a sentence ends after a full stop, exclamation or question mark that a space, a line break or both line-break characters follow |
| SplitText.ChunksFit | gen_audio/gen_audio.py:269-298 | no chunk is empty or longer than the limit |
| SplitText.NothingIsLost | gen_audio/gen_audio.py:286-298 | the text is chunk, white space, chunk, white space and so on: nothing else is dropped and nothing inside a chunk changes |
| TranslateSrt.FindCuts | translate/translate_srt.py:275-282 | the cuts are the first intro and the last outro |
| TranslateSrt.TranslateFile | translate/translate_srt.py:257-300 | one block per valid block with its index and time, the text emptied exactly up to the intro and from the outro on |
| TranslateSrt.MeantIs | translate/translate_srt.py:275-300 | each block keeps its index and time; it has no text up to the first block with the intro marker and from the last with the outro marker on, and its translation otherwise |
| TranslateSrt.FileIs | translate/translate_srt.py:284-300 | the file is its blocks with one empty line between them and a line break at the end |
| TranslateSrt.ReadBlocksAreClean | translate/translate_srt.py:261-273 | every block read from any file has at least two non-empty lines with non-blank ends |
| TranslateSrt.RereadIff | translate/translate_srt.py:261-300 | blocks are read back as written if and only if all are clean and the file has tight ends |
| TranslateSrt.TranslationRereadIff | translate/translate_srt.py:284-300 | the translated file is read back as meant if and only if every text put in fits its block |
| DirIndex.Collector.Collect | chatterbox-server/oldrun.py:87-135 | the early return and the loops compute the reference outcome: lists, changed flag and saved index |
| DirIndex.ChangedIff | chatterbox-server/oldrun.py:91-135 | a call reports a change if and only if it scanned, and then the saved index is what it returns |
| DirIndex.SortIsStable | chatterbox-server/oldrun.py:108-133 | entries of the same name keep their order |
| DirIndex.CallRightIff | chatterbox-server/oldrun.py:87-135 | after any history of calls the lists are sorted and equal a full rescan if and only if the directories that have gone since the last full scan held nothing |
| DirIndex.AddingIsRescan | chatterbox-server/oldrun.py:115-125 | while directories are only added every call returns a full rescan |

## Left out

- Speech synthesis, OCR, translation models and similarity: a take is any WAV, a translation any function, `_pair_matches` any predicate, a pipeline step any function of the artifacts before it.
- Floating point: times and stretches are reals, so rounding and millisecond formatting are not captured; calibration times are whole microseconds.
- ffmpeg, sockets, subprocesses, process killing, SQLite and Valkey internals: a statement is one step on a map, a batch plays its pieces, and a batch without a video stream, which the program skips with a warning, does not occur.
- CacheHistory.EditTruthIff: a WAV file is written whole; a half-written one, which the program cannot read and generates again, does not occur.
- The `is_subtitle` flag, speaker prefixes (`extract_speaker`) and voice prompts: segments are their cleaned contents.
- Database errors and a worker thread that dies of its own: the queue's steps succeed, and a crash takes the whole process.
- JobQueue.NothingIsLost: speaks of the time after a boot has followed the last crash; in between, with several processes, a job whose token only the crashed process held waits for that boot.
- JobQueue.NothingIsLost: the graceful stop (jobqueue.py:559-591), which empties the in-memory queue while the process goes on serving, is not modelled; its jobs wait for the next boot.
- JobQueue.BootRecovers: a boot is one step, although several processes may boot at once.
- The push of a token to the Valkey list is a step that may happen at any time, repeatedly or never, which covers more than the program does.
- Pipeline edits while a run is under way: marking reads and rewrites the checkpoint column, and a save in between could be lost; edits stand between runs here.
- Spurious wake-ups of condition variables, which Python's do not have; the copying of a model's conditionals counts as a generation.
- Slots: dispatch is one step, although it tries two semaphores in turn.
- RateLimiter.Limiter.Check: the clock does not run backwards, and the Valkey-backed limiter is not modelled.
- SplitText.Split: only positive limits, since with a limit of zero the loop need not end.
- TranslateSrt.TranslateFile: a stop request in the middle, which writes nothing, is not modelled.
- DirIndex.Collector.Collect: the three kinds are given by an arbitrary scan of each directory; the classification by file name and the pickle file are left out.
- HangGuard.watch, which turns stuck jobs into signals, and the thermal sensors themselves.
- `_merge_unique`, `_build_atempo_filter`, checkpoint clearing by file-name pattern, job listings and the web routes: easy members or plumbing.
