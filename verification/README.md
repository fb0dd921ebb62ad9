# Firekeep: sessions, delta restores, corpus ingest and replay reads

A Dafny model of four parts of Firekeep, and proofs about them.

**Bridge sessions and the distillation queue.** `SessionStore` is the Redis state
Bridge keeps about sessions (metadata hashes, one active pointer for each agent
label, the scored index) with each operation of `session.py` as a function on it.
`Protocol` turns it into a transition system: each command of a completion
(WATCH, reads, EXEC) and of a distillation pass is its own step, with a crash
possible anywhere; a guarded start or resume is split at the guard's reads, with
a resume's own checks and its session's label taken at the script; a dead letter's
requeue is split at every Redis call; start, resume, abandon, update, reap, sweep
and expiry are single steps. All results about runs are about every
finite sequence of these steps, by any number of processes, from the empty state.
`SessionManagers` and `DistillWorkers` are the same operations as classes whose
methods change the state command by command, with what other clients do between the
attempts of a retry loop as a parameter; `Uncontended` says that the two agree;
`DistillPasses` is what a whole pass and a requeue come to, `JobLineage` follows one
job and its retries, `ExactPointers` and `Lifecycle` the sessions, through whole
runs; `ResumeRaces` is about what happens between a resume's first read and its
script.

**Delta restores.** `Residency` is the filter and the high-water mark,
`SessionContents` what `update` writes, `Conversation` a conversation in which
anyone's writes, compactions and the five section reads of a restore interleave;
`Deliveries` says what of the session has been delivered, `RestoreGaps` and
`LostEntries` what can go missing. `CursorCodec` and `CursorTexts` are the cursor's
text form.

**Corpus ingest.** `PointIdentity` is the string a point id is hashed from,
`CorpusStore` the commands of one ingest, `GenerationSwap` any number of ingests
of any sources, one at a time for each source, each stopped between any two
commands. `Chunker` and `ChunkStrategies` are the four chunking strategies,
`ChunkMergings` and `ChunkSections` what each of them makes of a document.

**Replay reads.** `ReplayAuthz` is the visibility rule, `ReplayReader` the scoped
reads, `Narrowing` the walk back from a failure; `ReplayReads` and `NarrowingReach`
say what they answer in terms of the stored entries; `ReplayIsolation` and
`NarrowingIsolation` compare two stores that differ only out of a caller's sight.

`dafny verify dfyconfig.toml` checks the whole project.

## What the code does not keep

Some properties hold only under a condition. For each there is a lemma that
exhibits the failure, and one that gives the condition as an equivalence.

- `requeue_dlq` enqueues a job and then marks the session "queued" in a separate
  command. A worker may finish the job in between; the session is then marked
  queued and no entry names it (`StrandedRun.RequeueCanStrand`). No session is
  ever stranded exactly if every such write finds a live entry naming its session
  (`QueueSafety.NoneStrandedIff`); it does whenever workers leave the entry alone
  until then (`QueueSafety.LeftAloneRunsAreServed`).
- A late status write of a worker can recreate the hash of a session that has
  expired, with no other field in it. Resuming that hash makes it active, and its
  expiry leaves a pointer to nothing (`DanglingRun.PointerCanDangle`). The pointers
  are exact throughout a run exactly if no active session expires in it
  (`ExactPointers.PointersExactIff`).
- That resume also brings back a session that was over
  (`DanglingRun.OverCanComeBack`); the only other way is a new session drawing an
  id used before. At the protocol's steps, no session ever comes back exactly in
  the runs that do neither, the tame runs (`Lifecycle.OverStaysOverIff`).
- `resume_session` checks the session once, before the guard, and its script
  compares the pointer only. A completion in between is undone: the session ends
  up active, though queued (`ResumeRaces.CompletionInTheGapIsUndone`). A takeover
  in between leaves it under two labels' pointers
  (`ResumeRaces.TakeoverInTheGapIsShared`). Both can happen in a reachable state
  (`ResumeRaces.RacesAreReachable`). A resume that goes through brings back a
  session exactly if other clients ended or removed it since it was read, and
  makes a pointer wrong exactly if they made it active under a third label
  (`ResumeRaces.RacedResumeIff`).
- `get_session_data` reads the sections one after another. A decision written
  after the decisions were read, followed by a file record written before the
  files are, is older than the cursor's mark and withheld from the next delta
  although it was never delivered (`LostEntries.TornReadsLose`). The next delta is
  complete exactly when nothing older than the mark was missed
  (`RestoreGaps.DeltaCompletesIffReadWasClean`), as when no write landed between
  the reads (`Deliveries.UndisturbedTracks`).
- The shadow epoch is an ordinary scratch field. A full scratchpad may evict it,
  and a cursor from before the first compaction then matches again
  (`LostEntries.EvictedEpochLoses`). No stale cursor ever matches exactly if no
  step leaves an epoch that one of them carries
  (`RestoreGaps.StaleIsToldIff`).

`replay/reader.py` falls back on the newest 2000 entries of everyone for events
its id index does not know, so invisible events can decide whether a visible one
is found (`ReplayIsolation.UnindexedReadLeaks`). They decide no single-event read,
no context and no narrowing exactly if they push no visible, unindexed event out
of that window (`ReplayIsolation.EventReadsIsolatedIff`,
`ReplayIsolation.ContextsIsolatedIff`, `NarrowingIsolation.NarrowingsIsolatedIff`),
as when the index is complete. Timelines, summaries and batches never use the
fallback and are isolated without any assumption.

`replay/authz.py` calls its legacy rule the one Bridge applies; it is narrower
(`ReplayAuthz.VisibleRefinesOwnership`).

## Model

| member | source | states |
|---|---|---|
| Principal.OwnershipIsExclusive | auth/principal.py:47-77 | no two members own one session, and a recorded workspace pins the workspace |
| Principal.OwnersAre | auth/principal.py:47-77 | who owns, for each kind of record: the member in the workspace recorded, the member alone where none is, the deployment's owner where no member is |
| Completion.CompletionIsAtomic | bridge/app/session.py:772-865 | in every reachable state, the step that ends a completion has the effect and the answer of one atomic completion of the state it ran in, or, out of attempts, none; its other steps change nothing |
| Completion.ExecIsAtomic | bridge/app/session.py:813-861 | an EXEC none of whose watched keys changed does what an atomic completion would do to the state at EXEC |
| Completion.RunKeepsFaithful | bridge/app/session.py:779-832 | what a completer has read is still true of the store unless a watched key changed |
| Effects.CompletionMeans | bridge/app/session.py:833-861 | a completed session is queued and has its outcome, is unpointed by its own and the caller's label, and keeps owner, label and TTL; every other session, pointer and index entry is untouched |
| Effects.CompletionGrades | bridge/app/session.py:797-844 | the first result reported for a session with an owner is stored with its evidence and source and reported back; in every other case the record stays, the standing grade is reported, and a result is dropped exactly if one was submitted |
| Effects.CompleteRefusalsAre | bridge/app/session.py:774-796 | which refusal a completion gets, and when: not found, then another label's, then another owner's; a session that is over may be completed again |
| Effects.StartMeans | bridge/app/session.py:397-444 | after a start and its sweep the session exists, active under its label with exactly the owner given and nothing else on record; its label points at it, every other label is as it was; the displaced session is paused; any other is as it was, or swept though neither active nor queued |
| Effects.StarterOwns | bridge/app/session.py:402-422 | the new session is owned by the member and workspace the start was given, and by nobody else |
| Effects.AbandonMeans | bridge/app/session.py:903-944 | abandoning ends that session, releases its label and touches nothing else |
| Effects.AbandonRefusalsAre | bridge/app/session.py:903-925 | which refusal an abandonment gets, and when |
| Effects.ResumeMeans | bridge/app/session.py:1013-1092 | resuming moves the label, pauses the session it named, releases the session's former label, keeps its record |
| Effects.ResumeUndoesStart | bridge/app/session.py:160-183 | resuming the session a start displaced restores every pointer and that session's metadata |
| Effects.ResumeAllowedIff | bridge/app/session.py:1013-1043 | who may resume: the owner, a session not over, its own label or a takeover of one not active |
| Effects.ResumeRefusalsAre | bridge/app/session.py:1013-1043 | which refusal a resume gets, and when: ownership is settled before anything else is told |
| Effects.UpdateAllowedIff | bridge/app/session.py:492-544 | which session a write lands in, and that only an owner's write into a session not over is accepted; one without metadata takes writes through the label only |
| Effects.UpdateRefusalsAre | bridge/app/session.py:492-544 | which refusal a write gets, and when |
| Effects.UpdateMeans | bridge/app/session.py:546-597 | an accepted write changes nothing but the session's place in the index, and gives one without metadata a bare hash |
| Effects.WorkerWritesMean | bridge/app/session.py:1221-1232 | a status write marks its session alone, recreating a bare hash if there is none; a TTL needs a hash |
| Effects.ExpiryMeans | bridge/app/session.py:1224-1232 | only a session whose keys carry a TTL expires, and its pointers and index entry stay |
| Grades.FirstGradeWins | bridge/app/session.py:788-811 | two completers of one session that report a grade report the same one, whatever ran between them |
| Grades.FirstReportStays | bridge/app/session.py:797-861 | in every run, the first completer to report a result for an owned, ungraded session is answered with it, and its grade and evidence are on record for as long as the session exists |
| Grades.RecordStands | bridge/app/session.py:833-854 | while a session exists, its owner never changes, nor its grade and evidence once they stand |
| Grades.ReportedIsStored | bridge/app/session.py:885-897 | the grade a completion reports is the grade on record after it |
| Grades.OwnerlessNeverGraded | bridge/app/session.py:797-811 | a session no member owns never acquires a grade |
| ActivePointers.ActiveSessionIsPointed | bridge/app/session.py:145-192 | in every reachable state an active session is the one its label points at |
| ExactPointers.PointersStayExactIff | bridge/app/session.py:145-192 | of all steps, reused ids and bare hashes included, only the expiry of an active session makes a pointer wrong |
| ExactPointers.PointersExactIff | bridge/app/session.py:339-441 | the pointers are exact throughout a run exactly if no active session expires in it |
| ExactPointers.PointerNamesTheActiveSession | bridge/app/session.py:339-441 | after any such run, a label points at a session exactly when that session is active under that label |
| ExactPointers.TameRunsKeepActive | bridge/app/session.py:1083-1092 | no active session expires in a run that reuses no id and resumes no bare hash |
| Lifecycle.OverStaysOver | bridge/app/session.py:1013-1092 | in tame runs, a session that is completed, abandoned, evicted or expired is never active or paused again |
| Lifecycle.OverStaysOverIff | bridge/app/session.py:1013-1092 | no step of a run brings back a session that was over exactly if the run is tame |
| Lifecycle.SessionRevivedIff | bridge/app/session.py:1013-1055 | exactly which steps bring a session back that was over |
| Lifecycle.GuardedScriptPausesOnlyItsOwn | bridge/app/session.py:302-327 | in tame runs, a guarded start or resume pauses only a session its caller owns at that moment |
| PointerGuard.GuardedPauseWasAdmitted | bridge/app/session.py:372-390 | in every run, what a guarded script pauses is what the guard read as the caller's own or as having no metadata |
| PointerGuard.ScriptPausesChecked | bridge/app/session.py:147-155 | the scripts pause no session but the one named by the pointer value compared |
| PointerGuard.GivingUpWritesNothing | bridge/app/session.py:1056-1080 | a guard refused or out of attempts has written nothing, after at most five attempts |
| PointerGuard.BeatenGuardRetries | bridge/app/session.py:372-390 | a guard whose label moved starts over, and gives up exactly after its fifth beaten attempt |
| DanglingRun.PointerCanDangle | bridge/app/session.py:1221-1232 | a run ends in a pointer to a session that does not exist |
| DanglingRun.OverCanComeBack | bridge/app/session.py:1013-1055 | a run's next step brings back a session that was over |
| QueueSafety.NoneStrandedIff | bridge/app/distill_worker.py:197-251 | over every run, crashes included, a session marked queued always has an entry naming it that no worker is past, exactly if every requeue's status write finds such an entry |
| QueueSafety.NoneStrandedStaysIff | bridge/app/distill_worker.py:163-170 | of all steps, only a status write that finds none strands a session |
| QueueSafety.NoSessionStranded | bridge/app/session.py:845-854 | after any run whose status writes find live entries, no queued session is stranded |
| QueueSafety.LeftAloneRunsAreServed | bridge/app/distill_worker.py:144-170 | they do if no worker has a command on an entry before its requeue has written the status |
| QueueSafety.QueueStaysOk | bridge/app/distill_worker.py:173-251 | every entry has 0 to 9 attempts, and workers hold faithful copies of entries |
| QueueSafety.StatusWriteIsSafeIff | bridge/app/distill_worker.py:163-170 | a requeue's status write strands nobody exactly when a live entry names its session |
| QueueSafety.ImmediateStatusIsServed | bridge/app/distill_worker.py:144-170 | and if the write directly follows its enqueue |
| StrandedRun.RequeueCanStrand | bridge/app/distill_worker.py:163-170 | a run strands a session between those two writes |
| Eviction.SweepRemovesExactly | bridge/app/session.py:1159-1209 | the newest maximum entries stay; a candidate goes exactly if it has no metadata, is over and not queued, or is paused while the index exceeds twice the maximum; left above that, every candidate is active or queued |
| Effects.SmallIndexIsKept | bridge/app/session.py:1159-1162 | an index within the maximum is not swept |
| Eviction.EvictAllThins | bridge/app/session.py:1159-1209 | a sweep changes no hash it leaves, no pointer, and drops no active session or undistilled completion |
| SweepRuns.IndexStaysOrdered | bridge/app/session.py:1159-1209 | in every reachable state the index lists a session at most once, lowest score first |
| SweepRuns.NewestSurvive | bridge/app/session.py:1159-1209 | in every reachable state the entries a sweep spares unconditionally are those most recently active |
| SessionManagers.SessionManager.EnforceMaxSessions | bridge/app/session.py:1159-1209 | the loop computes the sweep |
| SessionManagers.SessionManager.GuardPointer | bridge/app/session.py:302-327 | refuses exactly when the label's active session exists and is another member's |
| SessionManagers.SessionManager.StartScript | bridge/app/session.py:145-158 | compare-and-set: writes nothing when the pointer moved, else pauses and repoints |
| SessionManagers.ScriptTriesEnd | bridge/app/session.py:372-390 | whatever other clients do between guard and script, a start or resume ends at the first of five attempts at which the label's session is another member's, or whose label nobody moved: by a refusal that writes nothing or by one whole commit; five beaten attempts write nothing |
| SessionManagers.SessionManager.StartSession | bridge/app/session.py:339-454 | the retry loop, other clients at work in every attempt, computes those tries |
| SessionManagers.SessionManager.ResumeScript | bridge/app/session.py:160-183 | compare-and-set: writes nothing when the pointer moved, else pauses the displaced session and moves both labels |
| SessionManagers.SessionManager.ResumeSession | bridge/app/session.py:960-1098 | refuses without effect, or computes those tries under the label first read |
| ResumeRaces.RacedResumeIff | bridge/app/session.py:1013-1092 | whatever other clients do, a resume that goes through brings back a session exactly if they ended or removed it since its first read, makes a pointer wrong exactly if they made it active under a third label, and is the protocol's resume if it kept its label |
| ResumeRaces.RacedResumeMeans | bridge/app/session.py:160-183 | what the script and the writes behind it leave, whatever the store has become: target, displaced session, both labels, index, and nothing else |
| ResumeRaces.ResumePointsExactlyIff | bridge/app/session.py:160-183 | the script and the writes behind it keep pointers exact unless the session is active under a label neither the caller's nor the one first read |
| ResumeRaces.ResumeBringsBackIff | bridge/app/session.py:1083-1092 | and bring back a session exactly if the target is over or gone |
| ResumeRaces.CompletionInTheGapIsUndone | bridge/app/session.py:1013-1092 | a completion between first read and script ends up active |
| ResumeRaces.TakeoverInTheGapIsShared | bridge/app/session.py:1013-1092 | a takeover there leaves the session under two labels' pointers |
| ResumeRaces.RacesAreReachable | bridge/app/session.py:1013-1043 | a run ends in a state in which both can happen |
| SessionManagers.CompleteTriesEnd | bridge/app/session.py:772-871 | whatever other clients do between reads and EXEC, a completion ends at the first of eight attempts that is refused or in which no watched key was written: without a trace, or as the atomic completion of the state it commits to; eight spoiled attempts write nothing |
| SessionManagers.SessionManager.CompleteSession | bridge/app/session.py:772-897 | the retry loop computes those tries, and a commit adds its queue entry |
| SessionManagers.SessionManager.AbandonSession | bridge/app/session.py:903-944 | refuses without effect or abandons |
| SessionManagers.SessionManager.Update | bridge/app/session.py:492-546 | the checks in the source's order compute that refusal and that effect |
| SessionManagers.SessionManager.ReapPass | bridge/app/reaper.py:48-127 | reaps the candidates; the count is the number of sessions that were active before and are abandoned after |
| SessionManagers.ReapAllAbandons | bridge/app/reaper.py:85-115 | a pass abandons every active candidate and changes no other session |
| SessionManagers.ReapAllReleases | bridge/app/reaper.py:85-115 | it drops exactly the pointers by which an abandoned session's own label names it, and the index entries of candidates without metadata |
| SessionManagers.IdleEntriesAre | bridge/app/reaper.py:66-81 | the candidates are the front of the index, which is in order (`SweepRuns.IndexStaysOrdered`): scored at or below the cutoff, as many as are asked for or all there are |
| Uncontended.CompletionAlone | bridge/app/session.py:772-871 | with nobody else at work, a completer's six protocol steps are the first attempt of that loop, queue entry and answer included |
| Uncontended.GuardAlone | bridge/app/session.py:302-390 | a guarded start or resume's four steps end as its loop does |
| Uncontended.StartAlone | bridge/app/session.py:339-454 | the protocol's single step of an unguarded start is the method's effect |
| Uncontended.ResumeAlone | bridge/app/session.py:960-1098 | so is that of a resume |
| Uncontended.OthersAlone | bridge/app/session.py:468-546 | so are those of writes, abandonments, reaps, sweeps and expiries |
| Uncontended.RequeueAlone | bridge/app/distill_worker.py:92-170 | the four steps of a requeue take the oldest dead letter: a malformed one goes back, one whose session is gone is dropped, any other becomes a fresh entry and its session is queued |
| DistillWorkers.DistillWorker.ProcessEntry | bridge/app/distill_worker.py:184-251 | one due entry: its status, TTL, retry or dead letter, then its deletion |
| DistillWorkers.DistillWorker.ProcessQueueOnce | bridge/app/distill_worker.py:173-253 | a pass processes the due entries among the first hundred and counts the successes |
| DistillWorkers.WorkerStepsAddUp | bridge/app/distill_worker.py:190-251 | the protocol's worker steps, uninterrupted, are that processing |
| DistillPasses.ProcessOneMeans | bridge/app/distill_worker.py:190-251 | one due entry: it leaves the queue; its session is marked and set to expire, and a letter kept, or one retry with its delay is appended, or nothing else, by whether the session is there, was distilled, failed for good or for the tenth time, or may be tried again |
| DistillPasses.PassMeans | bridge/app/distill_worker.py:173-251 | after a pass the queue is what was not due, what was not fetched, and the retries in order; the letters are those of the entries given up, latest first |
| DistillPasses.PassSettles | bridge/app/distill_worker.py:215-234 | each session is as its last settling entry leaves it, or as it was |
| DistillPasses.SuccessesCount | bridge/app/distill_worker.py:179-253 | a pass reports the number of due entries it distilled |
| DistillPasses.BackoffIs | bridge/app/distill_worker.py:236 | the nine delays, from 10 to 2560 seconds |
| DistillWorkers.ProcessingSpendsBudget | bridge/app/distill_worker.py:190-251 | the tries left to all entries together fall at each processed entry |
| JobLineage.TenTriesAtMost | bridge/app/distill_worker.py:28-33 | however the worker's turns and other jobs interleave, a job and its retries are tried at most ten times, with at most 5110 seconds of scheduled delay, and no entry is left after the tenth |
| JobLineage.TryUnder | bridge/app/distill_worker.py:217-251 | a try leaves one retry, counted and scheduled by the backoff, exactly if the session is there, the failure is not permanent and the try was not the tenth |
| JobLineage.JobEndsWhy | bridge/app/distill_worker.py:195-251 | a job without an entry was distilled, failed for good, lost its session, or was tried ten times |
| JobLineage.PassIsTurns | bridge/app/distill_worker.py:173-253 | a pass is a sequence of such turns: every entry it fetched is still there at its turn |
| DistillWorkers.ScheduledDelays | bridge/app/distill_worker.py:236-240 | the backoffs before the n-th retry sum to 10(2^n - 1), at most 5110 |
| DistillWorkers.DistillWorker.RequeueRecord | bridge/app/distill_worker.py:101-170 | the fate of one popped record, each of its four calls failing or not; a failed status write still counts as requeued |
| DistillWorkers.DistillWorker.RequeueDlq | bridge/app/distill_worker.py:92-170 | pops the oldest records, each once, whatever is pushed meanwhile; counts each under one fate; the dead letters after are those before plus arrivals less what was sent on, expired or lost |
| DistillPasses.FateMeans | bridge/app/distill_worker.py:101-170 | what each combination of record and failing calls leads to: what is pushed back, enqueued, marked and counted |
| DistillPasses.ForwardMeans | bridge/app/distill_worker.py:92-170 | what a whole requeue enqueues, in order, and which sessions it marks |
| DistillWorkers.NothingLost | bridge/app/distill_worker.py:92-170 | with every restore succeeding, what leaves the dead letters was requeued or expired |
| Residency.HighWaterOf | bridge/app/residency.py:36-47 | the mark is the newest stamp anywhere in the session, and none if nothing is stamped |
| Residency.KeepSince | bridge/app/residency.py:150-157 | the kept entries of a list |
| Residency.KeptItemsAre | bridge/app/residency.py:74-92 | an entry is kept unless it is provably older than the mark |
| Residency.KeptUnlessOlder | bridge/app/residency.py:74-92 | an entry is dropped exactly if both times parse, are of one kind, and its own is the earlier |
| Residency.DeltaIs | bridge/app/residency.py:139-173 | a delta keeps each list in order and multiplicity but for what is older than the mark, each file not older, the plan unless its digest is the cursor's, and the scratchpad in full |
| Residency.FilterSince | bridge/app/residency.py:95-173 | a delta is served exactly for a cursor of this session and epoch with a mark and well-shaped data, and is that; otherwise the data come back as they are; the report counts what was withheld |
| SessionContents.Contents.Update | bridge/app/session.py:546-597 | what a write of each category does to plan, lists and hashes, with its evictions, its refusals and its count |
| SessionContents.WroteMeans | bridge/app/session.py:546-597 | an accepted write, category by category: the new entry comes first and the oldest beyond the window goes, the field is set and only surplus fields go, everything else is as it was; and the count reported |
| SessionContents.RefusalsAre | bridge/app/session.py:549-597 | exactly which writes are refused |
| SessionContents.Utf8SizeIs | bridge/app/session.py:549-551 | a plan's size is that of its UTF-8 text |
| SessionContents.Contents.GetSessionData | bridge/app/session.py:619-649 | every section as stored, the lists entry by entry from their other end |
| SessionContents.WritesStayWindowed | bridge/app/session.py:556-591 | no write outgrows the windows |
| SessionContents.PushEvictsTheOldest | bridge/app/session.py:556-560 | what a list loses to a write is no newer than anything it keeps |
| SessionContents.ListsStayNewestFirst | bridge/app/session.py:556-560 | the lists stay sorted, newest first |
| Conversation.GetShadow | bridge/app/mcp_server.py:797-867 | exactly when a delta is served and what it shows, the full document otherwise, and a cursor that always describes the full data; none after a failed epoch read |
| Conversation.DeltaCarries | bridge/app/residency.py:145-171 | exactly which pieces a delta carries |
| Conversation.ServeDelivers | bridge/app/mcp_server.py:797-867 | a response carries every piece read that was not delivered before |
| Conversation.RunKeepsInv | bridge/app/residency.py:95-173 | every cursor of the current epoch covers all it would withhold, through writes, evictions, reads and compactions |
| Deliveries.SessionIsDelivered | bridge/app/mcp_server.py:797-867 | after any response, every plan, decision, progress, file and scratch entry in the session has been delivered since the last compaction, in every run in which no write lands between a response's reads, no step revives a stale cursor and no plans collide |
| Deliveries.UndisturbedResponseDelivers | bridge/app/mcp_server.py:797-867 | the same after one response with undisturbed reads, if every earlier one that minted a cursor missed nothing older than its mark |
| Deliveries.QuietRunsAreHonest | bridge/app/residency.py:95-173 | such schedules meet the assumptions of the delta claim at every step |
| Deliveries.UndisturbedTracks | bridge/app/session.py:619-649 | with no write between them, the reads of a whole restore are the session as it is |
| Conversation.EverythingReadIsDelivered | bridge/app/mcp_server.py:797-867 | whatever the interleaving, everything a response has read has been delivered, if reads were clean and epochs told cursors apart at every response before |
| RestoreGaps.DeltaCompletesIffReadWasClean | bridge/app/session.py:619-649 | the next delta completes the agent's picture exactly when the reads behind its cursor missed nothing older than its mark |
| RestoreGaps.TornReadDropsADecision | bridge/app/session.py:619-649 | from any state between the reads of decisions and files, two writes lose a decision |
| LostEntries.TornReadsLose | bridge/app/session.py:619-649 | a run from an empty session does, with nothing else amiss |
| RestoreGaps.StaleIsToldUnless | bridge/app/session.py:651-666 | exactly which write, compaction or lost context makes a stale cursor match |
| RestoreGaps.StaleIsToldIff | bridge/app/session.py:651-666 | stale cursors are told apart throughout a run exactly if it takes no such step |
| RestoreGaps.CarefulEpochsTell | bridge/app/session.py:651-666 | unused epochs at announced compactions, and no other write to the field, are enough |
| RestoreGaps.EvictionRevivesACursor | bridge/app/session.py:582-591 | evicting the epoch field from any full scratchpad makes a stale cursor match |
| LostEntries.EvictedEpochLoses | bridge/app/session.py:582-591 | a run of undisturbed restores, a compaction and fifty notes loses a decision that way, the epoch being the oldest field |
| CursorCodec.CursorRoundTrips | bridge/app/residency.py:50-71 | a cursor decodes to the four fields it encodes, exactly if none has a high surrogate directly before a low one |
| CursorCodec.CursorReads | bridge/app/residency.py:50-71 | for all fields, what decoding an encoded cursor gives |
| CursorCodec.CursorsAreDistinct | bridge/app/residency.py:50-54 | different fields make different cursors |
| CursorCodec.PaddingReturns | bridge/app/residency.py:54-63 | stripped padding is restored from the length (section 5 of RFC 4648), and none is left in the cursor |
| CursorCodec.Base64Reads | bridge/app/residency.py:54-63 | base64url decodes what it encodes |
| CursorCodec.StringReads | bridge/app/residency.py:51-63 | a JSON string reads back with adjacent surrogates joined |
| CursorTexts.JsonIs | bridge/app/residency.py:50-53 | the JSON of a cursor, member by member |
| CursorTexts.Base64Is | bridge/app/residency.py:54 | each group of bytes and the characters for it stand for the same bits (section 4 of RFC 4648) |
| CursorTexts.CursorIsUrlSafe | bridge/app/residency.py:50-54 | a cursor consists of letters, digits, hyphens and underscores |
| CursorTexts.DecodesIff | bridge/app/residency.py:57-71 | which texts are taken for a cursor: an object of version 1 whose session and mark are strings |
| PointIdentity.IdsAreDistinct | corpus/store.py:91-102 | two chunks share an id only if workspace, source name, run and index agree, bars in source names included |
| PointIdentity.IdIs | corpus/store.py:91-102 | the string a point id is hashed from, field by field |
| CorpusStore.KeyIs | corpus/store.py:176-184 | for a chunk: the workspace, source and run of its ingest and its place |
| PointIdentity.BarsInWorkspacesCollide | auth/principal.py:14 | with bars in workspace ids they would not have to |
| CorpusStore.Store.StoreChunks | corpus/store.py:105-188 | stages the chunks gated, one upsert each |
| CorpusStore.StagingMeans | corpus/store.py:143-185 | the first upserts add the first chunks, with text and stamps, uncommitted, and change nothing else |
| CorpusStore.Store.IngestDocument | corpus/pipeline.py:99-160 | stage, commit, sweep, track, index, or the part its clients allow; stopped after any number of commands, the state is that of those commands; an empty document changes nothing |
| CorpusStore.IngestMeans | corpus/pipeline.py:120-160 | after a whole ingest its chunks are there, committed, the source's chunks of other runs are gone, every other point is as it was, and the record and the index name the source |
| GenerationSwap.IngestIsARun | corpus/pipeline.py:99-160 | an ingest cut off anywhere is a run of the transition system |
| GenerationSwap.CollectionFollowsTheLog | corpus/store.py:144-185 | in every run the collection holds exactly the staged chunks no sweep has overtaken, committed exactly if their run committed, and what was there before |
| GenerationSwap.RunsRecallWholeGenerations | corpus/store.py:191-230 | at every moment of every run, whatever chunk of a run recall finds belongs to a committed generation it finds whole |
| GenerationSwap.RunsRecallTheLatest | corpus/pipeline.py:118-150 | and the latest committed generation of each source is among them |
| GenerationSwap.RunsEndInOneGeneration | corpus/store.py:320-350 | once the last ingest of a source has swept, the source is its chunks and nothing else |
| GenerationSwap.RecallIsWholeGenerations | corpus/store.py:191-230 | whatever chunk recall finds belongs to a committed generation it finds whole |
| GenerationSwap.LatestCommittedIsWhole | corpus/pipeline.py:118-150 | the latest committed generation of each source is recallable in full |
| GenerationSwap.StagingIsInvisible | corpus/pipeline.py:120-131 | before its commit an ingest changes nothing recall sees |
| GenerationSwap.CommitIsOneStep | corpus/store.py:213-230 | the commit brings in its generation, whole and alone |
| GenerationSwap.SweptLeavesOnlyItself | corpus/store.py:320-350 | after its sweep a source consists of exactly the run's chunks |
| GenerationSwap.OthersUntouched | corpus/store.py:331-350 | no command touches another source or a memory |
| GenerationSwap.RecordsFollowTheLog | corpus/store.py:243-282 | a source's record counts the chunks of its last tracked ingest |
| Chunker.SplitLargeSegment | corpus/chunker.py:157-186 | both loops compute the specified split |
| Chunker.HardSplitShrinks | corpus/chunker.py:165-170 | each round of the hard split leaves a shorter text |
| Chunker.SplitLargeIs | corpus/chunker.py:157-186 | the parts keep every character in order and fit the larger of chunk size and longest sentence, the chunk size alone without sentence breaks |
| ChunkMergings.SplitIs | corpus/chunker.py:50 | paragraphs and sentences are what lies between the cuts: one at every break, over the whole run it starts |
| ChunkMergings.StripIs | corpus/chunker.py:29 | trimming removes the white space of both ends and nothing else |
| ChunkMergings.StrippedAre | corpus/chunker.py:50 | a blank part is dropped, any other trimmed, in order |
| ChunkMergings.LargeIs | corpus/chunker.py:157-186 | an oversized segment becomes blocks of whole sentences, each within the size or a single one, none that could have taken the next; without a second sentence it is cut by length |
| ChunkMergings.HardSplitCuts | corpus/chunker.py:161-172 | by length: where each part ends |
| Chunker.MergeSegments | corpus/chunker.py:189-230 | the merge loop computes the specified chunks |
| ChunkMergings.ExpandedAre | corpus/chunker.py:196-202 | segments within the size stay whole, longer ones are cut, in order |
| ChunkMergings.MergedAre | corpus/chunker.py:207-230 | each chunk is the tail of the one before and a block of whole segments, within the size or a single one, that could not have taken the next |
| ChunkMergings.TextsAre | corpus/chunker.py:210-223 | tail, blank line and segments make a chunk's text |
| ChunkMergings.TailIs | corpus/chunker.py:216-225 | what is carried: the overlap from its first word on, or nothing |
| Chunker.MergedCarries | corpus/chunker.py:216-224 | a carried tail is a suffix of the chunk before it, no longer than the overlap |
| Chunker.ParagraphsConserve | corpus/chunker.py:46-51 | paragraph chunks are the text, white space and carried tails aside |
| Chunker.ParagraphChunksFit | corpus/chunker.py:189-230 | no paragraph chunk outgrows the larger of chunk size and longest sentence by more than the overlap and two characters |
| Chunker.ChunksAreFull | corpus/chunker.py:208-224 | a chunk ends only where the next segment no longer fits |
| Chunker.SentencesAreFull | corpus/chunker.py:175-185 | joined sentences end only where the next one overflows |
| Chunker.SplitPointIs | corpus/chunker.py:165-168 | the hard split cuts at the last blank that leaves something before it, or at the limit |
| Chunker.TailStartsAtAWord | corpus/chunker.py:216-222 | a tail starts behind the first blank of the overlap window, or is the window |
| ChunkStrategies.CutSections | corpus/chunker.py:69-79 | the section loops cut the text at the positions |
| ChunkStrategies.InkSections | corpus/chunker.py:130-141 | sections keep every character in order |
| ChunkStrategies.SlicesStartAtMarks | corpus/chunker.py:75-79 | sections run from one mark to the next |
| ChunkSections.HeaderIff | corpus/chunker.py:58 | where a header stands |
| ChunkSections.EndpointIff | corpus/chunker.py:117-120 | where an endpoint stands: which methods, with what around them |
| ChunkSections.SectionIs | corpus/chunker.py:83-99 | a section within the limit is one chunk, a longer one its paragraphs, under its header if it is a wiki's, in what the header leaves but at least 50 |
| ChunkSections.SectionsAre | corpus/chunker.py:61-99 | one group of chunks for each section that is not blank, in order, with that section's text and no other's |
| ChunkStrategies.HeaderStaysOnTop | corpus/chunker.py:88-97 | a long wiki section's first chunk starts with its header |
| ChunkStrategies.ChunkWiki | corpus/chunker.py:61-99 | the wiki loop computes the specified chunks |
| ChunkStrategies.ChunkApiDoc | corpus/chunker.py:123-150 | so does the endpoint loop |
| ChunkStrategies.ChunkContent | corpus/chunker.py:12-39 | so does the choice of strategy |
| ChunkSections.PiecesAre | corpus/chunker.py:12-39 | what a document becomes, by its kind: cut at its endpoints, at its headers, one chunk, or cut into paragraphs |
| ChunkSections.PlainChunksFit | corpus/chunker.py:46-51 | where there are no sections no chunk outgrows the larger of chunk size and longest sentence by more than the overlap and two characters |
| ChunkSections.SectionedFits | corpus/chunker.py:83-99 | where there are, its header line may come on top, and 50 characters under a long one |
| ChunkStrategies.ChunksConserve | corpus/chunker.py:12-39 | for every strategy the chunks are the document in order, white space and carried tails aside, and there are none exactly for a blank document |
| ReplayAuthz.MembersSeeDisjointEvents | replay/authz.py:77-100 | no event is visible to two members or to two workspaces |
| ReplayAuthz.AdminsSeeTheWorkspace | replay/authz.py:62-100 | an admin reads exactly its workspace, a member no more |
| ReplayAuthz.VisibleRefinesOwnership | replay/authz.py:77-100 | replay's rule is Bridge's ownership rule, narrowed where one stamp is missing |
| ReplayAuthz.VisibleIff | replay/authz.py:62-100 | who sees an event, in full |
| ReplayReads.SeesIff | replay/authz.py:77-100 | in terms of the event's stamps |
| ReplayAuthz.UnverifiedSeesNothing | replay/authz.py:62-74 | an identity without workspace or member sees nothing |
| ReplayReader.GetEvent | replay/reader.py:195-226 | index first, then the newest 2000 entries |
| ReplayReads.EventOfIs | replay/reader.py:195-226 | a read answers with the entry the id index leads to, or else with the newest of the event among the newest 2000, if it is visible |
| ReplayReader.GetEventBatch | replay/reader.py:229-266 | request order and duplicates kept, missing and invisible events left out |
| ReplayReads.BatchIs | replay/reader.py:229-266 | id by id, the indexed event if it is visible |
| ReplayReads.IndexedIs | replay/reader.py:195-218 | the entry the id index leads to |
| ReplayReads.IndexIs | replay/reader.py:299-302 | a session without an index has no events |
| ReplayReader.GetSessionTimeline | replay/reader.py:113-138 | filter first, then page |
| ReplayReads.TimelineIs | replay/reader.py:113-138 | a page is a window of the visible events of the session and kind, in index order, with their number and whether more follow |
| ReplayReader.PagesAreTheTimeline | replay/reader.py:129-138 | pages are the visible events, each once, in order, with their number and whether more follow |
| ReplayReader.Summarize | replay/reader.py:308-340 | the counting loop computes the summary |
| ReplayReader.SummaryCounts | replay/reader.py:308-340 | each count is the number of events it names |
| ReplayReader.SummaryNames | replay/reader.py:308-340 | the agents and the failure flag are those of the events |
| ReplayReader.SummaryBounds | replay/reader.py:308-340 | first and last bound every timestamp and are timestamps of the events |
| ReplayReads.DurationIs | replay/reader.py:323-329 | a duration is given exactly if both ends parse to times of one kind, in whole milliseconds cut toward zero |
| ReplayReads.KindsAre | replay/reader.py:314-316 | the number of events of a kind, those without one being "unknown" |
| ReplayReads.OutcomesAre | replay/reader.py:317-318 | the number of events of an outcome; none are counted under no name |
| ReplayReader.GetSessionSummary | replay/reader.py:343-358 | a scoped summary is that of the visible events of the session |
| ReplayReader.GetContextAt | replay/reader.py:436-503 | the exact snapshot, or the nearest before it with the visible distance |
| ReplayReads.ContextAtIs | replay/reader.py:451-503 | which of the five answers is given, and when: an event's own snapshot, or the last before its place in the session index that the caller can see, with the number of visible events from there up to it |
| ReplayReads.SnapshotIs | replay/reader.py:457-459 | when an event has a snapshot, and which |
| ReplayReads.VisibleCountIs | replay/reader.py:480-484 | that number |
| ReplayReader.WalkFindsTheNearest | replay/reader.py:477-497 | the walk stops at the last earlier event the caller can see that has a snapshot, and counts the visible events from it on |
| ReplayReader.BatchIsVisible | replay/reader.py:229-266 | a batch returns only visible events that were asked for, and every indexed one of them |
| ReplayReader.TimelineIsVisible | replay/reader.py:129-138 | a page holds only visible events of the session and kind asked for |
| ReplayReader.TimelineIsComplete | replay/reader.py:129-138 | the full page holds every visible, indexed event of the session and kind |
| ReplayIsolation.CompleteFinds | replay/reader.py:195-226 | with a complete index an event is read exactly if it is stored and visible |
| ReplayIsolation.EventIsolated | replay/reader.py:195-226 | erasing invisible events changes no single-event read |
| ReplayIsolation.ContextIsolated | replay/reader.py:451-503 | nor a context with its gap count, if it changes no single-event read |
| ReplayIsolation.SessionReadsAlike | replay/reader.py:129-138 | two stores that differ only in invisible events give equal pages, totals and summaries, whatever their id indexes have missed |
| ReplayIsolation.ReadsAlike | replay/reader.py:451-503 | and, where the invisible push nothing visible and unindexed out of the recent window, equal single events and contexts |
| ReplayIsolation.CompleteIsSheltered | replay/reader.py:195-226 | as where the index is complete |
| ReplayIsolation.ContextsIsolatedIff | replay/reader.py:436-503 | invisible events decide no context exactly under that condition |
| ReplayIsolation.BatchesAlike | replay/reader.py:229-266 | equal batches, whatever the indexes have missed |
| ReplayIsolation.InvisibleEmitIsUnseen | replay/reader.py:195-305 | emitting an invisible event anywhere is such a difference |
| ReplayIsolation.UnindexedIsFoundIff | replay/reader.py:219-226 | an unindexed event is found exactly within the newest 2000 entries |
| ReplayIsolation.EventReadsIsolatedIff | replay/reader.py:195-226 | invisible events decide no single-event read exactly if they push no visible, unindexed event out of the recent window |
| ReplayIsolation.StoredEventIsolatedIff | replay/reader.py:195-226 | the same of the read of one event |
| ReplayIsolation.UnindexedReadLeaks | replay/reader.py:219-226 | invisible entries alone decide whether it is found |
| Narrowing.Narrow | replay/narrowing.py:75-143 | seeding, walk, ranking and cut-off compute the specified reply, on any link graph |
| Narrowing.VisitShrinks | replay/narrowing.py:108-117 | visiting a stored event leaves fewer unvisited ones, so the walk ends on cycles |
| Narrowing.SuspectsAreGrounded | replay/narrowing.py:86-138 | each suspect ends a real path of exactly its depth and scores the decayed product along it; none appears twice; best first |
| Narrowing.SuspectsFade | replay/narrowing.py:86-138 | with confidences in 0..1 a suspect at depth d scores at most 0.8^d and none is deeper than 20 |
| Narrowing.NothingPassedOver | replay/narrowing.py:106-132 | every readable seed is found, and every readable event behind an unpruned link of a suspect above the depth limit |
| Narrowing.NeighboursAreNear | replay/narrowing.py:166-205 | a temporal neighbour is a visible event of the session, stamped in the five seconds up to the failure |
| NarrowingReach.NeighboursAre | replay/narrowing.py:166-205 | and exactly those among the session's first 20 visible events are neighbours, in order |
| NarrowingReach.LinkSeedsAre | replay/narrowing.py:93-96 | the walk starts at every link of the failure, at 0.8 of its confidence or of 0.5 |
| NarrowingReach.NeighbourSeedsAre | replay/narrowing.py:98-105 | and then at every neighbour, at 0.24 |
| NarrowingReach.WalkReaches | replay/narrowing.py:93-131 | the walk goes level by level: what the failure links to and its neighbours are found one hop away, what is worth following from a suspect no more than one further |
| NarrowingReach.WalkCounts | replay/narrowing.py:107-131 | the count of visits is the number of ids there was reason to visit, readable or not |
| NarrowingReach.RankedIs | replay/narrowing.py:133-134 | the ranking is by the score shown, and where that is equal by the order of the walk |
| NarrowingReach.ReplyIs | replay/narrowing.py:75-163 | the reply is the best of that ranking, as many as were asked for or all, with the count and the flags |
| NarrowingIsolation.NarrowingsAlike | replay/narrowing.py:75-143 | suspects, scores, order, visit count and flags do not depend on invisible events, where those push nothing out of the recent window |
| NarrowingIsolation.NarrowingsIsolatedIff | replay/narrowing.py:75-143 | and exactly there |
| NarrowingIsolation.NarrowingsFollowReads | replay/narrowing.py:75-143 | nor do they depend on anything but the single-event reads and timelines |

## Left out

- Completion.CompletionIsAtomic: the session id is an argument; the pointer lookup that resolves a missing one is not watched and not part of a completion here.
- ExactPointers.PointersExactIff: at the protocol's steps. Start, resume, abandon, update, reap and sweep are single steps, since the source does not watch their commands, and a guarded resume takes its checks and its session's label at the script; `ResumeRaces` has what can happen in between.
- ExactPointers.PointersStayExactIff: at the protocol's steps, as above.
- ExactPointers.PointerNamesTheActiveSession: at the protocol's steps, as above.
- Lifecycle.OverStaysOverIff: at the protocol's steps, as above.
- Lifecycle.SessionRevivedIff: at the protocol's steps, as above.
- Lifecycle.OverStaysOver: tame runs, at the protocol's steps, as above.
- QueueSafety.NoneStrandedIff: the reader of the queue is the worker loop, by any number of processes; stream entries are deleted by id only.
- JobLineage.TenTriesAtMost: of entries processed to their end; a crash between a retry's enqueue and the deletion of its entry leaves both, as the source says, and each goes on from its own count. How late a pass looks at a due entry is up to the loop.
- DistillWorkers.DistillWorker.RequeueDlq: the loop of one process; a crash between a pop and its restore loses the record, which the source does not claim to prevent.
- Deliveries.SessionIsDelivered: assumes that writers' stamps do not decrease and that plans of one session do not collide under the digest; the other conditions are on the schedule, with their own lemmas.
- SessionManagers.SessionManager.StartSession: other clients act between guard and script; the writes behind a script that went through are one step with it, as in the protocol.
- SessionManagers.SessionManager.ResumeSession: other clients act between the first read and the first guard and between each guard and its script; the writes behind the script are one step with it.
- SessionManagers.SessionManager.CompleteSession: other clients act between the first read and EXEC; `Completion.CompletionIsAtomic` has them between any two commands.
- CursorCodec.CursorRoundTrips: the reader accepts the compact flat objects the encoder writes; other JSON, and base64 text with foreign characters, is refused here and might be read by Python.
- GenerationSwap.OthersUntouched: a source is its name; the commit and sweep filters carry no workspace, so equal names in two workspaces are one source, as in the code.
- GenerationSwap.CollectionFollowsTheLog: a run's point ids are assumed to be nobody else's; a memory whose text is itself such an id string would share the point, which a fresh uuid rules out.
- CorpusStore.Store.IngestDocument: a vector client without a raw handle, which never commits, is not modelled.
- Narrowing.SuspectsFade: scores before rounding, as real numbers; `round` is a parameter that only the ranking uses.
- Narrowing.Narrow: the scoped walk; a link without a target does not occur.
- ChunkStrategies.ChunksConserve: requires a positive chunk size; with a size of zero the hard split does not end.
- ReplayReader.GetSessionTimeline: the scoped path with non-negative offset and limit; the unfiltered path of in-process workers is not modelled.
- Eviction.SweepRemovesExactly: entries of equal score keep the order they were indexed in, where Redis orders them by id.
- Session contents are kept apart from session metadata: `SessionManagers.SessionManager.Update` decides whether a write is accepted, `SessionContents.Contents.Update` what it writes. TTLs are one flag for each session, and expiry removes the metadata.
- Redis, Qdrant and the distiller: maps, sequences and atomic filter operations; calls that fail are parameters or crash points.
- The uuid5 and SHA-256 digests: points are keyed by the string that is hashed, plans by a digest that is a parameter.
- Stamps: a place in string order and the parsed time; that ISO strings in UTC sort as the clock does is assumed.
- Rendering of the shadow document, notices, replay emission from sessions, eval and skill triggers, prior art and proactive recall.
- Deleting a source, listing sources and the bulk delete of a dex prefix: single filters.
- Owner lookup for evals (`get_session_owner`) and the workspace check `session_in_workspace`: single-branch reads.
- HTTP and MCP routing, key management, member removal, vault, client kit, dashboards and release scripts.
