# PreTeXt.Plus: verified models

PreTeXt.Plus is a web application in which authors write documents, build them into outputs on a
build server, and publish what comes back. These Dafny files model five parts of it and prove what
those parts are for. `dafny verify dfyconfig.toml` checks everything.

- **Builds** (`Builds`, `BuildFacts`, `BuildQueue`, `TargetPointers`, `ImportAccounting`,
  `BuildRuns`, `BuildRows`, `Outcomes`, `Retention`, `BulkBuild`, `BuildTheorems`, `Claims`,
  `Imports`, `Finality`, `Overload`, `Turns`, `Serving`, `Rechecks`, `StepEffects`, `StepMeanings`,
  `RowMeanings`, `ImportWindow`, `LateAnswers`, `LostPrevious`, `LostOutput`, `Dashboard`, `AnsiLog`,
  and `Texts`, `Options`). A `World` is what the database and the job queue hold for one author, and `Step` is one atomic step of any actor: the author, the submission job, the webhook, the
  status check, the recheck job, the importer, the log fetcher. Work that waits for the build
  server is split in two steps with a job in between, so anything may happen while it waits; the
  server's replies are inputs. `Dashboard` has the same steps as methods over records changed in
  place, each proved equal to its function. The theorems are about every run of any length.
- **Backups** (`Backups`). The four-tier rotation, as the descending loop over rows and memo, and
  as one line about a list.
- **Projection** (`Projection`, `ProjectionRun`, `ProjectionColumns`, `ProjectionLaws`). Writing a collaborative
  document into a project's rows through Rails' nested attributes, and why it does not matter
  which runs of it were skipped.
- **Publication file** (`PublicationFile`, `PublicationTree`, `PublicationOrder`). From options set at three levels to
  a tree of XML elements.
- **Outputs and assets** (`OutputNames`, `ProjectOutputs`, `OutputMeanings`, `AssetMigration`,
  `AssetConservation`, `AssetReferences`, `AssetMeanings`).
  The search for free names and slugs, and the migration that gave every asset one project.

Assumptions: creation times strictly increase (a build's id is its creation time); one author with
a fixed cap owns everything in a `World`; ids drawn at random are new; in a document an id is of
one kind only, entries keep the optional fields they once had, and tombstones are never cleared.

## What the code does not guarantee

Each of these fails at the input named first, and the lemma named second says for every input when
it does and when it does not.

- *A free slot goes to whoever waits.* Deleting a running build promotes nobody
  (`LateAnswers.DeleteLeavesSlotIdle`; `BuildTheorems.DestroyLeavesSlotIdleExactlyWhen`).
- *Builds start in the order they were asked for.* A build created while a slot is idle starts at
  once, past one that has waited longer (`Turns.LaterBuildOvertakes`;
  `Turns.OvertakesExactlyWhen`).
- *No more run than the cap allows.* A submission job that runs late puts a canceled build back in
  flight beside the one in its slot (`LateAnswers.SubmissionRevivesCanceledBuild`;
  `Overload.StepGoesOverCapExactlyWhen`).
- *An outcome is final.* A cancel answered late turns an imported success into a canceled build
  (`LateAnswers.LateCancelOverwritesSuccess`; `Finality.OutcomeIsFinalExactlyWhen`).
- *A finished build is imported once.* A status check answered late claims it again
  (`LateAnswers.LateCheckImportsTwice`; `Imports.ImportedAgainExactlyWhen`).
- *A callback that is sent again does nothing.* A webhook faster than the answer to the submission
  is overwritten by that answer, so its repetition imports the build again
  (`LateAnswers.RepeatedCallbackImportsTwice`; `Claims.LaterCallbacksDoNothingExactlyWhen`).
- *Scrubbing a log again changes nothing.* Deleting one sequence may complete another
  (`AnsiLog.ScrubIsNotIdempotent`; `AnsiLog.ScrubbedOnceExactlyWhen`, and
  `AnsiLog.WholeLogsAreScrubbedOnce` for logs without stray escapes).
- *The build "Restore previous build" falls back to is kept.* Two live builds and a flagged one are
  enough to lose it (`LostPrevious.PruningLosesPrevious`; `Retention.PruningKeepsPreviousExactly`).
- *What readers see only moves forward.* An import that fails once its pruning is under way can
  leave an output with nothing to serve, though nobody touched the build it was serving
  (`LostOutput.FailedImportTakesOutputOff`; `Serving.SentBackExactlyWhen`).
- *Every backup is within its tier's threshold.* A pause of four hours is still felt ten minutes
  after the rotation that follows it (`Backups.PauseIsStillFelt`;
  `Backups.ThresholdsHoldExactlyWhen` for one rotation of any list, and
  `Backups.TiersHoldExactlyWhenHourly` for every rotation of a run).
- *Only the last projection of a document matters.* A document that asks for the root division to
  go is not obeyed, and then what an earlier projection wrote to the root stays
  (`ProjectionLaws.RemovedRootKeepsWhatWasWritten`;
  `ProjectionLaws.EarlierProjectionIsAbsorbedExactlyWhen` for one earlier projection,
  `ProjectionLaws.OnlyTheLastProjectionMatters` for any run of them).

Comments and messages that say something else than the code, where the models follow the code:

- app/controllers/build_callbacks_controller.rb:26-34 calls the guard of the status check symmetric
  to its own; the check's reload (app/services/build_status_checker.rb:60) stops only for a build
  already claimed, not for one that has an outcome.
- app/controllers/builds_controller.rb:57 tells an author who accepts a flagged build that readers
  now see it; they do exactly if nothing newer is live (`StepMeanings.AcceptingServesExactlyWhen`).
- app/jobs/full_build_log_job.rb:26-30 re-marks a build so as to keep its status; that can also
  start another build (`StepMeanings.FetchingALogChangesNothingElseExactlyWhen`).
- app/services/project_backup.rb:3-12 speaks of a backup that has outgrown its tier being replaced;
  the code also gives up the most recent backup when none has.

## Model

| member | source | states |
|---|---|---|
| BuildTheorems.SlotsAreUsedAndRespected | app/models/build.rb:57-65 | over every run: in flight never exceeds the cap by more than the outcomes brought back; a build waits only while the cap is reached, counting the slots that deletions left idle and nothing has taken since; with neither, exactly min(cap, unresolved) are in flight |
| BuildTheorems.BuildsStartOnceAndInOrder | app/models/build.rb:166-175 | over every run no build is handed to `start!` twice and no queued one ever was; with no running build destroyed, builds start in creation order and none overtakes a waiting one |
| BuildTheorems.DestroyLeavesSlotIdleExactlyWhen | app/models/build.rb:153-158 | wherever no slot was idle beside a queued build, a destroy leaves one so if and only if the destroyed build was running, one was queued and exactly the cap were running |
| BuildTheorems.ReadableBuildsWereNeverFlaggedOrApproved | app/models/ability.rb:9-11 | over every run, a build the public rule lets be read is live, the newest live one of its output, in a project that is not private, and was never flagged at any point unless the author accepted it while it was under review |
| BuildTheorems.ColumnsAgreeAndPrivateMeansUnpublished | app/models/project.rb:151-156 | over every run both columns of every output are the newest build and the newest live one, and a private project has nothing published |
| BuildTheorems.ApprovalComesFromTheAuthor | app/controllers/builds_controller.rb:48-58 | a recorded approval means that at some step of the run the author accepted the build and it was awaiting review just then |
| BuildTheorems.FlagsStay | app/models/build.rb:90-102 | a build once flagged as built with errors stays flagged while it exists |
| Claims.BackInFlightExactlyWhen | app/jobs/full_build_job.rb:16-75 | an outcome or a claimed build is put back to waiting exactly by its submission job or the accepting answer to its submission, and an outcome is claimed exactly by the answer to a check that reports output; nothing else does either |
| Claims.CallbackDoesNothingExactlyWhen | app/controllers/build_callbacks_controller.rb:17-67 | a callback that carries an outcome changes nothing at all if and only if the build is gone or not waiting |
| Claims.LaterCallbacksDoNothingExactlyWhen | app/controllers/build_callbacks_controller.rb:26-35 | once a callback has recorded an outcome, callbacks do nothing at every point of what follows, if and only if no step puts the build back to waiting |
| Claims.ChecksAreAskedForInTime | app/services/build_status_checker.rb:27-52 | a check comes to wait for its answer only while its build is undecided, and only an answer takes one away |
| Claims.ImportsAreClaims | app/services/build_status_checker.rb:60-88 | a step enqueues exactly one import of a build if it claims its output -- a callback with output for a waiting build, or a check's answer with output for one not already claimed -- and otherwise none; what a claim writes is in `StepEffects.CallbackRecords` and `StepEffects.CheckReplyRecords` |
| Claims.ImportsAreBounded | app/services/build_status_checker.rb:53-63 | over every run, imports of a build are at most one, plus one each time it came to wait again, plus one for each outcome a check claimed; with every check answered before anything else happens, there are none of the last |
| Imports.ImportedAgainExactlyWhen | app/services/build_status_checker.rb:60-88 | over every run from any state a build is imported exactly as often as steps claim its output, each in the state it meets; so it is imported again if and only if one does |
| Imports.ImportedLateExactlyWhen | app/services/build_status_checker.rb:53-63 | in particular, where no step puts it back to waiting, a build already answered for is imported again if and only if a check claims it after its outcome |
| Finality.OutcomeIsFinalExactlyWhen | app/services/build_canceller.rb:31-58 | a build keeps its status over every continuation, whatever arrives, if and only if it is decided and none of its jobs can still change that: no submission, check or import under way, an import waiting only beside a success or a cancel, a cancel waiting only beside a cancel |
| Finality.FinalStaysFinal | app/controllers/build_callbacks_controller.rb:17-67 | no step changes a final outcome or leaves a job behind that could |
| Overload.StepGoesOverCapExactlyWhen | app/models/build.rb:57-65 | a step leaves more in flight than before and than the cap, if and only if all slots were taken and it brings an outcome back |
| Turns.OvertakesExactlyWhen | app/controllers/builds_controller.rb:140-146 | a step starts a build while an older one goes on waiting if and only if it creates one, singly or in bulk, where a slot is free and a build is queued; every other start is of the build queued longest |
| Serving.SentBackExactlyWhen | app/models/target.rb:270-281 | a step makes an output serve something older, or nothing, if and only if it deletes or reverts what is served, marks it anew from a job that did not look, or fails an import whose pruning has already destroyed it; any other step leaves it served or serves something newer |
| Serving.ServedOnlyMovesForward | app/models/target.rb:270-281 | so over every run without such a step an output goes on serving what it served or something newer |
| Rechecks.RechecksEnd | app/jobs/build_recheck_job.rb:56-107 | over every run, whatever the build server does, at most eleven rechecks of a build run; one outstanding is the only one of its build and bears the number of the looks so far plus one |
| Rechecks.RechecksGoOn | app/jobs/build_recheck_job.rb:56-70 | nor do they stop early: over every run a build that was started has its next recheck outstanding, or has had all eleven, or one of them left it finished or gone |
| StepEffects.RecheckLooksAndComesBack | app/jobs/build_recheck_job.rb:56-107 | a recheck asks the server exactly about a build sent to it that has an address, fails exactly one whose import stalled, with the notice after its log, and comes back with the next number exactly while the build is there, on its way, and it was not the eleventh |
| StepEffects.CallbackRecords | app/controllers/build_callbacks_controller.rb:17-67 | a callback for a waiting build leaves it received or failed as the report says, flagged if and only if it was or the report is of a failure with output, with the tail or the notice as its log, and asks for the import of output and for a longer log; any other callback does nothing |
| StepEffects.CheckReplyRecords | app/services/build_status_checker.rb:54-92 | the answer to a check records exactly the same for every build that is there and not yet received, and asks for the import; otherwise only the check is over |
| StepEffects.CheckRequestAsks | app/services/build_status_checker.rb:27-52 | a check is asked for exactly of a build with an address that is neither a success, failed nor canceled |
| StepEffects.SubmissionMarks | app/jobs/full_build_job.rb:16-17 | the submission job puts its build in progress whatever its status and touches no other column of it |
| StepEffects.SubmissionAnswerMarks | app/jobs/full_build_job.rb:56-75 | the answer marks it sent, with the address if one came, or failed, and touches no other column |
| StepEffects.CancelRequestAsks | app/services/build_canceller.rb:31-58 | a cancel refuses a decided build, ends one without an address there and then, and otherwise asks the server |
| StepEffects.CancelAnswerMarks | app/services/build_canceller.rb:41-58 | the answer cancels the build with the notice as its log, unless the server keeps it |
| StepEffects.AcceptingFlags | app/controllers/builds_controller.rb:48-58 | accepting raises the second flag exactly on a success with the first and without the second |
| StepEffects.ImportBegins | app/jobs/full_build_artifact_job.rb:35-50 | an import begins exactly for a build that is there and neither a success nor canceled |
| StepEffects.ImportLeaves | app/jobs/full_build_artifact_job.rb:50-91 | it leaves its build a success or failed, in the timeout's case with the notice after the log it had read, unless a pruning takes the build |
| StepEffects.FetchedLogIsKept | app/jobs/full_build_log_job.rb:14-34 | the whole log replaces what was kept of it exactly if what came is not blank; the status stays |
| StepEffects.CreatingAdds | app/controllers/builds_controller.rb:140-146 | a new build is pending, with its submission and first recheck, if fewer than the cap are in flight, and else queued with neither |
| StepEffects.DeletingRemoves | app/models/build.rb:153-158 | deleting removes that row alone, no job, and nothing of an output but its pointers |
| StepEffects.PublishingSets | app/models/target.rb:378-383 | publishing is refused for an output that serves nothing, otherwise sets the flag and makes a private project unlisted if it was not set before, and changes nothing else |
| StepEffects.VisibilitySets | app/models/project.rb:538-542 | a visibility is set as given, and going private unpublishes exactly the outputs of that project |
| StepEffects.EditingStamps | app/models/project.rb:524-526 | an edit stamps its project later than every build so far and changes nothing else |
| StepEffects.AddingAppends | app/controllers/targets_controller.rb:24-30 | an output is added last, unpublished and with nothing built |
| StepMeanings.EndingHandsTheSlotOn | app/models/build.rb:135-175 | within the cap, a running build that gets an outcome hands its slot to the build queued longest and no other; with nobody waiting, the slot is free |
| StepMeanings.CancelEndsExactlyWhen | app/services/build_canceller.rb:31-58 | a cancel with nothing in between ends an undecided build, with the notice as its log, unless the server keeps it; a decided one it refuses; others are untouched but for promotion |
| StepMeanings.AcceptingServesExactlyWhen | app/controllers/builds_controller.rb:48-58 | accepting does nothing unless the build awaits review, makes it live, serves it if and only if nothing newer is live, and done twice is done once |
| StepMeanings.PublishingServesExactly | app/controllers/targets_controller.rb:42-60 | after publishing readers can read exactly the output's current build, after unpublishing nothing of it, and of other outputs what they could |
| StepMeanings.VisibilityOnlyHides | app/models/project.rb:538-542 | a change of visibility hides the whole project if it is to private, and otherwise changes nothing anyone can read |
| StepMeanings.ImportServesWhatItBrings | app/jobs/full_build_artifact_job.rb:35-83 | a finished import makes its build a success whatever became of it; if that is live and nothing newer is, the pruning keeps it and readers get it |
| StepMeanings.FetchingALogChangesNothingElseExactlyWhen | app/jobs/full_build_log_job.rb:14-34 | a fetched log that is not blank replaces that build's log and nothing else, unless the build is decided and another waits beside an idle slot, which then starts |
| BuildRuns.StepKeepsInvariant | app/models/build.rb:135-175 | every step of every actor keeps the queue discipline, the agreement of both denormalized columns, privacy and the import account |
| BuildRuns.ReachableWorldsAreInvariant | app/models/target.rb:270-281 | so does every run from a fresh account |
| BuildRuns.StartedOnlyGrows | app/models/build.rb:166-175 | one mark starts at most one build, one that was queued before it |
| BuildQueue.QueueAfterMark | app/models/build.rb:135-145 | a permitted mark keeps order, capacity and first-come-first-served |
| BuildQueue.QueueAfterCreate | app/controllers/builds_controller.rb:140-146 | so does creating a build |
| BuildQueue.QueueAfterDestroy | app/models/build.rb:153-158 | so does destroying one, once its slot is counted as idle |
| TargetPointers.AgreementAfterMark | app/models/target.rb:270-281 | after a mark every target's latest and current build are the newest build and the newest live candidate |
| TargetPointers.AgreementAfterDestroy | app/models/build.rb:76-77 | so after a destroy |
| TargetPointers.ReadableBuildsAreLive | app/models/ability.rb:9-11 | in any agreeing world a readable build is live, the newest live one of its output, and not in a private project |
| TargetPointers.LiveOutputOnlyMovesForward | app/models/target.rb:270-281 | marking any build but the served one leaves the served one, or moves to the marked build, which is then live and newer |
| TargetPointers.RevertLandsOnPreviousLive | app/controllers/targets_controller.rb:99-110 | revert does nothing without an earlier live build, and otherwise lands exactly on it and removes one row |
| TargetPointers.RowReadsTheNewestBuild | app/models/target.rb:170-197 | a row reads never exactly when nothing was built, and otherwise what the newest build is; if that is live it is the one served, and the row reads stale exactly if the source was edited after it, else warned exactly if it was flagged, else current |
| RowMeanings.EditingMakesStale | app/models/target.rb:168-190 | once its source is edited, every output of a project whose newest build is live reads stale, and every other row what it read |
| RowMeanings.CandidatesAre | app/models/target.rb:208-213 | building in bulk picks, in dashboard order, exactly the outputs without builds, or if there are none exactly those whose newest build is live and older than the last edit |
| TargetPointers.PrivacyAfterPublish | app/models/target.rb:378-383 | publishing never leaves a published output in a private project |
| TargetPointers.PrivacyAfterVisibility | app/models/project.rb:538-542 | nor does changing a project's visibility |
| ImportAccounting.AccountsAfterClaim | app/controllers/build_callbacks_controller.rb:37-55 | claiming a build uses up the claim it had or the revival the claim is |
| Outcomes.EveryChangeIsExplained | app/models/build.rb:121-145 | every step leaves a build alone, promotes it, or changes its status as the table of causes says; flags only go up and only an accept records an approval |
| Outcomes.StepsAboutOthers | app/models/build.rb:166-175 | a step about one build leaves any other untouched, promotes it out of the queue or prunes it away, counts nothing for it and adds no job of it unless it was queued |
| Outcomes.MarkingItself | app/models/build.rb:135-145 | what a mark writes to the build itself, and that no promotion undoes it |
| BuildRows.OnlyCreatingAdds | app/controllers/builds_controller.rb:102-121 | only creating and building in bulk add build rows |
| BuildRows.NothingReturns | app/models/build.rb:153-158 | a destroyed build never comes back |
| BuildRows.NewBuildsAreFresh | app/controllers/builds_controller.rb:140-146 | a build that appears is unflagged, unapproved, without URL or log, and pending or queued |
| Retention.PruningIsInvisible | app/models/target.rb:308-319 | after each single destroy of a pruning both denormalized columns, every row state, every slot and the queue are what they were |
| Retention.PruningKeepsTheWindow | app/models/target.rb:308-319 | a pruning leaves exactly the kept window: all unresolved builds and at most four others, nothing of other targets touched, and pruning again does nothing |
| Retention.PruningLeavesExactly | app/models/target.rb:308-319 | of an output's builds a pruning leaves exactly the undecided ones, the newest, what is served, and successes with at most one success after them; all of other outputs |
| ImportWindow.ImportPrunes | app/jobs/full_build_artifact_job.rb:78-82 | with its own build a success, a finished import leaves a build if and only if, put back, it is inside that window, or of another output |
| Retention.PruningKeepsPreviousExactly | app/models/target.rb:287-289 | the build restore would fall back to survives if and only if it is one of the two newest successes (or there is none) |
| BulkBuild.BulkFillsSlotsInOrder | app/controllers/builds_controller.rb:102-121 | with k free slots, exactly the first min(k, n) candidates start and the rest queue, in candidate order |
| BulkBuild.RowsAfterBulk | app/models/target.rb:179-197 | every candidate's row then reads building or queued, every other row as before |
| BulkBuild.ThirdBuildAllDoesNothing | app/models/target.rb:208-213 | building all a third time with nothing in between starts and queues nothing |
| LateAnswers.LateCheckImportsTwice | app/services/build_status_checker.rb:60-78 | the run in which a late check imports a build twice |
| LateAnswers.LateCancelOverwritesSuccess | app/services/build_canceller.rb:41-47 | the run in which a late cancel overwrites an imported success |
| LateAnswers.RepeatedCallbackImportsTwice | app/jobs/full_build_job.rb:58-61 | the run in which the answer to the submission overwrites a claim and a repeated callback imports the build again |
| LateAnswers.DeleteLeavesSlotIdle | app/models/build.rb:153-158 | the run in which deleting the running build leaves the only slot idle beside a queued one |
| LostPrevious.PruningLosesPrevious | app/models/target.rb:287-319 | the run in which the pruning after a flagged third build destroys the one restoring would fall back to |
| LostOutput.FailedImportTakesOutputOff | app/jobs/full_build_artifact_job.rb:78-91 | the run in which the pruning of an import that then fails destroys the build being served, and the output serves nothing |
| Turns.LaterBuildOvertakes | app/controllers/builds_controller.rb:140-146 | the run in which a build asked for later starts while an earlier one waits |
| LateAnswers.SubmissionRevivesCanceledBuild | app/jobs/full_build_job.rb:16-17 | the run in which a late submission puts a canceled build in flight over the cap |
| Dashboard.Records.Mark | app/models/build.rb:135-145 | the write, the sync and the promotion, done in place, are the function `Marked`; the mutual recursion with the promotion ends |
| Dashboard.Records.PromoteNextQueuedBuild | app/models/build.rb:166-175 | the guarded promotion of the oldest queued build is the function `Promoted` |
| Dashboard.Records.BuildAll | app/controllers/builds_controller.rb:102-121 | the loop over the candidates, each against the state the last one left |
| Dashboard.Records.PruneBuilds | app/models/target.rb:308-319 | the loop of destroys outside the kept window |
| Dashboard.Records.Take | app/models/build.rb:121-145 | any step on the records is `Step` on the model and keeps the invariant |
| AnsiLog.ScrubRecoversText | app/models/build.rb:67-73 | scrubbing any interleaving of text and control sequences gives exactly the text |
| AnsiLog.ScrubIsSubsequence | app/models/build.rb:135-136 | scrubbing invents and reorders nothing, whatever the log |
| AnsiLog.MatchIsTheLongest | app/models/build.rb:73 | what is deleted at a place is at least as long as any text there that the pattern describes |
| AnsiLog.MatchIsInPattern | app/models/build.rb:73 | and is itself such a text: a CSI sequence, or an OSC string with or without its terminator |
| AnsiLog.ScrubFixesExactlyCleanLogs | app/models/build.rb:73 | a log is left as it is if and only if no control sequence starts in it |
| AnsiLog.ScrubIsNotIdempotent | app/models/build.rb:73 | scrubbing twice may remove more |
| AnsiLog.ScrubbedOnceExactlyWhen | app/models/build.rb:73 | scrubbing twice is scrubbing once if and only if no kept character comes to begin a sequence with what is kept after it |
| AnsiLog.WholeLogsAreScrubbedOnce | app/models/build.rb:67-73 | in particular for every log in which each escape character met begins a whole sequence |
| Backups.ProjectBackup.PromoteAgedBackups | app/services/project_backup.rb:48-66 | the descending loop moves every backup below the gap up one tier and empties `recent` |
| Backups.ProjectBackup.Promote | app/services/project_backup.rb:57-60 | one turn of it: destroy, retier, and the memo |
| Backups.ProjectBackup.Destroy | app/services/project_backup.rb:57 | one backup per tier after a destroy |
| Backups.ProjectBackup.Retier | app/services/project_backup.rb:58 | one backup per tier after a retier |
| Backups.ProjectBackup.Insert | app/services/project_backup.rb:68-77 | one backup per tier after a snapshot |
| Backups.ProjectBackup.Rotate | app/services/project_backup.rb:25-42 | a rotation happens exactly when due, refines the list operation and keeps the occupied tiers a prefix |
| Backups.GapIsWherePromotionStops | app/services/project_backup.rb:54-55 | the loop's two `next` conditions hold exactly above the gap |
| Backups.GivenUpIsTheOldestOutgrown | app/models/project.rb:105-114 | the backup given up is the oldest tier's that outgrew it, or the most recent when none did |
| Backups.RotationOfFullList | app/models/project.rb:105-114 | of four backups a rotation gives up the daily one once it is a day old, else the three-hourly once three hours, else the hourly once an hour, else the recent one; the others keep their order |
| Backups.RotationGivesUpExactlyOne | app/services/project_backup.rb:48-66 | nothing is lost while there is room; from four, exactly the one in the gap |
| Backups.ThresholdsHoldExactlyWhen | app/models/project.rb:105-114 | after a rotation of any list whatever, every tier past `recent` is within its threshold if and only if each backup it moves up is younger than the threshold of the tier it moves to |
| Backups.ThresholdsHoldExactlyWhenRecent | app/models/project.rb:105-114 | so where the thresholds held at the last rotation, they hold at the next if and only if it comes less than an hour later |
| Backups.TiersHoldExactlyWhenHourly | app/services/project_backup.rb:3-12 | over every run the thresholds hold after each rotation if and only if every pause between rotations is under an hour |
| Backups.PauseIsStillFelt | app/models/project.rb:105-114 | the run of three rotations, four hours and then ten minutes apart, that leaves a tier past its threshold |
| Backups.BackupsStayOrderedAndBounded | app/services/project_backup.rb:3-12 | after n rotations there are min(n, 4), strictly older in older tiers, the newest in `recent` |
| Backups.VisitsKeepUpWithEdits | app/services/project_backup.rb:34-40 | over every run of the job, with edits in between, the backups are what the due rotations made, and there is one as recent as the last edit seen |
| Projection.AttributesAre | app/services/project_doc_projection.rb:80-158 | the builders give an id at most one entry: its removal, or the fields of a surviving entry, an asset only if the project holds it; the fields column by column are in `ProjectionColumns.RowSaysWhatTheEntrySays` |
| ProjectionColumns.RowSaysWhatTheEntrySays | app/services/project_doc_projection.rb:80-150 | after a projection every entry not removed stands in a row of its kind, and each column of it is the entry's own field, or for a field it does not carry the fallback (`pretext`, the empty text) or what the row or the schema had |
| ProjectionColumns.RemovedRowsAreGone | app/services/project_doc_projection.rb:152-156 | a row the document removes is gone, unless it is the root, which stays as it is |
| ProjectionColumns.UnnamedRowsStay | app/services/project_doc_projection.rb:33-78 | an id the document does not name keeps its row, or stays without one |
| ProjectionColumns.ProjectSaysWhatTheDocumentSays | app/services/project_doc_projection.rb:44-61 | title and docinfo are the document's, or blank; a setting it does not carry is kept |
| ProjectionRun.TolerateClientMintedIds | app/models/project.rb:455-478 | the loop keeps exactly the entries whose id is in the collection it grows, and grows it by exactly the minted ids |
| ProjectionRun.KeepRootDivision | app/models/project.rb:487-497 | only an entry naming a root loses its removal |
| ProjectionRun.AssignNested | app/models/project.rb:53-67 | assigning and saving changes exactly the rows entries name |
| ProjectionRun.ProjectKind | app/models/project.rb:53-67 | for every id the whole pipeline gives what row, entry and tombstone alone determine |
| ProjectionRun.ProjectRecord.Apply | app/services/project_doc_projection.rb:33-78 | a projection writes the closed form, or nothing when there is no document or the save is refused |
| ProjectionLaws.RootsAndAssetsAreLeftAlone | app/models/project.rb:480-497 | no projection moves, makes or removes a root, makes an asset or changes a kind |
| ProjectionLaws.ProjectingAgainChangesNothing | app/services/project_doc_projection.rb:13-16 | applying the same document twice is applying it once |
| ProjectionLaws.EarlierProjectionIsAbsorbedExactlyWhen | app/services/project_doc_projection.rb:13-16 | projecting an earlier document first makes no difference, if and only if the later one has not removed a root the earlier one wrote to |
| ProjectionLaws.OnlyTheLastProjectionMatters | app/services/project_doc_projection.rb:22-26 | after any skipped, repeated or refused earlier runs the last projection leaves the rows it would have left alone, if and only if the accepted ones left every root it removes as it was |
| ProjectionLaws.RemovedRootKeepsWhatWasWritten | app/models/project.rb:480-497 | for any project and any changing entry of its root, two documents for which absorption fails |
| PublicationFile.EffectiveChoice | app/models/publication/settings.rb:45-48 | an option's effective value is the lowest level's, unless it is withheld |
| PublicationFile.LowestLevelSays | app/models/publication/settings.rb:45-48 | the value heeded is that of a level that sets the option, with no level below it that does |
| PublicationFile.ChosenExactlyWhen | app/models/publication/settings.rb:45-48 | a level sets a value exactly if its last assignment to the option is that value |
| PublicationFile.AttributesByPath | app/services/publication_file_builder.rb:58-79 | the two loops over defaults and settings are the ordered writes on `BASE` |
| PublicationFile.WroteAllFacts | app/services/publication_file_builder.rb:58-79 | what stands at a path and attribute is the last value written there, else what stood before; paths stay distinct |
| PublicationTree.PlantedFound | app/services/publication_file_builder.rb:84-89 | one planting changes what is found at its own path, creates its missing ancestors, and nothing else |
| PublicationTree.TreeIsFaithful | app/services/publication_file_builder.rb:95-99 | every path in use comes out as exactly one element with exactly what was placed there, no other path at all |
| PublicationTree.OrderDoesNotMatter | app/services/publication_file_builder.rb:84-89 | the order in which paths were collected changes nothing that is found |
| PublicationOrder.PathsComeInOrder | app/services/publication_file_builder.rb:58-79 | paths are collected in the order in which they are first written to |
| PublicationOrder.PlantedKeepsOrder | app/services/publication_file_builder.rb:84-89 | at any depth a planting adds its element last among its siblings, or leaves them in place |
| PublicationOrder.ElementsComeInOrder | app/services/publication_file_builder.rb:95-99 | the outermost elements come in the order in which the paths first need them |
| PublicationTree.BaseSays | app/services/publication_file_builder.rb:31-38 | what every file starts from, at every path and attribute |
| PublicationTree.FileSays | app/services/publication_file_builder.rb:34-38 | an attribute reads as the last choice, else the default, else `BASE`, which so survives exactly where nothing else writes |
| PublicationTree.OptionsReachTheFile | app/models/publication/settings.rb:45-48 | from the three levels to the file: an option with a place of its own reads as the lowest level says, the empty marker as an empty value |
| PublicationTree.BuildFile | app/services/publication_file_builder.rb:45-48 | the file built by the loops reads, at every path below the root and for every attribute, as the last choice, else the default, else `BASE`, and no path comes out as two elements |
| OutputNames.SearchSlug | app/models/target.rb:355-365 | the loop ends at the least free suffix |
| OutputNames.SearchName | app/models/target.rb:332-345 | so does the one for default names, compared in lower case |
| OutputNames.Pigeonhole | app/models/target.rb:355-365 | with n texts taken, one of the first n + 1 candidates is free |
| ProjectOutputs.SlugBaseIsLegalExactly | app/models/target.rb:371-376 | the base of a slug matches `REF_REGEX` if and only if the name starts with a letter, or the kind in front of it does not start with a digit; what it says of the name is in `OutputMeanings.BaseIsTheWords` |
| OutputMeanings.SlugIsTheWords | app/models/target.rb:371-372 | what `parameterize` makes of a name is its longest runs of letters, digits and underscores, in lower case, with one hyphen between each and the next |
| OutputMeanings.EveryTextIsCut | app/models/target.rb:371-372 | every name can be cut into such runs and what stands between them, so the above says it for every name |
| OutputMeanings.BaseIsTheWords | app/models/target.rb:371-376 | the base is those words if the first begins with a letter, otherwise the kind, a hyphen and the words, and the kind alone without any |
| OutputMeanings.LettersAreTheirOwnBase | app/models/target.rb:371-376 | a name of letters alone is its own base in lower case |
| OutputMeanings.DefaultOutputIsWebsite | app/models/project.rb:122-124 | the default output gets the base `website` |
| OutputMeanings.FirstFreeSlug | app/models/target.rb:355-365 | a slug is its base if that is free, and otherwise the base with the least number from 2 on that gives a free one |
| OutputMeanings.FirstFreeNameSays | app/models/target.rb:332-345 | a made-up name is the kind's label, or the label with the least such number, free up to case |
| OutputMeanings.DecimalReadsBack | app/models/target.rb:355-365 | a suffix reads back as its number and has no leading zero |
| OutputMeanings.StripTakesOff | app/models/target.rb:45 | a name loses all whitespace at both ends and nothing else |
| OutputMeanings.LegalExactlyWhen | config/initializers/constants.rb:1 | the legal refs are a letter or underscore followed by letters, digits, underscores and hyphens |
| OutputMeanings.AddingGives | app/models/target.rb:40-60 | an output is refused, or there with its kind, its stripped or made-up name and its first free slug; slides only in a slideshow, and nothing else there |
| OutputMeanings.RenamingGives | app/models/target.rb:42-50 | a renamed output has the stripped name and everything else as before, or nothing happened |
| OutputMeanings.LabelsDiffer | app/models/target.rb:332-345 | no two kinds share a label up to case |
| ProjectOutputs.FoundSlugIsAccepted | config/initializers/constants.rb:1 | for every offered kind and every name the slug found is legal and new |
| ProjectOutputs.Outputs.Add | app/models/target.rb:59-60 | creating an output succeeds exactly when its kind can be built and its name is free or left out; the slug validations never refuse |
| ProjectOutputs.Outputs.Rename | app/models/target.rb:42-50 | renaming succeeds exactly for a free name, and leaves the slug |
| ProjectOutputs.NamesAndSlugsStaySound | app/models/target.rb:48-60 | over every run of edits slugs and (up to case) names are distinct and slugs legal |
| ProjectOutputs.SlugsNeverChange | app/models/target.rb:347-354 | an output still there after a run has the slug it had |
| AssetMigration.AssetMigrator.Up | db/migrate/20260707120001_migrate_library_and_project_assets_to_assets.rb:26-75 | the nested loops are the function `Migrated` |
| AssetMigration.SubReplacesAt | db/migrate/20260707120001_migrate_library_and_project_assets_to_assets.rb:150-158 | replacing the first closing tag replaces the one at the end of the document |
| AssetMigration.OrphanRefsAreLegal | db/migrate/20260707120001_migrate_library_and_project_assets_to_assets.rb:98-104 | the ref made from an id matches `REF_REGEX` |
| AssetMigration.OrphanRefsDiffer | db/migrate/20260707120001_migrate_library_and_project_assets_to_assets.rb:98-104 | two ids never give the same ref, so no collision check is needed |
| AssetConservation.MigrationConserves | db/migrate/20260707120001_migrate_library_and_project_assets_to_assets.rb:26-75 | the assets are one for one the memberships and the orphans, with their fields and files, under ids of their own; files move and nothing else is touched; exactly the owners of orphans get one holding project each, whose source refers to their orphans |
| AssetConservation.EveryMembershipHasItsAsset | db/migrate/20260707120001_migrate_library_and_project_assets_to_assets.rb:45-75 | the count is the sum of max(1, memberships), and each membership has an asset with its ref, fields and blob |
| AssetMeanings.FirstMembershipKeepsTheAsset | db/migrate/20260707120001_migrate_library_and_project_assets_to_assets.rb:45-53 | the first membership, as they are read, keeps the library asset's id and with it the file |
| AssetMeanings.OrphanGoesToItsOwner | db/migrate/20260707120001_migrate_library_and_project_assets_to_assets.rb:39-44 | an orphan keeps its id and file, in the project held for its owner |
| AssetMeanings.OrphanRefIsTheDigits | db/migrate/20260707120001_migrate_library_and_project_assets_to_assets.rb:98-104 | an orphan's ref is the 32 digits of its id, in order, after `asset_` |
| AssetConservation.AppendingAddsTheRef | db/migrate/20260707120001_migrate_library_and_project_assets_to_assets.rb:146-158 | appending a reference puts it last in the holding project's text, keeping the others |
| AssetReferences.RootHoldsTheTags | db/migrate/20260707120001_migrate_library_and_project_assets_to_assets.rb:146-158 | in the text of a holding project's source the tag of a ref occurs exactly as often as the ref was appended |
| AssetReferences.EachOrphanIsReferredToOnce | db/migrate/20260707120001_migrate_library_and_project_assets_to_assets.rb:26-75 | after the migration the tag of each orphan's ref occurs exactly once in its owner's holding project and in nobody else's |

## Left out

- Dashboard.Records.Mark: a build another process destroyed meanwhile is marked without re-syncing its target, whose columns agree already; broadcasts and `updated_at` are not modelled.
- Dashboard.Records.FinishImport: reading the archive, the created files and the choice of an entry path (app/jobs/full_build_artifact_job.rb:99-116) are not modelled; an exception is an outcome of the step.
- Dashboard.Records.Recheck: the waiting times are not modelled, and whether an import has stalled is an input; a poll it makes is answered by a later step, so its follow-up is scheduled before the answer.
- Dashboard.Records.Callback: the HMAC check and a build that does not exist are left out; a request counts only if signed.
- Backups.ProjectBackup.Rotate: one reading of the clock serves the whole rotation; the copy a snapshot makes of a project is an id and a time; a rotation whose transaction rolls back is no rotation.
- Projection.AttributesAre: the document is given decoded, with a field of the wrong type as an absent one; numbers in text fields are not modelled.
- ProjectionRun.ProjectRecord.Apply: which saves validations refuse is an input, not computed.
- PublicationTree.BuildFile: walking the nested hash is on values, not in place, so sharing of hashes is not captured.
- PublicationTree.TreeIsFaithful: the order of attributes within an element is not modelled.
- PublicationTree.FileSays: an option placed at the empty path would be lost by the code; it is excluded, since the catalogue names an element for every option.
- ProjectOutputs.Outputs.Add: names are modelled on ASCII; transliterating other letters in `parameterize`, and their lower case and white space, are not.
- Destroying a target or a project, changing its kind or document type, and restoring or transferring a project.
- Several processes inside one step, changes of plan or owner during a run, and two users building in one project.
- The collaborative document's own format, its channel and compaction, and the assembly of sources for a build.
- Options' own rules (what values an option permits, which it offers), accounts, payments, announcements, mail and views.
