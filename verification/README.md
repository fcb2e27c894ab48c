# Verified model of the document pipeline, its roles, its predictions and its feature numbers

The repository takes TIFF scans from a drop directory, stores them, classifies them with an image model and lets
reviewers correct uncertain results. This project models four of its parts in Dafny and proves what they promise.

**The document pipeline.** `Protocol.dfy` is a state machine: one ingestion worker with an open session (committed
tables, and rows flushed but not committed), an object store, an RQ queue with a retry budget per message, and any
number of inference workers. A step is one action other processes can observe (upload, enqueue, commit, deliver,
crash, ...), every remote call may raise with or without having taken effect, and every sequence of steps is a run.
`ProtocolInvariant.dfy` and `ProtocolPreservation.dfy` hold the invariant and its preservation, `ProtocolTheorems.dfy`
the promises, `ProtocolProgress.dfy`, `ProtocolLimits.dfy` and `ReachableTheorems.dfy` what is and is not reached in the
end, `Provenance.dfy` where the content of every row comes from; `ProtocolFrames.dfy` says once what each action leaves
alone. `Services.dfy` and `Worker.dfy` are the objects and loops of the source as classes and methods; `Traces.dfy`
connects each call to the steps of the state machine, so that the promises hold for them. `Stability.dfy` and
`SeenHistory.dfy` are the stable-file detection and what it remembers over the life of the worker; `Polling.dfy`,
`Convergence.dfy` and `Silence.dfy` are the polling of an unchanged directory beside busy inference workers;
`WorkerRuns.dfy` says, for any inputs, which files a poll reaches and what ends a session.

**Roles.** `Roles.dfy` says what assign, revoke and replace do to the SQL rows, the Casbin links and the audit log;
an attempt either commits or fails after any number of its Casbin writes. `RoleTheorems.dfy` and `RoleHistory.dfy` prove
when the three agree, and that they replay and can be reconstructed, `RoleSources.dfy` which attempt each row and event
comes from; `RoleService.dfy` is the imperative service, repository and enforcer proved against it.

**Predictions.** `Classifier.dfy` and `ModelCard.dfy` go from logits to a stored prediction, `Review.dfy` and
`ReviewService.dfy` from there through relabelling.

**Feature numbers.** `FeatureNumbers.dfy` and `FeatureNames.dfy` model the shell script that numbers and names new
feature branches.

`Common.dfy`, `Audit.dfy` and `Store.dfy` hold what these share: single-row lookups, audit events, the tables.

## Assumptions

- RQ hands a message to at most one live worker at a time, and gives a failed or killed delivery back while retries are
  left. The retries have intervals (`backend/app/infra/queue.py:15`), so giving back needs a running RQ scheduler, and
  `backend/app/workers/inference_worker.py:180` starts its worker without one: as deployed that way every message has
  one delivery, and an early one loses the job. The results that promise a later delivery, `ClassifiableIff` and
  `DeadAfterFour` among them, rest on a scheduler; those about what never happens do not.
- A commit either publishes a whole transaction or rolls it back; primary keys are never drawn twice.
- User ids are 36 characters long, so no user id is a role name.
- Between the first flush of a result and the return of the delivery no exception arrives from outside, such as a job
  timeout of RQ. No rollback stands between a failing `persist_result` and the commit of `mark_retryable_failure` in the
  same session (`backend/app/workers/inference_worker.py:120-124`): nothing the first has flushed survives its failure,
  and the commit of the second works.
- The inference worker reads what is committed; the ingestion session reads that and its own flushed rows.

## Where the code and its documentation disagree

The model follows the code.

- `backend/app/infra/queue.py:11-14` promises that a failed classification is retried. `retryable_failed` is not an
  active status (`backend/app/repositories/jobs.py:36-39`), so a redelivery finds no job: `FailedJobsNeverSucceed`,
  `AttemptsStayOne`, and `ClassifiableIff` for the exact condition.
- `backend/app/workers/ingestion_worker.py:205` logs that a storage error will be retried on the next poll. Nothing rolls
  back, so the file counts as a duplicate until the session is closed: `HalfIngestedIsRetriedIff`.
- The message goes out before the commit, so deliveries may come too early and use it up: `DeliveredTooEarly`.
- `backend/app/services/role_management.py:164` says that a replacement runs in a single transaction. The Casbin adapter
  commits each of its writes on its own, so an operation that fails may leave links without a row and rows without a
  link, and the links decide: `AbortKeepsAgreementIff`, `ConfidentRelabelWithoutRow`, `LockedOutAfterAbort`.
- `replace_roles` accepts repeated names, although the user interface sends none. A repeated list alone breaks nothing
  but the uniqueness of active rows (`RepeatedNamesDuplicateRows`). As long as nothing fails, SQL and Casbin come apart
  exactly when a later revocation meets several active rows: `AgreementStepIff`, `AgreementIff`, and
  `RepeatedNameThenRevoke` for an example.
- `backend/app/services/prediction_review.py:4` says that only predictions below 0.7 may be relabelled. Administrators
  may relabel any: `RelabelSucceedsIff`, `ConfidentRelabelNeedsAdmin`.
- No code sets a document to `processing`, `completed` or `failed`: `DocumentLifecycle`.
- The feature script can give a number twice from 10,000,000 on, when a suffix looks like a time of day:
  `NextNumberAdvancesIff`, `NumberGivenTwice`. A text without letter or digit gives a name that ends in a hyphen:
  `BranchNameFits`.

## Model

The rows come in three groups: what holds over all inputs, runs and reachable states; the calls and loops of the source,
each proved against its specification; and at the end the operations that write a single thing.

| member | source | states |
|---|---|---|
| ProtocolPreservation.Reachable | backend/app/workers/inference_worker.py:68-125 | the invariant of the pipeline (forms of documents, batches, jobs, results, messages, keys, the point each process is at) holds after every interleaving of ingestion, delivery, failure and crash steps |
| ProtocolTheorems.DocumentLifecycle | backend/app/services/ingestion.py:88-131 | every visible document is pending without blob key and job, stored with its object and no job, or queued with its object, exactly one job and exactly one `document.ingested` event; no two share checksum and path |
| ProtocolTheorems.BatchCounts | backend/app/services/ingestion.py:172-191 | every batch holds exactly one document and its `document_count` is the number of its queued documents |
| ProtocolTheorems.SucceededIffClassified | backend/app/services/classification_jobs.py:71-111 | a job is `succeeded` exactly when its document has its one prediction, that prediction its one overlay row with a stored object, and one `document.classified` event; otherwise there is none of these |
| ProtocolTheorems.StorageBeforeQueue | backend/app/services/ingestion.py:90-117 | every message ever pushed and every job row names a document whose original object exists and hashes to its `source_checksum` |
| ProtocolTheorems.OriginalsAreImmutable | backend/app/infra/minio.py:226-241 | over every run, no upload overwrites or removes an original object |
| ProtocolTheorems.LookupsAreSafe | backend/app/repositories/documents.py:28-37 | in every reachable state the single-row lookups of duplicates, active jobs, predictions and overlays find at most one row |
| ReachableTheorems.SettledJobsNeverChange | backend/app/repositories/jobs.py:32-40 | from any reachable state, a succeeded or failed job row never changes again, whatever is delivered later |
| ReachableTheorems.WorkingJobsAreMarked | backend/app/services/classification_jobs.py:34-41 | in every reachable state the job that a worker has marked and not yet finished is `running` in the tables, whatever the others do |
| ProtocolProgress.AttemptsStayOne | backend/app/services/classification_jobs.py:123-140 | `attempt_count` is 1 in every job row of every reachable state |
| ProtocolProgress.AtMostFourDeliveries | backend/app/infra/queue.py:15-38 | a message is delivered at most four times in any run |
| ProtocolProgress.DeadAfterFour | backend/app/infra/queue.py:15-39 | the retry budget is spent to the full: in every run a dead message was delivered exactly four times, and one with fewer deliveries that is not finished is waiting or with a worker |
| ProtocolProgress.DrainTerminates | backend/app/infra/queue.py:15-38 | workers alone can take only finitely many steps, bounded by a measure of the queue, however they fail and crash |
| ProtocolProgress.NoDeadlock | backend/app/workers/inference_worker.py:58-125 | workers have nothing left to do, crashing aside or not, exactly when every message is finished or dead |
| ProtocolProgress.DrainExists | backend/app/workers/inference_worker.py:58-125 | from any state, workers can use up all messages without a crash |
| ReachableTheorems.DrainedJobsAreSettled | backend/app/workers/inference_worker.py:73-125 | however the queue was drained without a crash, from any reachable state: a job is settled then if and only if it was settled before or its message was not used up before |
| ReachableTheorems.DeliveryIsIdleIff | backend/app/workers/inference_worker.py:73-79 | a whole delivery leaves the tables as they were if and only if every job of its document is settled, or none exists yet because the ingestion has not committed; then nothing but its own message changes |
| ReachableTheorems.DeliveredJobsAreSettled | backend/app/workers/inference_worker.py:79-125 | from the commit on, whatever other processes do in between: once its message has been delivered and let go of again, the job is settled, unless a worker was killed while it held the message |
| ReachableTheorems.DeliverySettles | backend/app/workers/inference_worker.py:81-125 | from any reachable state, a delivery of an unsettled job settles it: `succeeded` if pipeline, overlay upload and commit all succeed, else `retryable_failed` |
| Traces.DeliveryOfNothing | backend/app/workers/inference_worker.py:73-77 | a whole delivery without exactly one active job writes nothing |
| ProtocolLimits.MessageOfJob | backend/app/services/ingestion.py:106-117 | every job row carries the RQ id of a message of its own document |
| ProtocolLimits.ClassifiableIff | backend/app/repositories/jobs.py:32-40 | an unsettled job can still reach `succeeded` in some future if and only if its message is not used up |
| ReachableTheorems.FailedJobsNeverSucceed | backend/app/repositories/jobs.py:32-40 | a job that failed once, or whose message is used up, succeeds in no future and its document never gets a prediction |
| ProtocolLimits.DeliveredTooEarly | backend/app/services/ingestion.py:99-131 | the message goes out before the commit: a run in which four deliveries come too early leaves a committed job that can never succeed |
| ReachableTheorems.HalfIngestedIsRetriedIff | backend/app/workers/ingestion_worker.py:204-211 | after a storage or enqueue failure no document in sight has its content and path and the next duplicate check finds nothing, so that it is ingested again, if and only if the session was closed or rolled back before any commit; otherwise the half-done row is found and the file skipped |
| Provenance.EveryRowHasItsSource | backend/app/services/classification_jobs.py:71-104 | in every run: a document has path, name, size and checksum of a TIFF that an ingestion step read, its batch the directory, its object those bytes; a prediction the class, confidence, scores and model of a pipeline result for its document, eligible exactly below 0.7, repeated in the audit log; a job has an error exactly when it failed |
| Provenance.FailuresLoggedOnce | backend/app/services/classification_jobs.py:123-140 | in every reachable state the log has exactly one `document.classification_failed` event for each failed job, and none for any other id |
| Provenance.DirectoryOfFile | backend/app/services/ingestion.py:172-191 | the batch source of `dir/name` is `dir`, and `/` for a file in the root or without directory |
| Protocol.TiffIffHead | backend/app/services/ingestion.py:164-170 | a file passes the check exactly when it begins with a byte-order mark and the number 42 in that byte order |
| Stability.IncrementalIsSimple | backend/app/workers/ingestion_worker.py:120-152 | with distinct names the in-place loop reports exactly the files unchanged against the dictionary as it was before the loop |
| Stability.ListingMapEntry | backend/app/workers/ingestion_worker.py:120-147 | with distinct names the dictionary matches a file exactly when the listing has that name with that size and that modification time |
| SeenHistory.WorkerReportsRepeats | backend/app/workers/ingestion_worker.py:246-272 | the worker as a whole from its start, after any schedule of connections, failed listings and escaping exceptions: its dictionary has a file exactly as the last successful listing has it, and the next poll reports a file stable exactly when that listing has the same name, size and modification time |
| Stability.StableIffRepeated | backend/app/workers/ingestion_worker.py:120-152 | a file is reported stable exactly when the last successful listing before had the same name with the same size and the same modification time |
| SeenHistory.WorkerHistory | backend/app/workers/ingestion_worker.py:246-272 | what the loops remember after any schedule is what the history of their turns says |
| WorkerRuns.PollReadsFiles | backend/app/workers/ingestion_worker.py:162-211 | a poll takes, in order, the ingestion steps of every stable file that could be read: up to the first that was read, is no TIFF and whose rejection could not be committed, and of all if there is none; unreadable files and faults of TIFFs never shorten it |
| WorkerRuns.ConnectionPollsRounds | backend/app/workers/ingestion_worker.py:264-274 | a connection polls round after round, each over the files that repeat the last successful listing, and closes its session before the last round only after such a file; it leaves that listing as dictionary |
| WorkerRuns.WorkerTriesAll | backend/app/workers/ingestion_worker.py:246-284 | the worker skips no connection, whatever became of the one before, and hands the dictionary on |
| Polling.RoundsAreEntries | backend/app/workers/ingestion_worker.py:264-274 | on an unchanged directory without faults, the inner loop takes exactly the ingestion steps of the files that repeat the memory, then round after round of all files, then closes its session |
| Polling.SecondPollSeesAll | backend/app/workers/ingestion_worker.py:137-140 | the poll after a poll of the same directory reports all of it |
| ReachableTheorems.PollingConverges | backend/app/workers/ingestion_worker.py:264-272 | from any reachable state between two files, after two or more fault-free rounds of the inner loop over an unchanged directory, with inference workers doing anything in between, every TIFF in it has exactly one document of its checksum and path; what closing the session would lose is said too |
| Convergence.Interleaved | backend/app/services/ingestion.py:78-131 | in any interleaving with inference workers, a fault-free pass over files brings a document for every TIFF, loses none that was in sight, and commits what it flushed |
| ReachableTheorems.PollingSettles | backend/app/workers/ingestion_worker.py:183-203 | every later round is silent: the inference workers reach the very state they would have reached without it, and the log has one more `document.ingestion_failed` event for each file that is no TIFF, in order |
| Silence.SilentRun | backend/app/services/ingestion.py:78-86 | passing over files that are there already cannot be told from not passing over them, apart from the rejections in the log, in any interleaving |
| RoleTheorems.LinkIsDirect | backend/app/infra/authz/rbac_model.conf:7-14 | roles have no outgoing links, so the transitive role relation of a user is direct membership at any depth |
| RoleTheorems.CanIsDirect | backend/app/infra/authz/casbin_enforcer.py:56-59 | a user may act exactly when a directly linked role has that baseline policy |
| RoleTheorems.ActiveStep | backend/app/services/role_management.py:63-142 | who has which role after an operation, from who had it before; only a revocation that meets several active rows is apart |
| RoleTheorems.GoodRun | backend/app/services/role_management.py:41-219 | for lists without repetition: agreement of SQL rows and Casbin links, the seeded policies and single active rows hold at every point of a run if and only if every attempt that failed had left the links as the rows have them |
| RoleTheorems.AgreementStepIff | backend/app/services/role_management.py:123-142 | a committed operation, of any kind and after any lists, breaks the agreement of SQL rows and Casbin links if and only if it is a permitted revocation that meets several active rows of the role |
| RoleTheorems.AgreementIff | backend/app/services/role_management.py:41-219 | over every run of attempts, repeated lists and failures at any point included: SQL and Casbin agree throughout if and only if no attempt is such a revocation or such a failure |
| RoleTheorems.LegalNeverSplits | backend/app/services/role_management.py:186-197 | runs whose replacement lists repeat no name contain no such revocation, whatever fails in them |
| RoleTheorems.PermissionsFollowRows | backend/app/infra/authz/casbin_enforcer.py:16-83 | after every run of attempts that never parted SQL and Casbin, `can` allows exactly what some SQL-active role of the user has as baseline policy |
| RoleSources.PermissionTable | backend/app/infra/authz/casbin_enforcer.py:16-31 | after every such run: what each active role allows, resource by resource and action by action, and that nothing else is allowed |
| RoleTheorems.RoleLookupIsSafeIff | backend/app/repositories/roles.py:25-31 | at every point of a run each active-role lookup finds at most one row, if and only if no replacement by a list with a repeated name has succeeded |
| RoleTheorems.ReplayGivesRoles | backend/app/services/role_management.py:84-202 | over every run, failing attempts included, in which no committed revocation meets several active rows: replaying the audit log gives each user exactly the roles active in SQL, silent no-op assignments included |
| RoleHistory.PointInTime | backend/app/repositories/roles.py:42-61 | for every instant between two attempts of any run, failures and repeated lists included, the roles rebuilt from all rows as of then are those that were active after the earlier attempt |
| RoleHistory.IntervalsIff | backend/app/repositories/roles.py:42-61 | with an advancing clock the validity intervals of one user and role are disjoint at every point of a run, if and only if no replacement by a list with a repeated name has succeeded |
| RoleHistory.OnlyAdminsChangeRoles | backend/app/services/role_management.py:227-228 | at any point of any run an attempt that changes anything was made by a user whom Casbin has as admin, and who has an active admin row unless an earlier attempt has parted the two |
| RoleSources.RowsHaveSources | backend/app/services/role_management.py:74-80 | over every run: a row added since the start was added by a successful assignment or replacement of its user, and names its actor, who was linked to admin then, and its time; a row that ended did so at the time of the operation that ended it |
| RoleSources.EventsHaveSources | backend/app/services/role_management.py:84-93 | over every run: the log grows by exactly one event for each attempt that succeeded, with the actor, target and roles of that attempt |
| RoleSources.OutcomeIff | backend/app/services/role_management.py:63-126 | which outcome is reported, from the links of the actor, the role names and the rows of the target |
| RoleHistory.FrozenIff | backend/app/services/role_management.py:227-228 | from any state, SQL and Casbin out of step included, no run of attempts ever changes a row, a link or an event if and only if Casbin links nobody to admin |
| RoleHistory.FrozenWithoutAdmin | backend/app/services/role_management.py:63-179 | where the two agree, a state without active admin row stays as it is for ever |
| RoleHistory.LockedOutAfterAbort | backend/app/services/role_management.py:131-144 | a revocation of the last admin that fails after its Casbin write leaves an active admin row and a system in which nobody can ever change a role again |
| RoleHistory.ReplaceHeals | backend/app/services/role_management.py:179-219 | from any state, duplicate rows and disagreement included, a successful replacement makes SQL roles, Casbin roles and returned list of the target equal as sets and leaves other users alone |
| RoleTheorems.RepeatedNamesDuplicateRows | backend/app/services/role_management.py:186-197 | a successful replacement keeps one active row per user and role if and only if its list has no repeated name |
| RoleHistory.RepeatedNameThenRevoke | backend/app/services/role_management.py:123-142 | after a repeated name one revocation leaves the role active in SQL and gone in Casbin |
| RoleTheorems.AbortKeepsAgreementIff | backend/app/services/role_management.py:183-209 | an operation that fails before, between or after its Casbin writes keeps agreement if and only if the writes it made leave the links of the target as the rows have them |
| RoleHistory.NeverManyRows | backend/app/repositories/roles.py:25-31 | a lookup of several rows never happens in states with one active row each |
| Classifier.SoftmaxIsDistribution | backend/app/classifier/inference.py:44 | every score is positive and they sum to 1 |
| Classifier.PredictsArgMax | backend/app/classifier/inference.py:46-57 | the predicted class is the label of a greatest logit, at confidence at least one over the number of classes |
| Classifier.ScoreOfLabel | backend/app/classifier/inference.py:49-51 | with distinct labels the score map has exactly the labels, each with its own entry of the distribution |
| Classifier.ScoresAreShares | backend/app/classifier/inference.py:44-58 | with distinct labels the stored score of each label is the exponential of its own logit over the sum of all, and the confidence that quotient at the reported index |
| Classifier.ScoresSumToOne | backend/app/classifier/inference.py:49-51 | the stored scores sum to 1 |
| Classifier.ScoresAgreeWithConfidence | backend/app/classifier/inference.py:46-58 | with distinct labels the score of the predicted class is the reported confidence |
| Classifier.ConfidentPredictionIsUnique | backend/app/services/classification_jobs.py:71 | at 0.7 or above, the predicted class is the only maximum and all others together have at most 0.3 |
| ModelCard.AcceptedCardPredicts | backend/app/classifier/validation.py:69-90 | on an accepted card every prediction is one of sixteen distinct labels, its score equal to its confidence, which is at least 1/16, and every label is stored with its own share |
| ModelCard.CompleteCardOutcome | backend/app/classifier/validation.py:137-181 | a complete card is accepted exactly when its architecture is supported, the weights are there with its checksum, and its accuracy reaches its threshold; else the first of these faults is reported |
| ModelCard.OnlyCompleteCards | backend/app/classifier/validation.py:34-103 | nothing but a complete card is ever accepted |
| Review.ReviewFieldsFollowLog | backend/app/services/prediction_review.py:85-133 | over every run of results, relabellings and role changes, failing ones included: label, reviewer and time are set together, the label is one of the 16 classes, and label and reviewer are those of the last `prediction.relabeled` event, which has class and confidence of the model |
| Review.ReviewHasSource | backend/app/services/prediction_review.py:110-133 | over every run: the review of a prediction is the one from before the run, none, or reviewer, time and label of one committed relabelling of it in the run |
| Review.ModelOutputIsImmutable | backend/app/services/prediction_review.py:110-113 | class, confidence, scores and eligibility never change after creation |
| Review.RelabelSucceedsIff | backend/app/services/prediction_review.py:85-108 | exact conditions of success and of each rejection by Casbin role, eligibility and label, with the SQL rows in place of the links where the two agree; one event exactly on success, no other prediction touched, and every rejected call changes nothing |
| Review.ConfidentRelabelNeedsAdmin | backend/app/services/prediction_review.py:95-104 | at any point of any run, a changed prediction at or above 0.7 was changed by a user whom Casbin has as admin at that moment, and who has an active admin row unless an earlier attempt has parted SQL and Casbin |
| Review.ConfidentRelabelWithoutRow | backend/app/services/role_management.py:82-95 | the row is not needed: after an assignment that fails behind its Casbin write, a user without active admin row relabels any prediction |
| Review.ClassesAreTheLabels | backend/app/services/prediction_review.py:28-45 | the classes a reviewer may choose are the labels of the model card |
| ReviewService.ReadAsIffSpelt | backend/app/services/prediction_review.py:106-108 | a text is read as a class if and only if it is that class up to letter case and surrounding white space |
| FeatureNumbers.HighestIsLeastBound | plan/.specify/scripts/bash/create-new-feature.sh:123-136 | the scan result bounds every counted number and is one of them unless it is 0 |
| FeatureNumbers.CountedIff | plan/.specify/scripts/bash/create-new-feature.sh:127 | a name counts exactly when it begins with three digits or more and a hyphen, and not with eight digits, a hyphen, six digits and a hyphen |
| FeatureNumbers.NextNumberIs | plan/.specify/scripts/bash/create-new-feature.sh:155-183 | the next number is above every counted name among branches, directories and, when nothing is fetched, the heads of all remotes, and is 1 or one more than such a number |
| FeatureNumbers.NumeralIsPadded | plan/.specify/scripts/bash/create-new-feature.sh:128-129 | every numeral read is its value in plain digits behind zeros |
| FeatureNumbers.PrintedReadsBack | plan/.specify/scripts/bash/create-new-feature.sh:298-300 | the zero-padded decimal print of a number is parsed back to that number |
| FeatureNumbers.EightDigitsIff | plan/.specify/scripts/bash/create-new-feature.sh:299 | exactly the numbers from 10,000,000 to 99,999,999 print as eight digits |
| FeatureNumbers.NewNameReadsBack | plan/.specify/scripts/bash/create-new-feature.sh:298-318 | the next scan reads the same number from the finished, possibly cut, name; it skips the name if and only if the number has eight digits and the suffix begins with six digits and a hyphen |
| FeatureNumbers.NextNumberAdvancesIff | plan/.specify/scripts/bash/create-new-feature.sh:172-182 | after a creating run the next number is one higher exactly when the name is not skipped, and else the same again |
| FeatureNumbers.NewNameIsNew | plan/.specify/scripts/bash/create-new-feature.sh:328-332 | a name that is not skipped is no branch and no directory in sight |
| FeatureNumbers.EveryRunMakesOne | plan/.specify/scripts/bash/create-new-feature.sh:328-361 | so such a run never ends at an existing branch |
| FeatureNumbers.NumbersStrictlyIncrease | plan/.specify/scripts/bash/create-new-feature.sh:94-183 | over every history of runs, fetched branches, new directories and checkouts in which no name is skipped, numbers strictly increase and no two names are equal |
| FeatureNumbers.SafeNumbersIff | plan/.specify/scripts/bash/create-new-feature.sh:127 | no suffix makes the name of a number be skipped if and only if the number is below 10,000,000 or has nine digits or more |
| FeatureNumbers.NumberGivenTwice | plan/.specify/scripts/bash/create-new-feature.sh:123-136 | one branch with number 9,999,999 is enough for two features to get the number 10,000,000 |
| FeatureNumbers.StampedNamesDoNotCount | plan/.specify/scripts/bash/create-new-feature.sh:275-277 | names made in time-stamp mode never move the count |
| FeatureNames.CleanIsJoin | plan/.specify/scripts/bash/create-new-feature.sh:186-189 | cleaning a text is joining its runs of letters and digits, in lower case, with single hyphens |
| FeatureNames.CleanIdempotent | plan/.specify/scripts/bash/create-new-feature.sh:186-189 | every result is clean, and a name is left as it is if and only if it is clean |
| FeatureNames.CleanIsEmptyIff | plan/.specify/scripts/bash/create-new-feature.sh:260-262 | the suffix is empty exactly for a short name without letter or digit |
| FeatureNames.CleanKeepsLetters | plan/.specify/scripts/bash/create-new-feature.sh:186-189 | cleaning loses no letter and no digit, adds none, and keeps their order |
| FeatureNames.WordsOfJoin | plan/.specify/scripts/bash/create-new-feature.sh:186-189 | the words can be read back from the cleaned name |
| FeatureNames.SuffixForm | plan/.specify/scripts/bash/create-new-feature.sh:212-257 | the suffix from a description is clean, and empty exactly for a description without letter or digit |
| FeatureNames.MeaningfulIff | plan/.specify/scripts/bash/create-new-feature.sh:222-236 | a word is chosen exactly when it is no stop word and has three characters or more, or stands in capitals in the description with no letter, digit or underscore beside it |
| FeatureNames.MeaningfulInOrder | plan/.specify/scripts/bash/create-new-feature.sh:222-236 | the chosen words keep their order, and every place with such a word is taken |
| FeatureNames.SuffixLength | plan/.specify/scripts/bash/create-new-feature.sh:238-256 | the suffix has all of one to four chosen words, three of more, and without any the first three words of the description |
| FeatureNames.BranchNameFits | plan/.specify/scripts/bash/create-new-feature.sh:303-318 | at most 244 characters, number and hyphen intact, then a clean beginning of the suffix; no trailing hyphen unless the suffix was empty; cut exactly when too long and by no more than needed plus one |
| Services.IngestionService.IngestFile | backend/app/services/ingestion.py:53-140 | `ingest_file` takes the shared state exactly through its four steps of the state machine for every outcome of the remote calls, and which outcome is reported when |
| Services.IngestionService.StoreAndQueue | backend/app/services/ingestion.py:88-131 | upload, message and commit of one flushed document, and which failure is reported |
| Services.IngestionService.RecordQueued | backend/app/services/ingestion.py:106-131 | job row, status, batch count and event reach the tables together or not at all |
| Services.IngestionService.MarkFailed | backend/app/services/ingestion.py:142-162 | the rejection event commits, and with it everything flushed before |
| Services.ClassificationJobService.PersistResult | backend/app/services/classification_jobs.py:43-121 | prediction, overlay, status and event are written in one transaction, and none of them when it fails |
| Services.InferenceWorker.ClassifyDocument | backend/app/workers/inference_worker.py:58-125 | `classify_document` takes the shared state exactly through the seven steps of one delivery, for every failure of pipeline, upload and commit |
| Services.InferenceWorker.SaveResult | backend/app/workers/inference_worker.py:92-125 | overlay upload, final commit and failure handler of a delivery whose pipeline has returned |
| Services.InferenceWorker.Work | backend/app/infra/queue.py:18-39 | one delivery by RQ: the call, then requeue with one attempt less, dead when none is left, or finished |
| Stability.DetectStableFiles | backend/app/workers/ingestion_worker.py:93-159 | a successful listing replaces everything remembered and reports the entries that repeat it; a failed one changes and reports nothing |
| Stability.PurgeVanished | backend/app/workers/ingestion_worker.py:154-157 | exactly the names missing from the listing are dropped |
| Worker.IngestionWorker.ProcessFile | backend/app/workers/ingestion_worker.py:162-211 | one file: steps taken, and the one exception that escapes the handlers |
| Worker.IngestionWorker.ProcessFiles | backend/app/workers/ingestion_worker.py:269-270 | one poll runs the stable files in order up to the first escaping exception |
| Worker.IngestionWorker.PollUntilException | backend/app/workers/ingestion_worker.py:264-274 | the inner loop and the closing of its session, state and dictionary both as specified |
| Worker.IngestionWorker.RunWorker | backend/app/workers/ingestion_worker.py:246-284 | the reconnect loop over any schedule of connections equals the run of its steps; the dictionary survives reconnects |
| RoleService.RoleRepository.RevokeAllForUser | backend/app/repositories/roles.py:55-61 | the loop ends exactly the active rows of that user |
| RoleService.Enforcer.SeedBaselinePolicies | backend/app/infra/authz/casbin_enforcer.py:86-94 | the missing policies are added and counted |
| RoleService.RoleManagementService.AssignRole | backend/app/services/role_management.py:41-105 | rows, links, log and outcome of the attempt, wherever it fails |
| RoleService.RoleManagementService.RevokeRole | backend/app/services/role_management.py:107-152 | the first active row of the role ends, its link goes, one event; and what is left of it wherever it fails |
| RoleService.RoleManagementService.ReplaceRoles | backend/app/services/role_management.py:154-219 | both loops, step by step over rows and links, give the specified state and the returned rows, also when an exception leaves the second loop half-way |
| RoleService.RoleManagementService.GetActiveRoles | backend/app/services/role_management.py:221-223 | lists exactly the active role names |
| ReviewService.PredictionReviewService.Relabel | backend/app/services/prediction_review.py:59-143 | guards in order, then row and event together; a failed commit leaves both as they were |
| FeatureNumbers.ExtractHighestNumber | plan/.specify/scripts/bash/create-new-feature.sh:123-136 | the scan loop returns the highest number of the names |
| FeatureNumbers.GetHighestFromSpecs | plan/.specify/scripts/bash/create-new-feature.sh:94-114 | the same over the directories among the entries |
| FeatureNumbers.GetHighestFromRemoteRefs | plan/.specify/scripts/bash/create-new-feature.sh:139-151 | the same over all remotes |
| FeatureNumbers.CheckExistingBranches | plan/.specify/scripts/bash/create-new-feature.sh:155-183 | one more than the highest number over branches, remote heads when nothing is fetched, and directories, in 64-bit arithmetic |
| FeatureNames.GenerateBranchName | plan/.specify/scripts/bash/create-new-feature.sh:212-257 | both loops give the chosen words joined by hyphens: four of four, else three, else the first three of the cleaned text |
| FeatureNames.SelectWords | plan/.specify/scripts/bash/create-new-feature.sh:222-236 | exactly the words that are no stop words and long enough or written in capitals, in order |
| Services.Session.FindActiveDuplicate | backend/app/repositories/documents.py:28-37 | the lookup over committed and flushed rows returns none, the one, or reports several |
| Services.Session.Commit | backend/app/services/ingestion.py:131 | a commit publishes every flushed row at once or loses them all |
| Services.ClassificationJobService.MarkRunning | backend/app/services/classification_jobs.py:34-41 | only the status of that job changes; a missing job is reported |
| Services.ClassificationJobService.MarkRetryableFailure | backend/app/services/classification_jobs.py:123-140 | status, error text and event of that job and nothing else |
| Services.InferenceWorker.GetActiveByDocument | backend/app/repositories/jobs.py:32-40 | the active job of a document, none, or several reported |
| RoleService.RoleRepository.HasActiveRole | backend/app/repositories/roles.py:25-31 | none, the one, or several reported |
| RoleService.RoleRepository.Revoke | backend/app/repositories/roles.py:42-53 | exactly that row gets its end time and is returned; an id without a row changes nothing and is reported |
| RoleService.Enforcer.AssignRole | backend/app/infra/authz/casbin_enforcer.py:62-65 | adds one link and says whether it was new |
| RoleService.Enforcer.RemoveRole | backend/app/infra/authz/casbin_enforcer.py:68-71 | removes one link and says whether it was there |
| RoleService.Enforcer.RemoveRolesForUser | backend/app/infra/authz/casbin_enforcer.py:74-77 | removes the links of one user only |
| RoleService.AuditLog.Record | backend/app/services/audit_log.py:25-57 | the log only grows, by one event |
| RoleService.ActiveList | backend/app/repositories/roles.py:17-23 | all active rows of the user and no other, in table order, each once |

## Left out

- SFTP, MinIO, Redis, Vault, PostgreSQL and Torch clients: remote calls return, or raise with or without effect; listings, file contents and logits are inputs.
- SHA-256: an arbitrary function from bytes to text; no proof needs it to be injective.
- uuid4 keys: drawn from a counter shared by all tables; RQ job ids are positions in the history of the queue.
- Time stamps of batches, documents and jobs, and the ordering of list queries by them.
- Unflushed attribute changes of the SQLAlchemy session: counted with its flushed rows, because every query of the ingestion worker comes after a flush or sees columns that did not change.
- A database error during a flush, which leaves a session unusable, and a commit with an unknown outcome.
- A second ingestion worker, and two API requests that change roles at the same moment.
- The commit of `mark_running` failing: the worker then leaves before it has changed anything, which is a crash step.
- `main` of both workers: their endless loops are methods over any finite schedule of connections and polls.
- `mark_terminal_failure`: nothing calls it.
- Worker.IngestionWorker.RunWorker: does not model the end of the process by keyboard interrupt, which closes the session like any other exception.
- Services.InferenceWorker.ClassifyDocument: takes the rest of the shared state as ghost arguments, because the worker itself has no access to it.
- Floating point: scores are real numbers and the exponential any positive increasing function, so ties and rounding of float32 are not modelled.
- ReviewService.ReadAsIffSpelt: lower-cases ASCII letters only; the other characters that Python maps into ASCII do not occur in a class name.
- Types of JSON values in the model card: a key is present with a value of the right type, or absent; only `classes` may be something else than a list.
- Cache invalidation after commits, and the logging around it.
- The Casbin adapter and its tables: a set of links and a set of policies that are written at once.
- Users, passwords, tokens and invitations, HTTP routes, and the user interface.
- FeatureNumbers.CheckExistingBranches: takes the branch names after the text edits of lines 118 and 144, and the directory entries, as inputs; git itself and branches marked by another work tree are not modelled.
- FeatureNumbers.NumbersStrictlyIncrease: lets other people add branches and directories, and checkouts exchange directories, but not delete branches; the options for a given number, an existing branch and a dry run are not steps of the history, a branch made by hand is.
- FeatureNames.CleanIsJoin: for one line of ASCII text, as `tr` and `sed` treat other text by locale and line by line.
- Overflow of the number beyond 63 bits: the run then makes nothing in the model; what the shell prints there is not part of it.
- Golden replay counts, overlay drawing, start-up and readiness lists, seed scripts, migrations: no state of theirs is shared with the protocols modelled here.
