# Document pipeline: a verified model

A scanner drops TIFF files over SFTP. An ingest worker triages each file, stores its bytes in the object store, commits a
pending batch row, queues a classification job and only then deletes the source. Inference workers take jobs, download
the bytes, classify them, upload an overlay picture, commit a prediction, commit the batch as done and drop the API
caches. Reviewers relabel predictions, admins change batch statuses and user roles, and a demo endpoint is a second
producer of documents. Five stores are shared by all of them: SFTP directories, bucket, database, job queue and API cache.
No transaction spans two of them.

The project models these protocols call by call and proves what holds however they interleave and wherever they are cut
short.

## How it is built

- `World.dfy` has the shared stores and database sessions (flushed writes become visible together at a commit).
- `Ingest.dfy`, `Inference.dfy`, `Requests.dfy`, `Demo.dfy` are the processes as step machines, one step per external call.
  Each call has an `Outcome`: `Ok`, `Lost` (an exception or a crash before it took effect) or `Late` (it took effect and the
  caller never heard). After anything but `Ok` the process gives up; the ingest worker starts over at the next poll.
- `Formats.dfy` and `Decisions.dfy` say from a file's name, size and bytes alone what the ingest worker does with it.
- `System.dfy` interleaves one scanner, one ingest worker and any number of demo calls, inference runs and API requests.
  `History` records what happened; no step reads it.
- `Documents.dfy`, `Lineage.dfy`, `Births.dfy`, `Provenance.dfy`, `Accountability.dfy`, `Overlays.dfy` hold the inductive
  invariants, `Samples.dfy` those of the demo calls; `Safety.dfy` states the theorems about every reachable state, `Completion.dfy` those about runs without
  status patches.
- `Progress.dfy` shows that the pipeline comes to rest from any reachable state. `SmoothRuns.dfy` and `Fate.dfy` follow
  runs in which the workers meet no failure to their end, with demo calls and API requests coming and failing at any time.
- `Clients.dfy`, `Database.dfy`, `Services.dfy`, `Api.dfy`, `IngestWorker.dfy`, `InferenceWorker.dfy` are the adapters,
  repositories, services, handlers and workers as classes whose methods update their state in place. Each method is proved
  to leave exactly what its step machine leaves, and `Refinement.dfy` proves that whole attempts, poll turns, jobs and
  requests are runs of the interleaved system, so the theorems of `Safety.dfy` hold of what the methods do.
- `Polling.dfy`, `Delivery.dfy`, `NameReuse.dfy`, `Reruns.dfy`, `StaleReads.dfy`, `Handling.dfy`, `Roles.dfy`,
  `SftpDownload.dfy`, `CacheService.dfy`, `CacheAgreement.dfy`, `CachedQueries.dfy`, `Pagination.dfy`, `QueueStats.dfy`, `Glob.dfy`, `Keys.dfy`, `Access.dfy` cover the parts their names say.

## Assumptions about the environment

- One ingest worker; any number of inference workers and API requests.
- Ids given out by the database are new. A prediction is identified by its place in insertion order.
- The scanner writes a file in one step, under a bare non-empty name, and not over a name that still lies in `/upload`.
  Names may be reused later; the theorems say where that matters.
- An SFTP rename fails when the target exists (draft-ietf-secsh-filexfer-02, section 6.5).
- `Classifier` is any function from bytes to an exception or a label text (`None` when it is not one of the sixteen), a
  confidence and a picture; confidences are real numbers.
- `str.lower` is ASCII lower-casing; this decides every `.tif` and `.tiff` suffix alike.
- Redis gives what it documents for SCAN: a key present from the first call to the last is returned at least once.
- For cache agreement a service call is one step; a cached read is one step or two, asking the database and storing the
  answer, and each theorem says which. Timestamps follow insertion order, and the names the cache gives its entries are a
  parameter.

## Where the code differs from its documentation

- `readme/ARCH.md:246` and `readme/DECISIONS.md:249` call deletion after the enqueue at-most-once delivery. It is at least
  once: `Delivery.DeliveredPerAttempt` says how often, for any number of attempts.
- The poll loop catches a failed reconnection to keep running, but the next listing finds no session and raises an error
  the loop does not handle: `Polling.LoopSurvives`.
- `list_and_download_new_files` is documented as at-most-once (`app/infra/sftp.py:151-152`); a lost delete delivers twice:
  `SftpDownload.DeliveredTwice`.
- A TIFF-named file without TIFF magic whose name is already in quarantine stays in `/upload` and is retried for ever:
  `Polling.BlockedStaysBlocked`, `Progress.RestsExactlyWhenNoneBlocked`, and `NameReuse.BlockedIsReached` for how it comes
  about.
- A status change is meant to be audited. One that asks for the status it read is not, even if a worker has completed the
  batch since: `StaleReads.UnrecordedStep`, `StaleReads.DoneUndoneSilently`.
- The invalidation patterns presuppose cache keys that spell out the request path. `CacheAgreement.RightExactlyWhenEvictable`
  says exactly which keys work, and keys without a slash, such as digests, do not: `CacheAgreement.DigestKeysGoStale`.
- Deleting the entries after each change does not stop a read that asked before the change from storing its answer after
  it: `CacheAgreement.SlowReadServesStale`.
- `invalidate_batch` means to drop one batch's entries and the list; its second pattern drops every batch's:
  `Glob.BatchPatternCovered`, `CacheService.BatchPassesCollapse`.
- `readme/DECISIONS.md:254-255` asks that inference be idempotent on batch and file name; a job that is run again inserts again:
  `Reruns.AnyNumberOfPredictions` reaches any number of equal rows, `Safety.PredictionsCounted` counts them.
- Pages ordered by timestamp alone can repeat and miss rows: `Pagination.PagesPartition`.
- Two admins who demote each other at once leave no admin: `Roles.AdminsCanVanish`.
- `readme/ARCH.md` describes job payloads carrying a URI in `minio_file_path`; the code sends the bare object key in
  `blob_path`, and the model follows the code.

## Model

| member | source | states |
|---|---|---|
| `Safety.NoLoss` | app/workers/sftp_ingest.py:151-175 | In every reachable state every acceptable file ever dropped is still in `/upload` with its bytes, or has a committed batch for its path, a queued job of its own for that batch and key, and an object under its name with the bytes of this drop or of a later one of that name |
| `Safety.BytesKept` | app/workers/sftp_ingest.py:151-152 | The object key is the bare name: once a drop has left `/upload` its bytes are in the bucket if and only if the upload made last under its name carried the same bytes; a name that never returns guarantees it |
| `NameReuse.LaterBytesAreRead` | app/workers/sftp_ingest.py:152-166 | The other side: a name that returns while its first job waits makes the first batch done with a prediction of the second document's bytes |
| `Safety.PredictionsOfOwnBytes` | app/workers/inference.py:159-175 | In every reachable state, crashes, retries, re-runs and returning names included, the prediction of a drop's batch bears the drop's name and was made from the bytes of that drop or of a later one of its name; from its own bytes if the name has not returned |
| `Safety.QuarantineHoldsOnlySuspects` | app/workers/sftp_ingest.py:124-148 | Everything in quarantine is non-empty, within 52428800 bytes, named .tif or .tiff in any case, and begins with neither of the two TIFF magics |
| `Safety.Causality` | app/workers/sftp_ingest.py:152-173 | Every job ever queued, by the worker or by the demo endpoint, names a committed batch and a stored object, and no two jobs name the same batch |
| `Safety.BatchesConserved` | app/api/routers/demo.py:104-127 | Batches committed = jobs queued + producers between commit and enqueue + producers that failed there |
| `Safety.PredictionsCounted` | app/repositories/prediction_repo.py:21-26 | A batch has as many predictions as inserts committed for it, re-runs included; if no job is run twice it has at most one |
| `Reruns.AnyNumberOfPredictions` | app/services/prediction_service.py:53-67 | Inference is not idempotent: for every acceptable document with a storable verdict and every n > 0 a reachable state in which its one batch has n predictions, all the same row |
| `Safety.StatusJustified` | app/services/batch_service.py:100-113 | Under any interleaving a committed status other than pending is done with a prediction behind it, or an audit row for the change to that status exists, although the old status compared against may be stale |
| `Safety.RelabelIntegrity` | app/api/routers/predictions.py:46-69 | A prediction that differs from what its worker stored has a confidence below 0.7 and a relabel audit row; the confidence is for ever the classifier's |
| `Safety.RoleChangesRecorded` | app/api/routers/users.py:49-60 | The number of role_toggle audit rows equals the number of committed role changes, also with requests interleaved |
| `Safety.OverlayCorrect` | app/api/routers/predictions.py:84-102 | For an unpatched prediction the endpoint answers with an overlay drawn for its own batch; if no job is run twice, with the one drawn from the prediction's own bytes |
| `Requests.OverlayAnswered` | app/api/routers/predictions.py:84-102 | The whole answer of the overlay endpoint: no such row, no path under the bucket's prefix, no such object, or the object that the path names |
| `Safety.StepKeeps` | app/workers/sftp_ingest.py:151-175 | Every step of every process keeps the joint invariant, with any outcome at any call |
| `Safety.RunKeeps` | app/workers/inference.py:151-179 | The joint invariant holds along every run |
| `Completion.CompletionOrder` | app/services/prediction_service.py:53-67 | When nobody patches a batch, every status is pending or done, done always has a prediction, and no batch goes back, wherever the worker stops between its two commits |
| `Completion.DoneMeansPredicted` | app/services/prediction_service.py:56-62 | The same of every state such a run reaches, and of every next step |
| `Births.DocumentCount` | app/db/models.py:109-111 | The number of a batch's predictions is the number of runs that committed one for it |
| `Lineage.BatchConservation` | app/services/batch_service.py:42-47 | Every batch is named by a job, carried by a producer about to queue its job, or orphaned by a failure there: a partition of all batches |
| `Fate.EveryDropSettled` | app/workers/sftp_ingest.py:101-182 | End to end: when the workers meet no failure, no name comes twice and no job is put back by hand, then, once they are at rest, every acceptable drop has exactly one batch, done with exactly one prediction that is the classifier's verdict on exactly its bytes, or pending with none exactly when that verdict cannot be stored; suspicious drops are in quarantine with their bytes; nothing is left in `/upload`. Demo calls and API requests of every kind may come and fail anywhere; a batch's status or a row's label and overlay may differ only if a request for it was made |
| `Fate.EveryJobSettled` | app/workers/inference.py:133-195 | The same of every queued job of either producer: run once, and its batch done with the one prediction that is the verdict on the bytes its run read, or pending with none |
| `Fate.EndToEnd` | app/workers/sftp_ingest.py:213-237 | In one piece: from any state of such a run every chain of productive steps ends within the measure, and where no further step can be taken all is quiet and every acceptable drop is settled |
| `Progress.ChainsAreBounded` | app/workers/sftp_ingest.py:213-237 | From any reachable state with no blocked file, whatever failed before and whatever demo calls and requests are under way: no chain of productive steps is longer than the measure of its first state |
| `Progress.RestsExactlyWhenNoneBlocked` | app/workers/sftp_ingest.py:138-148 | From any reachable state the pipeline is sure to come to rest if and only if no suspicious file in `/upload` has its place in quarantine taken; such a file is retried without end |
| `Progress.SomeStepPossible` | app/workers/inference.py:151-179 | From any reachable state, as long as a file, a job, a run, a demo call or a request is unfinished, some productive step is possible |
| `Ingest.AttemptRefinesTable` | app/workers/sftp_ingest.py:110-175 | For all names, sizes and bytes, an attempt that completes does exactly what the decision table says: skipped, vanished, empty, rejected, quarantined or accepted |
| `Ingest.AttemptFrame` | app/workers/sftp_ingest.py:110-118 | Whatever fails, an attempt touches no file but the two its base name selects and no object but that name's |
| `Ingest.AttemptKeepsCustody` | app/workers/sftp_ingest.py:151-175 | Whatever fails, acceptable contents are still in place, or stored, recorded and queued |
| `Decisions.TriageFileSpelled` | app/workers/sftp_ingest.py:116-151 | The answer for a file, both ways for each disposition, from name, size and bytes alone: accepted if and only if it has 4 to 52428800 bytes, its name ends in .tif or .tiff with each letter in either case, and its first four bytes are 49 49 2A 00 or 4D 4D 00 2A |
| `Decisions.TriageSpelled` | app/workers/sftp_ingest.py:109-116 | An entry is skipped if and only if it ends in a slash; otherwise only what follows its last slash counts |
| `Decisions.KindsSpelled` | app/workers/sftp_ingest.py:78-85 | The worker's tests on size, suffix and first bytes tell exactly these kinds of files apart, character by character and byte by byte |
| `Decisions.DocumentProcessed` | app/workers/sftp_ingest.py:116-175 | What an attempt on a TIFF document leaves in bucket, table, queue and directory, for every pattern of failures: each call takes effect if it lands and is tried only after those before it returned |
| `Decisions.ImpostorProcessed` | app/workers/sftp_ingest.py:138-148 | Other contents under a TIFF name: moved to /quarantine if the calls land and the name is not taken there; nothing else changes, whatever fails |
| `Decisions.OtherProcessed` | app/workers/sftp_ingest.py:124-136 | Empty, oversized or otherwise named files are removed, and nothing else changes, whatever fails |
| `Formats.TiffNameSpelled` | app/workers/sftp_ingest.py:81-82 | Lower-casing and testing the suffix accepts exactly the names that end so, letter by letter |
| `Delivery.DeliveredPerAttempt` | app/workers/sftp_ingest.py:167-175 | For any number of attempts failing anywhere: one job per attempt that reaches the queue, up to and including the first that removes the source; the source stays, unchanged, if and only if none removes it; it is never removed undelivered |
| `Delivery.DeliveredAtLeastOnce` | app/workers/sftp_ingest.py:167-175 | The case of a failed attempt and a clean one: queued, and twice if and only if the first queued its job without removing the source |
| `Delivery.AttemptDelivers` | app/workers/sftp_ingest.py:151-175 | Exactly what one attempt adds to the queue and whether it leaves the source, for every pattern of failures |
| `Polling.TurnIsolation` | app/workers/sftp_ingest.py:225-235 | Two turns that treat one name alike leave that name's files, object, batches and jobs alike, whatever fails on the other entries |
| `Polling.AttemptLeavesOthers` | app/workers/sftp_ingest.py:110-175 | An attempt on one name leaves files, object, batches and jobs of every other name alone, whatever fails |
| `Polling.OthersDoNotMatter` | app/workers/sftp_ingest.py:225-235 | For each name a turn does what it would do if only that name were listed |
| `Polling.TurnDrains` | app/workers/sftp_ingest.py:138-148 | After a turn in which no call fails a listed file is still in `/upload` if and only if it is suspicious and its place in quarantine is taken |
| `Polling.BlockedStaysBlocked` | app/workers/sftp_ingest.py:138-148 | Such a file is blocked as before after every turn, whatever the turn lists and whatever fails in it |
| `NameReuse.BlockedIsReached` | app/workers/sftp_ingest.py:138-141 | A suspicious file dropped again under a name that is in quarantine: the blocked state is reached |
| `Polling.LoopSurvives` | app/workers/sftp_ingest.py:213-223 | The loop runs on if and only if no turn but the last ends with a failed reconnection |
| `Polling.LoopIsOneSweep` | app/workers/sftp_ingest.py:213-237 | The stores after any series of turns are those of one sweep, in order, over everything listed while there was a session; failed listings add nothing and take nothing |
| `Polling.SweepInOrder` | app/workers/sftp_ingest.py:225-235 | Entries are worked through in the order of the listing, each on what those before it left |
| `IngestWorker.Worker.ProcessOne` | app/workers/sftp_ingest.py:101-182 | The method leaves what the step machine leaves; it returns normally if and only if the calls its disposition needs succeed, and then with the disposition that name, size and bytes deserve, said without the worker's own tests |
| `IngestWorker.Worker.Inspect` | app/workers/sftp_ingest.py:138-151 | The magic check and what follows it, with the exact condition for returning normally |
| `IngestWorker.Worker.Store` | app/workers/sftp_ingest.py:151-175 | Upload, record, queue, remove in this order, equal to the step machine from the upload on |
| `IngestWorker.Worker.CreatePendingBatch` | app/workers/sftp_ingest.py:89-97 | A session of its own commits one pending row without an owner, or nothing |
| `IngestWorker.Worker.PollOnce` | app/workers/sftp_ingest.py:213-237 | One turn: a failed listing changes no store, every entry gets its own attempt, the worker dies exactly when it has no session |
| `IngestWorker.Worker.Reconnect` | app/workers/sftp_ingest.py:186-191 | Afterwards there is a session exactly when the new connection succeeded |
| `IngestWorker.Worker.Run` | app/workers/sftp_ingest.py:213-237 | The loop over any series of turns leaves the stores and the liveness of the loop function |
| `Inference.RunOutcome` | app/services/prediction_service.py:56-67 | An undisturbed run ends complete, with the prediction but the batch as it was, or with neither; finished means both, no failure leaves done without its prediction, and it finishes if and only if no call fails, the object is there and the verdict can be stored |
| `Inference.RunExactly` | app/workers/inference.py:151-179 | What any run leaves in bucket and tables, for every pattern of failures, field by field: key and bytes of the overlay, the prediction row, the status. It finishes if and only if no call fails, object and batch are there, and the verdict is one of the classes with a confidence from 0 to 1 |
| `InferenceWorker.Worker.RunInference` | app/workers/inference.py:133-195 | Download, classify, overlay, checks, persist: the method leaves what the step machine leaves and returns exactly when no call fails, object and batch are there and the verdict is one of the classes with a confidence from 0 to 1; then the caches hold no batch or recent-list entry |
| `InferenceWorker.Worker.Persist` | app/workers/inference.py:102-128 | One session for the insert and the status, which commit separately |
| `Refinement.TurnStaysReachable` | app/workers/sftp_ingest.py:213-237 | A whole turn of the poll loop is a run of the interleaved system, whatever it lists and whatever fails |
| `Refinement.JobStaysReachable` | app/workers/inference.py:133-195 | So is taking the next job and running it to its end or failure |
| `Refinement.RequestStaysReachable` | app/services/prediction_service.py:83-105 | So is a whole API request |
| `Refinement.DemoStaysReachable` | app/api/routers/demo.py:83-130 | So is a whole call of the demo endpoint |
| `Samples.OwnSample` | app/api/routers/demo.py:101-126 | In every reachable state, with every failure and re-run: while no other call draws its tag, a demo call's object holds the bytes it picked, its batch is its caller's, its job is for that object, and every prediction of its batch is of those bytes |
| `Samples.ObjectIsSample` | app/api/routers/demo.py:104 | When tags repeat, the object holds what one of the calls with that tag picked, and nothing else |
| `Samples.JobIsForSample` | app/api/routers/demo.py:112-117 | A demo batch's job names the tag's object, which is in the bucket with such a sample |
| `Samples.PredictionIsOfSample` | app/workers/inference.py:159-175 | A demo batch's predictions are the classifier's word on such a sample |
| `Samples.BatchIsCallers` | app/api/routers/demo.py:107-110 | A demo batch belongs to a user who drew its tag |
| `StaleReads.UnrecordedStep` | app/services/batch_service.py:100-113 | In any run, the commit of a status request changes the batch without an audit row if and only if the status asked for is the one the request read, and the batch has another one by now; the batch did have the status read, at an earlier point of the run |
| `StaleReads.DoneUndoneSilently` | app/services/batch_service.py:100-113 | It happens: a batch completed by the worker, with its prediction, is pending again with an empty audit trail |
| `Handling.HandleOutcome` | app/services/batch_service.py:100-113 | A request handled alone changes nothing, or was permitted by role, row and field and commits its change and its audit row together; 200 means the latter; without failures it is answered 200 if and only if permitted |
| `Handling.GrantedExactly` | app/services/prediction_service.py:91-100 | What a granted relabel, batch update or role change leaves, column by column, and the audit row under the caller's id |
| `Handling.HandleCode` | app/api/routers/predictions.py:46-73 | The status code of every request when nothing fails, from roles, rows and fields alone: 401, 403, 404, 409, 500 or 200 |
| `Handling.GuardMeaning` | app/api/deps.py:50-68 | Which roles pass the guard for which request, the roles written out, and the code the others get |
| `Handling.WhoIsServed` | app/api/routers/predictions.py:42 | Role by role: a relabel passes the guard if and only if the caller is a reviewer or an admin, a batch update or role change only for an admin; everyone else gets 401 or 403 and changes nothing |
| `Handling.FailuresAnswer500` | app/api/routers/batches.py:62-79 | Whatever fails, the answer is the one given when nothing fails, or 500 |
| `Services.PredictionService.SavePredictionAndCompleteBatch` | app/services/prediction_service.py:53-72 | Row and status for every outcome of the two commits; caches untouched before both are made; when it returns, the call of the cache theorems has been performed |
| `Services.PredictionService.SavePrediction` | app/services/prediction_service.py:38-51 | The row alone, and the caches as the cache theorems have it |
| `Services.PredictionService.RelabelPrediction` | app/services/prediction_service.py:83-105 | Leaves what the request's step machine leaves from the update on, for every outcome of each call, and the caches as the cache theorems have it |
| `Services.BatchService.CreatePendingBatch` | app/services/batch_service.py:33-47 | One pending row, committed or not; the cache is touched only for a batch with an owner, after the commit, and a failure there leaves the row committed |
| `Services.BatchService.UpdateBatch` | app/services/batch_service.py:92-119 | Leaves what the request's step machine leaves: audit only when the status differs from the one read, in the same commit, and the caches as the cache theorems have it; the same for a service built without a cache |
| `Api.Routes.Relabel` | app/api/routers/predictions.py:37-73 | The handler leaves what the step machine leaves and answers with its code; 200 only for a reviewer or admin and a confidence below 0.7, other callers change nothing and get 401, 403 or, if the lookup fails, 500; after a 200 the caches are as the cache theorems have it, after a refusal untouched |
| `Api.Routes.PatchBatch` | app/api/routers/batches.py:62-79 | The same for a batch update, for admins alone, caches included |
| `Api.Routes.SetUserRole` | app/api/routers/users.py:37-62 | The same for a role change, for admins alone, with 409 for the caller's own role |
| `Api.Routes.Guard` | app/api/deps.py:44-70 | Passes exactly the required role and admins; 401 for an unknown caller, 403 for the rest |
| `Api.Routes.TriggerDemo` | app/api/routers/demo.py:83-130 | Object with the picked bytes, batch of the caller, job, in this order and under the names the tag gives; what each failure leaves; an answer means all three |
| `Access.EnforceTable` | app/casbin/policy.csv:2-9 | The policy lets a role pass its own guard and an admin every guard, and nobody else |
| `Database.Session.CommitAll` | app/repositories/audit_repo.py:17-26 | What a session has flushed becomes visible together at its caller's commit, or not at all |
| `World.CommitConcat` | app/repositories/user_repo.py:24-30 | Flushing in parts and committing once equals committing the parts in order |
| `Database.PredictionRepository.Create` | app/repositories/prediction_repo.py:21-26 | The insert commits by itself, and with it whatever the session had flushed; a missing batch refuses the row and commits nothing |
| `Database.PredictionRepository.Update` | app/repositories/prediction_repo.py:54-69 | Flush only: no row, nothing to change, a refused null label and a change are told apart |
| `Database.BatchRepository.Update` | app/repositories/batch_repo.py:85-101 | Flush only: no row, no status named, a refused null and a change are told apart |
| `Database.UserRepository.UpdateRole` | app/repositories/user_repo.py:24-30 | Flush only, false for an unknown user, and nothing to flush when the user already has the role |
| `Clients.RqClient.GetQueue` | app/infra/queue.py:38-43 | One handle per queue name for the life of the client |
| `Clients.RqClient.EnqueueJob` | app/infra/queue.py:45-85 | A payload without a function changes nothing; otherwise the job is on its queue exactly when the call landed, and known handles stay |
| `Clients.SftpClient.Connect` | app/infra/sftp.py:43-74 | Idempotent on a live session; a failed attempt opens none and closes none |
| `Clients.SftpClient.MoveFile` | app/infra/sftp.py:138-141 | Moves the bytes unchanged, or nothing when the source is missing or the target taken |
| `Clients.BlobClient.UploadFile` | app/infra/blob.py:51-83 | Overwrites the object; the returned URI yields the key back |
| `Clients.BlobClient.DownloadFile` | app/infra/blob.py:85-104 | The object's bytes, an error exactly when it is missing or the store is unreachable |
| `Roles.AdminSurvives` | app/api/routers/users.py:37-62 | After any series of requests handled one at a time an admin remains, and the role_toggle rows count the committed role changes |
| `Roles.AdminsCanVanish` | app/api/routers/users.py:44-60 | Interleaved, two last admins demoting each other leave no admin |
| `Roles.AdminsEndExactly` | app/api/routers/users.py:44-60 | Under any interleaving a step takes the last admin away if and only if it commits another role for the only admin left; its actor has then lost the role since the check |
| `SftpDownload.ListAndDownloadNewFiles` | app/infra/sftp.py:145-181 | The loop leaves and yields what its specification function says, for any failures and any consumer |
| `SftpDownload.Conservation` | app/infra/sftp.py:165-181 | No file is lost, altered or removed unread; what is yielded is a listed TIFF-named file's exact bytes; only files change |
| `SftpDownload.Exactly` | app/infra/sftp.py:159-181 | Consumed to the end, a file is yielded once exactly when it is TIFF-named and could be read, and leaves the server exactly when it was yielded and the removal happened |
| `SftpDownload.DirectoryDelivered` | app/infra/sftp.py:159-181 | The same of the names of a directory: yielded if and only if the name ends in .tif or .tiff in any case and the read succeeded |
| `SftpDownload.DownloadInOrder` | app/infra/sftp.py:159-181 | Items come in the order of the listing, and the demand counts what was yielded before |
| `SftpDownload.DeliveredTwice` | app/infra/sftp.py:145-181 | Of two calls drained to the end, over any listings and failures, both yield a file if and only if both take it and the first one's removal was lost |
| `CacheService.CacheService.DeleteByPattern` | app/services/cache_service.py:45-56 | The loop ends, with the keys its rounds leave; undisturbed it removes exactly the matching keys |
| `CacheService.MatchingKeysDeleted` | app/services/cache_service.py:45-56 | A matching key outlives the loop only if another client wrote it during the call |
| `CacheService.OtherKeysUntouched` | app/services/cache_service.py:45-56 | A key that does not match is there afterwards exactly when the other clients alone would have left it |
| `CacheService.QuietLoopEvicts` | app/services/cache_service.py:45-56 | With no concurrent writers the loop removes exactly the matches although it deletes what it iterates over |
| `CacheService.CacheService.InvalidateBatch` | app/services/cache_service.py:31-37 | Both passes in order; undisturbed they leave what the second pattern alone leaves |
| `CacheService.BatchPassesCollapse` | app/services/cache_service.py:31-37 | The first pass adds nothing to the second |
| `Services.KeptSpelled` | app/services/prediction_service.py:46-49 | What outlives the invalidations after a changed prediction: the keys in which neither path occurs |
| `CacheService.CacheService.InvalidateRecentPredictions` | app/services/cache_service.py:39-43 | Undisturbed, exactly the recent-list keys go |
| `CacheService.CacheService.InvalidateUser` | app/services/cache_service.py:25-29 | Undisturbed, exactly the user's keys go |
| `Glob.StarLiteralStar` | app/services/cache_service.py:28-42 | `*L*` matches exactly the texts containing L |
| `Glob.StarLiteralAnyStar` | app/services/cache_service.py:35-37 | `*L?*` matches exactly the texts containing L with a character behind it |
| `Glob.PatternMeaning` | app/services/cache_service.py:31-43 | The keys each invalidation pattern selects |
| `Glob.UserMeaning` | app/services/cache_service.py:28 | The keys a user's pattern selects |
| `Glob.BatchPatternCovered` | app/services/cache_service.py:34-37 | Every match of one batch's pattern matches the list pattern |
| `Glob.SlashFreeKeyUnmatched` | app/services/cache_service.py:31-43 | A key without a slash matches none of the path patterns |
| `CacheAgreement.CacheServesRight` | app/services/prediction_service.py:46-49 | In every run of completed calls and one-step reads each cached read of the recent list or of a batch answers what the query would answer now; for the recent list that is the window of all predictions, newest first |
| `CacheAgreement.RecentIsNewestFirst` | app/repositories/prediction_repo.py:42-52 | The recent query answers a window of the predictions in reverse order of insertion, and their total number |
| `CachedQueries.AddedComesFirst` | app/repositories/prediction_repo.py:42-52 | A prediction just added heads the recent list, the earlier list follows, and the total grows by one |
| `CachedQueries.SkipDropsTheFront` | app/repositories/prediction_repo.py:48-49 | A skip leaves out that many rows at the front |
| `CachedQueries.RecentIsPage` | app/repositories/prediction_repo.py:45-50 | The recent list is a page of the predictions in the sense of the paging theorems |
| `CachedQueries.AddedIsCounted` | app/db/models.py:109-111 | A batch's view counts its own predictions one by one, and no others |
| `CachedQueries.CallDrops` | app/services/cache_service.py:25-43 | Which keys each completed call drops and which it leaves, by the texts that occur in them |
| `CacheAgreement.WrongForAMinute` | app/api/routers/predictions.py:25 | If calls die anywhere and reads take any time, a read can only be wrong within the 60-second expiry after the last call that died or the last stored answer that had been overtaken |
| `CachedQueries.ServedForAMinute` | app/api/routers/predictions.py:25 | Left alone, a computed answer is served for sixty seconds, whatever the table holds by then, and not longer |
| `CacheAgreement.SlowReadServesStale` | app/api/routers/predictions.py:25 | That exception is needed: whatever the keys and with no call dying, a read overtaken by a change before it stores leaves a wrong answer |
| `CacheAgreement.RightExactlyWhenEvictable` | app/services/cache_service.py:31-43 | Cached reads are right in all such runs if and only if every recent-list key and every batch key matches a pattern that the changing calls delete by |
| `CacheAgreement.PathKeysEvictable` | app/api/routers/batches.py:37 | Keys that contain the request path meet that condition |
| `CacheAgreement.DigestKeysGoStale` | app/infra/cache.py:47 | Keys without a slash do not |
| `CacheAgreement.ChangeIsAimed` | app/services/batch_service.py:113-117 | A call that changes the answer to a cached query deletes by a pattern meant for it |
| `CacheAgreement.PerformedIsServed` | app/services/prediction_service.py:67-70 | What the service methods are proved to leave in tables and cache is the step the cache theorems speak of |
| `Pagination.PagesPartition` | app/repositories/prediction_repo.py:42-52 | The pages at skip 0, limit, 2 * limit and so on are sure to hold every row exactly once if and only if no rows with one timestamp straddle a page boundary |
| `Pagination.PagesSpellTheList` | app/repositories/batch_repo.py:54-71 | With distinct timestamps the pages, end to end, are the table from newest to oldest |
| `Pagination.TieRepeatsARow` | app/repositories/prediction_repo.py:45-50 | A tie at a boundary lets the database answer with a row twice |
| `Pagination.TieMeansEqual` | app/repositories/batch_repo.py:63-68 | Whether a boundary is tied depends on the table and not on the order the database picks |
| `QueueStats.CountByStatus` | app/api/routers/demo.py:139-152 | Whatever the order of the grouped rows, each count is the number of batches with that status |
| `QueueStats.QueueFigures` | app/api/routers/demo.py:133-152 | Each figure is the number of batches with the status it is named after, and together they are all batches |
| `QueueStats.CountsAddUp` | app/api/routers/demo.py:147-152 | The four counts add up to the number of batches if and only if every status is one of the four texts |
| `QueueStats.WritersKeepTexts` | app/domain/batch.py:10-14 | No insert or update of the application brings another text into the column, so the counts add up after any writes |
| `QueueStats.StatusTextsKnown` | app/api/routers/demo.py:139-152 | After any series of committed writes the statistics account for every batch |
| `Keys.Basename` | app/workers/sftp_ingest.py:110 | The slash-free end of the path after its last slash |
| `Keys.BasenameOfJoin` | app/workers/sftp_ingest.py:110-118 | Joining a directory and a bare name and taking the base name gives the name back |
| `Keys.Stem` | app/workers/inference.py:63-65 | The name up to its last dot, unless that dot is its first or last character, then the whole name; bare if the name is |
| `Keys.UriRoundTrip` | app/api/routers/predictions.py:87-90 | Stripping the prefix inverts the upload URI and accepts nothing else |
| `Keys.OverlayKeyParts` | app/workers/inference.py:63-65 | Batch id and stem can be read back from fixed places of an overlay key |
| `Keys.OverlayKeyInjective` | app/workers/inference.py:63-65 | Overlay keys agree exactly when batch and stem agree |
| `Keys.DemoNameIsNoTiff` | app/api/routers/demo.py:101 | Demo keys are bare and never TIFF names, so neither producer overwrites the other |

## Left out

- The classifier, image decoding, overlay drawing and picture resizing: `Classifier` is any function, demo pictures are any bytes.
- paramiko, minio, rq, redis, SQLAlchemy and fastapi-cache internals, JWT, Vault, startup checks, settings, migrations, logging, the frontend and golden-set replay.
- `BatchService.update_batch_status` (`app/services/batch_service.py:67-90`): nothing calls it, and it writes its audit row after the commit.
- The cached `/batches` list: creating a scanner batch invalidates nothing, so it may be up to a minute behind.
- A batch update by a service built without an audit service, or without an actor: no endpoint does so.
- The user-keyed cache entries: no cached route has such a key.
- The cache key builder of the deployed application is not part of this model; it is a parameter.
- Which of its two error texts a request that fails inside gets: every such failure is 500.
- Row locks: a request's commit may fall between any two calls of another, also where the database would make it wait.
- Requests that only read, apart from the overlay endpoint, the recent list, the batch view and the queue statistics.
- Directories as remote files: `stat` of `/upload/` itself is a missing file.
- JSON encoding of job payloads and of responses.
- `updated_at`, e-mail addresses, request ids and audit timestamps: no decision reads them.
- Several ingest workers at once, and exactly-once delivery: the code provides neither.
- `CacheService.backend` finds its backend lazily; here it is set when the service is made, or missing.
- A service call dying between two of its deletions by pattern is in `CacheAgreement.dfy`; the class methods let it die before the first or after the last.
