# Model of a content-addressed object store

This project models the core of a small S3-like object server in Dafny and proves what its
pieces promise together. The server keeps file contents once, under their SHA-256 digest, counts
references to them in MySQL, and collects what is no longer referenced. Requests come in over an
event-driven HTTP connection, uploads are streamed into temporary files, idle connections are
timed out by a timer wheel, and object metadata is cached in Redis.

`dafny verify dfyconfig.toml` checks everything.

## How it is put together

| Files | Subject |
|---|---|
| Base, Decimals | vocabulary, decimal numerals |
| Tables, Ledger | the tables with their keys, statements and whole transactions as functions; counts as claims |
| Protocol | requests and the collector as interleaved steps over tables and files |
| FileSafety, StraddledUpload, CleanedUpload | when a referenced file is lost, and two runs that lose one |
| Accounting, OverlappingRequests | counts stay in step with the rows, exactly when, and two runs in which they do not |
| LedgerSafety, SequentialRuns | what requests that do not overlap keep, interleaved with others and in sequence |
| CompletedContent, ReplacedPart | what a completed upload contains, and a run in which a part put again is not in it |
| Multipart, MultipartHandlers | which lists of parts complete an upload, the handlers |
| WholeRequests | requests with nothing in between, and what whole transactions leave |
| Collection, Draining, CollectionComplete, DroppedDigest | the collector's loop, what it leaves behind, and a run in which it leaves something |
| MySql, MetaStore, ControlFailures | a session with failing statements, the transactions on it, and exactly when these are atomic |
| MetaCache, Resp | the Redis cache against the table, and the Redis protocol |
| Idempotency | puts under an idempotency key |
| DataStore, UploadServer | files, write sessions, and the streamed upload of a connection |
| ByteBuffer, HttpParser, Fragmentation, RequestText | bytes in, requests out |
| HttpConnection, BodyDelivery, Sending, Ranges | the connection's events, bodies, responses and ranges |
| Conversation | many requests and their answers on one connection |
| TimerWheel | the wheel and the map from id to deadline that it refines |

A class stands for each object that the program updates in place; its methods have the loops and
branches of the code and are proved against functions on values. The theorems are about those
functions, over every input and every run.

SHA-256 is a free constructor: distinct contents have distinct digests. MySQL is a record of maps
with the foreign keys, cascades and unique indexes of `scripts/mysql_init.sql`; keys are compared
through an arbitrary folding, which stands for the collation. `Protocol.State` carries history that
no step reads: who claims each count, which part rows have had their count taken back, and which
mishaps have happened. The theorems on runs say exactly what comes of each mishap.

## Where the code does not keep its promise

Each of these is stated with a concrete input that shows it, or with the exact condition under
which the promise does hold, or both.

- An upload that relies on a file which is then taken, by the collector after its re-check or by the
  clean-up of another request, loses it if it commits before anybody brings the file back
  (`FileSafety.FileIsLostIffUnsheltered`, `StraddledUpload.StraddlingLosesFile`,
  `CleanedUpload.CleanupLosesFile`).
- The collector takes a part's digest off its queue and leaves it, if it gets to it between the
  release of the part and the deletion of its upload, or if anything fails at it; nothing queues it
  again (`CollectionComplete.DropsIffFailedOrReleased`,
  `CollectionComplete.DrainingIsCompleteIffNothingDropped`, `DroppedDigest.AbortLeavesFile`).
- A part that is put again while its upload is being completed is answered, and is not in the object
  (`CompletedContent.CompletedObjectIsParts`, `ReplacedPart.ReplacedPartIsIgnored`).
- Requests that overlap on one upload leave counts too high or too low
  (`Accounting.LawHoldsIffFaultless`, `OverlappingRequests.PutWhileAbortingLeaks`,
  `OverlappingRequests.CompletingTwiceTakesTwice`).
- Object keys that agree in their first 255 characters, or that the collation does not tell apart,
  share an index entry. If the whole keys differ for the collation the old digest is never released
  (`Accounting.PutKeepsAccounting`); and the cache, which tells them all apart, disagrees with the
  table (`MetaCache.CacheAgreesIffSeparate`, `MetaCache.CaseConfuses`).
- A SET or DEL of the cache that fails is ignored, and a get that fills the cache late does so without
  asking again; what each leaves stale is exact (`MetaCache.AgreesIffNotHarmed`,
  `MetaCache.FailedSetIsStale`, `MetaCache.FailedDelIsStale`, `MetaCache.LateFillIsStale`).
- A failed START TRANSACTION or ROLLBACK is only logged, and breaks atomicity
  (`ControlFailures.PutAtomicIffOrderly`, `ControlFailures.PartAtomicIffOrderly`,
  `ControlFailures.DeleteAtomicIffOrderly`, `MetaStores.FailedStartBreaksAtomicity`,
  `MetaStores.FailedRollbackCountsTwice`).
- A body whose write fails half way can be stored under a digest that is not its own
  (`FileSafety.FileIsMisnamedIffTorn`, `UploadServer.TornUploadIsStored`). Were another piece of body
  handed over after a session that could not be opened, it would use the missing session
  (`UploadServer.UploadContext.OnBodyData`).
- A chunked request is delivered with an empty body, and what was sent stays unread in front of the
  next request; a streamed put then stores an empty object and is answered that all is well
  (`BodyDelivery.ChunkedHasNoBody`, `RequestText.ChunkedArrivesEmpty`,
  `UploadServer.ChunkedUploadIsEmpty`).
- East of Greenwich, which is where `docker/docker-compose.yaml:64` puts the server, a record of an
  idempotency key expires early by the offset, and the same request is made a second time
  (`Idempotency.LivesItsTimeIffNotEast`, `Idempotency.EastForgets`). When the bucket is gone the same
  request is not answered from the record (`Idempotency.ReplayIffLive`, `Idempotency.BucketGoes`).
- A put that is answered from the record, or whose record cannot be read, leaves the file of its body
  behind, although no row refers to it (`Idempotency.OthersLeaveTables`).
- Without a declared digest, a put with the same idempotency key and length counts as the same
  request whatever its contents (`Idempotency.HashCoversBodyIffDeclared`).
- The zero suffix range makes a response that only an error or the idle timer ends, and a range with
  a number of 2^64 or more makes the number reader throw (`Ranges.RangeIsRight`,
  `Ranges.RangeResponse`, `Ranges.HugeEndThrows`).
- Lines that are longer than the limit are accepted or refused depending on how they are cut into
  reads (`Fragmentation.FragmentationIndependence`).

## Model

| member | source | states |
|---|---|---|
| `FileSafety.FileIsLostIffUnsheltered` | src/storage/gc.cpp:118-190 | Over all runs of uploads, deletes, completes, aborts, clean-ups and collector steps, in any interleaving and with any of them failing: some digest that an object or part row refers to is at some time without its file, in place or in the quarantine that is still to be restored, if and only if an upload had its row put after the file that it relied on had been taken and nobody had brought it back, or a restore failed for a referenced digest that had no other file, or a clean-up, which had read the count earlier, removed the file of a digest that was referenced by then and had no other file |
| `FileSafety.NoReferencedFileIsLost` | src/storage/gc.cpp:118-190 | At the end of every run without these three mishaps each referenced digest has its file, in place or in the quarantine that is still to be restored, and the file holds its own bytes unless a torn file was stored |
| `FileSafety.FileIsMisnamedIffTorn` | src/storage/data_store.cpp:208-252 | Over all runs some file at its path has other contents than its name is the digest of, at some time, if and only if an upload whose last write had failed, with something written, put its temporary file in place |
| `FileSafety.StepKeeps` | src/storage/gc.cpp:118-190 | Any one step of any request or of the collector keeps the safety invariant: rows, sound uploads and newcomers during a quarantine have their files |
| `FileSafety.RecheckedUploads` | src/storage/gc.cpp:146-178 | When the re-check lets a file go, every upload that is not marked stale still has its file: either it is another digest's, or the upload put its own file back in place during the quarantine |
| `StraddledUpload.StraddlingLosesFile` | src/storage/gc.cpp:131-180 | A fifteen-step run from the empty store, in which every operation succeeds, ends with a row whose file is gone: the upload found the file, the collector took it, and the row was put after the re-check |
| `CleanedUpload.CleanupLosesFile` | src/api/handlers/multipart_handlers.cpp:22-40 | A twenty-one-step run in which the clean-up after a failed complete reads that nothing counts the file, another upload finds the file, and the clean-up removes it: the other upload's row is put and has no file |
| `Accounting.LawHoldsIffFaultless` | src/api/handlers/multipart_handlers.cpp:312-342 | Over all runs, in any interleaving and with any step failing: at all times, for every digest, the reference count plus the part rows whose count has been taken back already equals object rows plus part rows, if and only if no release or put of a part took a count back that was not its own row's and no row went without its count |
| `Accounting.PutKeepsLaw` | src/db/meta_store.cpp:436-483 | From lawful counts, with parts released or not, the put of an object keeps the law if and only if it does not take over the row of another key |
| `Accounting.ReleaseKeepsLaw` | src/api/handlers/multipart_handlers.cpp:333-339 | Taking back the count of a listed part keeps the law if and only if the part's row is still there with that digest and has not been released, or there is no count left to take |
| `Accounting.PartPutKeepsLaw` | src/db/meta_store.cpp:1102-1203 | Putting a part keeps the law if and only if its row has not been released, or is put with the digest it has, or its old digest has no count left |
| `Accounting.StepKeeps` | src/api/handlers/multipart_handlers.cpp:312-342 | Any one step of any request or of the collector keeps counts, claims and released rows in step |
| `LedgerSafety.CountsAreReferences` | src/api/handlers/multipart_handlers.cpp:312-342 | In every interleaving in which requests on one upload do not overlap no count is ever taken back that is another row's, and without a leak each count plus the released part rows is the number of rows |
| `LedgerSafety.CascadeTakesReleased` | src/api/handlers/multipart_handlers.cpp:341-342 | The deletion of the upload that ends a complete or an abort takes no row with it whose count was not taken back, unless requests overlapped or a decrement failed |
| `LedgerSafety.StepKeepsSeparate` | src/api/handlers/multipart_handlers.cpp:268-342 | Any one step keeps what requests in progress rely on: what each has listed is still there as it was listed, no two handle one upload, and each released part row has a request that is about to delete its upload |
| `OverlappingRequests.PutWhileAbortingLeaks` | src/api/handlers/multipart_handlers.cpp:358-397 | A thirteen-step run in which a part is put between its release by an abort and the deletion of the upload: a count of one stays with no row |
| `OverlappingRequests.CompletingTwiceTakesTwice` | src/api/handlers/multipart_handlers.cpp:223-356 | A twenty-step run in which two completes of one upload both release its part: the completed object has a count of zero |
| `Accounting.CountsCoverReferences` | src/db/meta_store.cpp:703-722 | With leaks (buckets deleted with their objects or open uploads, cascades after failed decrements, taken-over rows) the count plus the released part rows is at least the number of rows: counts can be too high, never too low |
| `LedgerSafety.ZeroCountIsReleased` | src/db/meta_store.cpp:895-958 | Even in the middle of a complete, a digest with count zero has no object row and only released part rows; and these belong to uploads that a request in progress is about to delete, unless requests overlapped or one gave up |
| `LedgerSafety.FloorIsNeverMet` | src/db/meta_store.cpp:821-847 | No decrement ever meets its floor at zero: the row that a delete or an overwrite releases, and the part that a complete or an abort is about to release, have positive counts |
| `LedgerSafety.QuietCountsAreExact` | src/api/handlers/multipart_handlers.cpp:312-320 | When no request is half way through its releases, every count is exactly the number of rows |
| `Accounting.PutKeepsAccounting` | scripts/mysql_init.sql:35 | From exact counts a put leads to exact counts if and only if the index entry of its key, the first 255 characters as the collation sees them, is not held by the row of another key |
| `Tables.SlotsShared` | scripts/mysql_init.sql:35 | Keys that agree in their first 255 characters share an index entry, and if the folding tells all beginnings apart no others do |
| `SequentialRuns.SequentialCountsAreExact` | src/db/meta_store.cpp:436-483 | Over all runs in which requests do not overlap in time, with collector steps anywhere in between, counts are exact whenever no request is in progress, unless a claim leaked or an upload was left after its parts were released |
| `Ledger.AccountedIffBacked` | src/db/meta_store.cpp:703-722 | Counts are the numbers of rows exactly when each unit of a count is claimed by one row |
| `Ledger.MoveCountBacked` | src/db/meta_store.cpp:436-483 | Moving a count from the old digest to the new one keeps every count equal to its claims, including when the two are the same |
| `Ledger.DecrementBacked` | src/db/meta_store.cpp:821-847 | A decrement for a claim that exists finds a positive count and keeps counts equal to claims |
| `ControlFailures.PutAtomicIffOrderly` | src/db/meta_store.cpp:348-530 | For every sequence of outcomes of START TRANSACTION and ROLLBACK: a put is all or nothing, whatever the tables, the other sessions and the outcomes of its statements, if and only if none of the first twelve fails, but that the twelfth, a ROLLBACK, may fail by losing the connection |
| `ControlFailures.PartAtomicIffOrderly` | src/db/meta_store.cpp:1086-1203 | The same for a part, with six |
| `ControlFailures.DeleteAtomicIffOrderly` | src/db/meta_store.cpp:668-734 | The same for a delete, with two |
| `MetaStores.PutObjectIsAtomic` | src/db/meta_store.cpp:366-530 | Whatever statements fail, through the fast path, its rollback, the slow path and three attempts, with other sessions changing the tables in between: at most one change is published; Ok means exactly the simple put from the tables as the transaction found them, with the right candidate for the collector; an error means nothing changed; the end of the loop is not reached. The control statements that are left to the call are in order in the sense of ControlFailures |
| `MetaStores.PutPartIsAtomic` | src/db/meta_store.cpp:1102-1203 | The same for a part: one simple step or nothing |
| `MetaStores.DeleteObjectIsAtomic` | src/db/meta_store.cpp:668-734 | The same for a delete, and NoSuchKey only if there was no such row; when it succeeds DeleteObjectSucceeds says |
| `MetaStores.RewriteIsAtomic` | src/db/meta_store.cpp:436-509 | The slow path's separate statements come to moving the count and writing the row in one step, for every pattern of failures |
| `MetaStores.FastIsAtomic` | src/db/meta_store.cpp:367-411 | The fast path either publishes the simple put of a new key or leaves the tables alone, its increment included |
| `MetaStores.PutObjectSucceeds` | src/db/meta_store.cpp:348-530 | When no statement fails, whatever other sessions change in between: a put answers Ok if the simple step is possible on the tables that its last transaction finds, and the foreign key error if not |
| `MetaStores.PutPartSucceeds` | src/db/meta_store.cpp:1086-1203 | The same for a part |
| `MetaStores.DeleteObjectSucceeds` | src/db/meta_store.cpp:668-734 | When no statement fails a delete answers Ok if there is such a row, and that there is no such key if not |
| `MetaStores.DecrementAnswers` | src/db/meta_store.cpp:821-847 | When no statement fails the stand-alone decrement answers whether the count is zero now, or that there is no such blob |
| `MetaStores.CanDeleteAnswers` | src/db/meta_store.cpp:895-958 | When no statement fails the deletion check answers, and with the truth |
| `MetaStores.DecrementTakesEffect` | src/db/meta_store.cpp:821-847 | The stand-alone decrement takes effect exactly when its own statement succeeds, also if an error is then answered, and zero is answered exactly when the count is zero |
| `MetaStores.CanDeleteIsRight` | src/db/meta_store.cpp:895-958 | The three questions of the deletion check together answer for one state of the tables, and change nothing |
| `MetaStores.FailedStartBreaksAtomicity` | src/db/mysql_tx.cpp:6-14 | When START TRANSACTION fails, which is only logged, a put can answer with an error and have counted a reference |
| `MetaStores.FailedRollbackCountsTwice` | src/db/mysql_tx.cpp:37-49 | When ROLLBACK fails, a retried put can succeed and count its reference twice |
| `MetaStores.MetaStore.PutObjectWithRefCount` | src/db/meta_store.cpp:348-530 | The loop of attempts, statement by statement on a connection, refines the function that the theorems are about |
| `MetaStores.MetaStore.PutPartWithRefCount` | src/db/meta_store.cpp:1086-1203 | Likewise for parts |
| `MetaStores.MetaStore.DeleteObjectWithRefCount` | src/db/meta_store.cpp:668-734 | Likewise for deletes, whose function DeleteObjectIsAtomic and DeleteObjectSucceeds are about |
| `MetaStores.MetaStore.CanDeleteCasBlob` | src/db/meta_store.cpp:895-958 | Likewise for the deletion check, with a commit on each way out that read its rows |
| `MetaStores.MetaStore.DecrementRefCountAndCheckZero` | src/db/meta_store.cpp:821-847 | Likewise for the stand-alone decrement |
| `MySql.Transaction.Commit` | src/db/mysql_tx.cpp:23-35 | A commit ends the transaction whether or not it succeeds, and does nothing the second time |
| `MySql.Transaction.Destroy` | src/db/mysql_tx.cpp:16-21 | Going out of scope rolls back exactly when neither commit nor rollback came before |
| `CompletedContent.CompletedObjectIsParts` | src/api/handlers/multipart_handlers.cpp:268-320 | In every interleaving, overlap included, in which the files of the listed parts hold what their names say: a complete whose row is put leaves an object row whose digest and size are those of the concatenation, in ascending part number, of what each part was last uploaded with when it was listed; and so it is the concatenation of the parts as they stand if and only if these come to the same contents |
| `CompletedContent.UnchangedPartsAreCompleted` | src/api/handlers/multipart_handlers.cpp:268-320 | If the upload has the parts and digests that it had at the listing, whatever else was done meanwhile, the object is the concatenation of the parts as they stand |
| `CompletedContent.UntornIsNamed` | src/storage/data_store.cpp:208-252 | In every run without torn files, all files hold what their names say at all times |
| `ReplacedPart.ReplacedPartIsIgnored` | src/api/handlers/multipart_handlers.cpp:268-320 | A fifteen-step run in which a part is put again between the listing and the commit: the put is answered, and the object that is completed afterwards has the bytes of the old part |
| `CompletedContent.MergedIsContents` | src/storage/data_store.cpp:405-440 | Merging soundly named files reads back the contents that the parts' digests stand for, in listing order |
| `CompletedContent.TotalIsLength` | src/api/handlers/multipart_handlers.cpp:293-296 | The sum of the stored part sizes is the length of the merged contents |
| `Multipart.ListingIsComplete` | src/api/handlers/multipart_handlers.cpp:126-128 | In every run a listing of an upload's parts has at most 10000 entries, so that the bounded listing that completing and aborting use leaves none out |
| `Multipart.AcceptedIffTold` | src/api/handlers/multipart_handlers.cpp:268-298 | With ETags stored in quotes, as a part's upload stores them, the client's list is accepted if and only if it is the part numbers with these ETags in any order, each with its quotes or without |
| `Multipart.NormalizeUnquotes` | src/api/handlers/multipart_handlers.cpp:14-19 | One pair of quotes around an ETag is taken off, and an ETag without them is left as it is |
| `Multipart.AcceptedIffPermutation` | src/api/handlers/multipart_handlers.cpp:268-298 | The sorted client list matches the stored parts exactly when the client named each stored part once with its ETag, as NormalizeUnquotes compares them, in any order |
| `Multipart.ListParts` | src/db/meta_store.cpp:1214-1251 | A page holds the first rows of the listing, and says that it is truncated exactly when there are more |
| `Multipart.MatchParts` | src/api/handlers/multipart_handlers.cpp:278-298 | The comparison accepts exactly the sorted equal lists, with the digests in part order and the sum of the sizes, and otherwise names the first part that differs; AcceptedIffTold says which lists these are |
| `MultipartHandlers.Handlers.CompleteUpload` | src/api/handlers/multipart_handlers.cpp:223-356 | A client that does not name a permutation of the stored parts, or parts that cannot be merged, change nothing; else the merged file is stored under its digest, and either the object is put with it, each part's count is released once and the upload is deleted, or the put fails, the tables stay as they are and the merged file is cleaned up unless it is counted |
| `MultipartHandlers.Handlers.AbortUpload` | src/api/handlers/multipart_handlers.cpp:358-397 | Aborting releases each listed part once and deletes the upload, also when the parts could not be listed |
| `MultipartHandlers.LoopIsSteps` | src/api/handlers/multipart_handlers.cpp:333-339 | The handler's decrement loop is the sequence of steps that the interleaving model lets others come between |
| `MultipartHandlers.MergeIsSteps` | src/storage/data_store.cpp:405-440 | With nothing in between, the merging steps of the interleaving model, one file each, append the files of the parts in order |
| `MultipartHandlers.MergesIffPresent` | src/storage/data_store.cpp:381-440 | Parts can be merged if and only if there are any, each of their files is at its path and nothing fails; and then the files come one after the other |
| `MultipartHandlers.ReleasesQueueZeros` | src/api/handlers/multipart_handlers.cpp:333-339 | The collector's queue grows by exactly the digests that a decrement of the loop brought to zero, where the count could be read |
| `WholeRequests.CompleteIsSteps` | src/api/handlers/multipart_handlers.cpp:268-342 | With nothing in between, the steps of a complete in the interleaving model, from the listing to the deletion of the upload, leave tables and files as the handler's method does |
| `WholeRequests.FailedCompleteIsSteps` | src/api/handlers/multipart_handlers.cpp:301-324 | Likewise if the put of the object fails and the handler cleans up |
| `WholeRequests.AbortIsSteps` | src/api/handlers/multipart_handlers.cpp:358-397 | Likewise for an abort |
| `WholeRequests.ObjectUploadPuts` | src/api/handlers/object_handlers.cpp:64-141 | With nothing in between, the steps of an upload put the row with the digest, size, ETag and content type, and its file |
| `WholeRequests.PartUploadPuts` | src/api/handlers/multipart_handlers.cpp:160-205 | Likewise for a part |
| `WholeRequests.PutObjectLeaves` | src/db/meta_store.cpp:436-509 | A put moves one count from the digest that its key had to the new one, or none if these are the same, names the old one for the collector if and only if its count is zero now, writes the row, and changes nothing else |
| `WholeRequests.PutPartLeaves` | src/db/meta_store.cpp:1102-1203 | Likewise for a part |
| `WholeRequests.DeleteObjectLeaves` | src/db/meta_store.cpp:668-734 | A delete takes the row, one count of its digest, and nothing else, and names the digest if its count is zero now |
| `WholeRequests.CascadesLeave` | scripts/mysql_init.sql:28-95 | Parts go with their upload, and uploads and objects with their bucket, and nothing else does |
| `WholeRequests.SingleStepsLeave` | src/db/meta_store.cpp:123-270 | Buckets and uploads are made once and an upload only in a bucket that is there; these steps leave files and requests in progress alone |
| `CollectionComplete.DrainingLeavesDropped` | src/storage/gc.cpp:95-193 | After any run of requests and collector steps, in any order and with any of them failing, in which no count was taken back wrongly: as many batches as the queue is long empty it, and then the rows with count zero are exactly the dropped ones, and of the files exactly those of the other unreferenced digests are gone |
| `CollectionComplete.DrainingIsCompleteIffNothingDropped` | src/storage/gc.cpp:95-193 | After such a run without leaks, draining leaves as known digests exactly the referenced ones if and only if no digest was dropped |
| `CollectionComplete.DropsIffFailedOrReleased` | src/storage/gc.cpp:118-190 | For every event, failures included: a digest that is not dropped comes to be dropped if and only if its count is zero and either the event fails at it (reading its count, a check, the move to quarantine, a removal of the file or row) or the collector asks for it while a part row that was released still refers to it; and it is not queued again and no other request is still to read its count |
| `CollectionComplete.NothingDroppedAtRest` | src/storage/gc.cpp:118-170 | While nothing fails and no request is between its first release and the deletion of its upload, no digest comes to be dropped |
| `CollectionComplete.NoReleasedRowLeft` | src/api/handlers/multipart_handlers.cpp:341-342 | Requests that do not overlap, none of which gives up, leave no released part row behind once all are done |
| `Draining.BatchesAreEach` | src/storage/gc.cpp:95-117 | As many batches as the queue is long empty it, whatever the batch size, and give each key its turn in the order of the queue |
| `Draining.TurnsAreEach` | src/storage/gc.cpp:118-190 | These are the turns that the batch method takes when all goes well |
| `CollectionComplete.TurnIsEvents` | src/storage/gc.cpp:118-190 | The collector's turn on a key, as the batch method takes it, is a sequence of the single steps that requests can come between |
| `DroppedDigest.AbortLeavesFile` | src/storage/gc.cpp:126-129 | One abort, with the collector taking up the part's digest before the upload is deleted, ends with an empty queue, an unreferenced digest that could be deleted, and its file, although nothing failed or overlapped |
| `CollectionComplete.ZerosAreReported` | src/api/handlers/object_handlers.cpp:158-161 | A count that a step brings to zero is that of a digest which the transaction reports to the handler, or which the releasing request is about to read |
| `Collection.GarbageCollector.AddPendingDelete` | src/storage/gc.cpp:52-57 | A reported digest goes to the end of the queue |
| `Collection.GarbageCollector.ProcessBatch` | src/storage/gc.cpp:95-193 | A batch takes the oldest keys off the queue, at most the batch size, gives each its turn in order, also when a key is in the batch twice and fares differently, and counts exactly those that were deleted and those at which something failed |
| `Collection.TurnsAppend` | src/storage/gc.cpp:118-190 | A batch that follows another goes on from where that one has come to |
| `Draining.TurnComesTo` | src/storage/gc.cpp:118-190 | What a turn leaves of row and file, with any of its seven operations failing: the digest is left alone if it may not be deleted or the check or move fails; a file whose second check fails goes back, or is gone with the row staying; only if all goes well both are gone |
| `Collection.GarbageCollector.CollectOne` | src/storage/gc.cpp:118-190 | Check, quarantine, second check, removal or restore and callback, with any of them failing, come to the steps of the interleaving model |
| `Collection.GarbageCollector.OnDeleted` | src/server/server.cpp:81-98 | The callback deletes the row if the third check still allows it |
| `DataStores.WriteSession.Write` | src/storage/data_store.cpp:81-106 | For every pattern of short, interrupted and failing writes: success writes, hashes and counts all of the data; failure leaves what got written in the file, and neither in the hash nor in the count |
| `DataStores.DataStore.CommitWrite` | src/storage/data_store.cpp:208-252 | A commit answers the digest of what was hashed; the files stay named by their contents if and only if the file holds just that or a file of that digest was there already; a refused commit changes no stored file |
| `DataStores.DataStore.Write` | src/storage/data_store.cpp:254-273 | Read after write: the answer is the digest of the data and that file holds the data, stored or deduplicated; an error changes nothing, and there is none unless a write or the rename fails or the temporary name is taken |
| `DataStores.DataStore.Read` | src/storage/data_store.cpp:275-312 | For every pattern of short reads the whole file is returned, or an error, and this only if a read fails |
| `DataStores.DataStore.StreamRead` | src/storage/data_store.cpp:314-362 | For every pattern of short reads the pieces handed over add up to the slice that was asked for, or to a beginning of it if the callback stopped or a read failed; there is no error unless a read fails, and it stops exactly when the callback says so |
| `DataStores.DataStore.Merge` | src/storage/data_store.cpp:381-476 | The merged file holds exactly the given files in order, under its own digest; a missing file or any failure changes nothing, and without them merging succeeds |
| `DataStores.DataStore.AppendAll` | src/storage/data_store.cpp:405-445 | The copying loop hashes and writes the files one after the other, whatever chunks reads and writes come in |
| `UploadServer.UploadContext.OnBodyData` | src/server/server.cpp:412-444 | Over any pieces of body, what was hashed and counted is exactly the data of the pieces that were taken; a failed piece leaves its beginning in the file and the session goes on; after a session that could not be opened the next piece uses the missing session |
| `UploadServer.UploadContext.OnRequest` | src/server/server.cpp:365-398 | The handler is told the digest and length of the data that was taken, and that data is in the file of the digest, so that the store stays sound, if and only if the temporary file held just that or the file existed |
| `UploadServer.UploadContext.OnConnectionClose` | src/server/server.cpp:349-363 | A closed connection takes the temporary file of its unfinished upload away, and nothing else |
| `UploadServer.TornUploadIsStored` | src/server/server.cpp:436-442 | A write that fails half way can leave a file under a digest that is not its own: the connection is told to close, but the complete request is handled first |
| `UploadServer.ChunkedUploadIsEmpty` | src/server/server.cpp:365-444 | A chunked upload, which hands over a piece of no bytes and is complete, stores an empty file and tells the handler its digest, unless another digest was declared |
| `MetaCache.CacheAgreesIffSeparate` | src/db/meta_store.cpp:532-584 | For every collation: over all runs that put, get and remove only the given keys, in which entries expire at any time, statements fail, and cache commands fail or come late where that does no harm, a get always agrees with the table, whether or not the cache can be read and written, or finds nothing if its query fails too, if and only if no two of the keys share an entry of the unique index |
| `MetaCache.AgreesThroughoutIffUnharmed` | src/db/meta_store.cpp:488-524 | With keys that share no index entry: in every run, any cache command failing and any late fill included, the cache agrees with the table at all times if and only if no step does harm |
| `MetaCache.AgreesIffNotHarmed` | src/db/meta_store.cpp:488-524 | One step from agreement leads to agreement if and only if it is not a put whose SET fails while an entry that differs from the new row is cached, nor a removal whose DEL fails while an entry is cached, nor a late fill with a row that the table has no more |
| `MetaCache.FailedSetIsStale` | src/db/meta_store.cpp:512-524 | A four-step run: after a put whose SET fails the next get answers the old row |
| `MetaCache.FailedDelIsStale` | src/db/meta_store.cpp:724-732 | A four-step run: after a removal whose DEL fails the next get answers the row that is gone |
| `MetaCache.LateFillIsStale` | src/db/meta_store.cpp:560-582 | A get that reads its row, lets a put of another digest go by and then fills the cache leaves the old row cached, from every state |
| `MetaCache.PutKeeps` | src/db/meta_store.cpp:388-399 | A put that does no harm keeps the cache in agreement, and the fast path may leave it alone since a key without a row has no entry |
| `MetaCache.SecondGetIsCached` | src/db/meta_store.cpp:532-584 | What a get has found the next one finds without the table, if the cache can be written and read |
| `MetaCache.SharedSlotConfuses` | src/db/meta_store.cpp:485-524 | For any two keys that share an index entry, a five-step run makes the cache disagree with the table |
| `MetaCache.CaseConfuses` | scripts/mysql_init.sql:2 | Under a collation that does not tell "A" from "a", these two keys do so |
| `MetaCache.CachedStore.GetObject` | src/db/meta_store.cpp:532-584 | The get through the cache refines the function that the theorem is about |
| `Idempotency.ReplayIffLive` | src/api/handlers/object_handlers.cpp:46-122 | Once a put has been made and recorded, and after any other events while the record is there: a later request under a key that the collation takes for the same is answered from the record if and only if its bucket is there, its body can be stored, the queries succeed and the time plus the server's offset from Greenwich is before the recorded expiry; it gets the recorded answer if its hash is the same and a conflict if not; and up to that time no table changes, whatever fails |
| `Idempotency.ReplayIsHarmless` | src/api/handlers/object_handlers.cpp:98-122 | On a server that is not east of Greenwich the same request gets the same answer, and changes no table, as long as the record was to live and the bucket is there |
| `Idempotency.LivesItsTimeIffNotEast` | src/db/meta_store.cpp:18-39 | A record lives as long as it was to live if and only if the server's local time is not ahead of Greenwich: the expiry is written in Greenwich time and read back as local time |
| `Idempotency.EastForgets` | src/db/meta_store.cpp:18-39 | East of Greenwich: a put, another put of the object, and the first request again within its record's lifetime, which is made again, over the second; with the offset of Asia/Shanghai, 28800, in the last eight hours of the record's day |
| `Idempotency.BucketComesFirst` | src/api/handlers/object_handlers.cpp:46-53 | When the bucket is gone the same request is answered that it is not found, whatever is recorded |
| `Idempotency.BucketGoes` | src/api/handlers/object_handlers.cpp:46-53 | A run that comes to that: a put, the removal of its object and the removal of the bucket |
| `Idempotency.CreatedIsStored` | src/api/handlers/object_handlers.cpp:64-141 | Whatever was there before: a put that is answered Created has put a row with the digest and size of its body, its ETag and content type, the body is in the file of its digest, and the answer says bucket, key, ETag and size; every other object and every part is left alone |
| `Idempotency.AnswerIs` | src/api/handlers/object_handlers.cpp:35-183 | When nothing fails: a streamed body with another digest than declared, or a missing or empty or wrongly declared whole body once the bucket is found, is a bad request; a missing bucket is not found; else the record answers, or the put is made |
| `Idempotency.OthersLeaveTables` | src/api/handlers/object_handlers.cpp:98-122 | Any other answer leaves tables and records alone, and a body that was neither streamed nor known leaves its file behind if and only if the put got as far as the record and this answered or could not be read |
| `Idempotency.SweepTakesExpired` | src/db/meta_store.cpp:1265-1319 | The sweep takes exactly the records that have expired by its clock |
| `Idempotency.OthersLeaveRecords` | src/api/handlers/bucket_handlers.cpp:77-112 | The other requests of a run: a bucket is made under a new name, and removed only without objects; none of them touches files or records |
| `Idempotency.HashCoversBodyIffDeclared` | src/api/handlers/object_handlers.cpp:101-105 | A replay is sure to be of the same contents if and only if the first request declared its digest or had no contents |
| `Idempotency.RecordStays` | src/db/meta_store.cpp:1265-1319 | A record stays as it is until it expires, by what is read back for puts and by what is written for the sweep, whatever comes in |
| `Idempotency.ObjectHandlers.HandlePut` | src/api/handlers/object_handlers.cpp:35-183 | The handler's branches, the bucket first and with their clean-up, refine the function that CreatedIsStored, AnswerIs and the replay theorems are about |
| `Resp.BulkReadsBack` | src/util/redis_cache.cpp:158-173 | A bulk string reads back as written, CR LF and all, and leaves the stream at the next reply, if and only if its length fits an int; a longer one throws |
| `Resp.ReplyReadsBack` | src/util/redis_cache.cpp:158-180 | The answer to a GET reads back, be there a value or none, and leaves the stream at the next reply, if and only if the length of a value fits an int |
| `Resp.OtherReplies` | src/util/redis_cache.cpp:174-179 | A reply of another type is no value, and only its line is taken off the stream |
| `Resp.ShortReplies` | src/util/redis_cache.cpp:163-170 | A value that breaks off is no value, and uses the stream up |
| `Resp.StoiIs` | src/util/redis_cache.cpp:160 | The length of a reply is read as white space, a sign and digits, whatever follows; without digits, or beyond an int, the reader throws |
| `Resp.ArgumentsReadBack` | src/util/redis_cache.cpp:251-258 | The arguments of a command can be told apart again, whatever octets they hold |
| `Resp.RedisCache.SendCommandGetBulk` | src/util/redis_cache.cpp:143-180 | Whatever pieces the socket takes and gives, the command goes out whole unless a send fails, and then the reply is what the framing says, with the stream after it |
| `Resp.RedisCache.BuildRespCommand` | src/util/redis_cache.cpp:251-258 | The loop writes the count and then every argument as a bulk string |
| `Resp.RedisCache.ReadLine` | src/util/redis_cache.cpp:219-235 | The line up to the first CR LF, which is taken off the stream |
| `Resp.RedisCache.ReadExact` | src/util/redis_cache.cpp:237-249 | Exactly the bytes asked for, in whatever pieces they come |
| `Resp.RedisCache.SendAll` | src/util/redis_cache.cpp:207-217 | All of the data in order, whatever pieces the socket takes, or what it took before the first send that fails; without one all of it goes out |
| `Fragmentation.FragmentationIndependence` | src/net/http/http_parser.cpp:33-102 | For every way of cutting the input into reads, the parser reaches the same state, request and unread bytes as on one read of it all, if and only if no line, with its CR, exceeds the limit for its kind |
| `Fragmentation.FeedIsRun` | src/net/http/http_parser.cpp:33-102 | Parsing after each read comes to one parse of everything, CR and LF in different reads included |
| `Fragmentation.LongLineCut` | src/net/http/http_parser.cpp:40-44 | For every input with a longer line there is a place to cut it that changes the outcome |
| `RequestText.RequestLineReadBack` | src/net/http/http_parser.cpp:143-189 | A request line reads back to its method, path, query and version |
| `RequestText.FieldReadBack` | src/net/http/http_parser.cpp:191-212 | A header line reads back to its folded name and trimmed value |
| `RequestText.HeadReadBack` | src/net/http/http_parser.cpp:33-102 | A whole head reads back field for field and leaves the rest unread: it is an error if the declared length is no numeral below 2^64, or positive although the request is chunked; else a chunked request or a positive length announces a body, and everything else is a complete request |
| `RequestText.BodylessArrives` | src/net/http/http_parser.cpp:83-91 | However a well-formed request without a length, or with length zero, and without transfer coding is cut into reads, it is complete at its blank line, is delivered once, field for field and without a body, and what follows stays unread |
| `RequestText.RequestLineAcceptedIff` | src/net/http/http_parser.cpp:143-189 | A request line is accepted if and only if it is a known method, a target without blanks and HTTP/1.0 or HTTP/1.1, with one blank between them |
| `RequestText.HeaderLineAcceptedIff` | src/net/http/http_parser.cpp:191-212 | A header line is accepted if and only if it has a colon |
| `RequestText.HeaderLineIs` | src/net/http/http_parser.cpp:191-212 | The name is what is before the first colon, folded, and the value what is after it without the blanks and tabs around it |
| `RequestText.LowerFolds` | src/net/http/http_parser.cpp:191-212 | Two names fold to the same if and only if they differ at most in the case of letters |
| `RequestText.RequestArrives` | src/net/http/http_connection.cpp:98-191 | However a well-formed request with a body is cut into reads, it is delivered exactly once, field for field and byte for byte, and what follows stays in the buffer |
| `BodyDelivery.ReadsAreOneRead` | src/net/http/http_connection.cpp:98-135 | Any sequence of reads leaves the connection, with all it delivered and queued, as one read of all the bytes does |
| `BodyDelivery.BodyIsExact` | src/net/http/http_connection.cpp:98-173 | For every fragmentation the body handed over is exactly the declared bytes after the blank line, the request is delivered once when they are complete, and later bytes stay unread; a chunked request declares none, and is delivered when anything follows |
| `BodyDelivery.ChunkedHasNoBody` | src/net/http/http_connection.cpp:107-121 | For every fragmentation a chunked request that anything follows is delivered with an empty body, and all that follows stays unread |
| `RequestText.ChunkedArrivesEmpty` | src/net/http/http_connection.cpp:98-173 | However a request whose body is in the chunked coding of section 7.1 of RFC 9112 is cut into reads, it is delivered once, field for field, and with an empty body, so that what was sent arrives if and only if all its pieces are empty |
| `Conversations.ConversationIsExact` | src/net/http/http_connection.cpp:98-272 | For every sequence of well-formed requests on one connection, with bodies or without, each but perhaps the last asking to keep it open, however they are cut into reads, even with a beginning of the next ones in the same read, and whatever pieces the answers go out in: the application is given exactly these requests and bodies in order, the client gets exactly the answers in order, and the connection is closed at the end if and only if the last request does not ask to keep it open |
| `Conversations.ExchangeIsExact` | src/net/http/http_connection.cpp:204-215 | One exchange: once the answer is out the connection is ready for the next request, with nothing left of this one but the bytes that came after it, or is closed |
| `Conversations.KeptAliveIffStaysOpen` | src/net/http/http_request.cpp:103-120 | A connection is kept if and only if the Connection field, in any case of letters, does not say close, and says keep-alive or the version is HTTP/1.1 |
| `Conversations.TooLargeIsRefused` | src/net/http/http_connection.cpp:144-150 | A declared length above the limit is refused at once: nothing is delivered, and the connection is closed after the refusal |
| `Conversations.MalformedIsRefused` | src/net/http/http_connection.cpp:181-184 | Input that the parser refuses gets its error as answer and delivers nothing |
| `Conversations.EndIsFinal` | src/net/http/http_connection.cpp:125-135 | When the client closes or a read fails the connection is closed, and nothing is delivered or sent from then on, not even an answer that is still to come |
| `HttpParsing.HttpParser.Parse` | src/net/http/http_parser.cpp:33-141 | The state machine over the buffer refines the function on byte strings that HeadReadBack and the line theorems are about, and takes off the buffer exactly what it used |
| `HttpParsing.HttpParser.ConsumeBody` | src/net/http/http_parser.h:82-90 | Taking body bytes counts the remaining length down and completes the message exactly at zero |
| `HttpConnections.HttpConnection.HandleRead` | src/net/http/http_connection.cpp:98-135 | A read event on the real buffers, be it bytes, the end of the stream, an error or nothing yet, refines the connection's step |
| `HttpConnections.HttpConnection.HandleHeaders` | src/net/http/http_connection.cpp:137-191 | Each outcome of parsing, the refusal of a body that is too large included, refines the connection's step |
| `HttpConnections.HttpConnection.HandleWrite` | src/net/http/http_connection.cpp:193-272 | A write event with any accepted counts refines the connection's step, whose end of a response ConversationIsExact characterises |
| `HttpConnections.HttpConnection.Send` | src/net/http/http_connection.cpp:304-339 | A response is queued behind nothing, and a file that cannot be opened is replaced by an error response |
| `Sending.FileResponse` | src/net/http/http_connection.cpp:228-272 | Whatever events come, failed writes and the idle timer included, the socket gets a beginning of head plus file slice; and for every sequence of partial writes and sendfile counts all of it once the connection has stopped sending |
| `Sending.PlainResponse` | src/net/http/http_connection.cpp:202-226 | The same for a response without a file |
| `Sending.WriteKeepsTotal` | src/net/http/http_connection.cpp:228-272 | Each write event keeps what was sent plus what is queued plus what is left of the file, and ends only when nothing is owed |
| `Sending.WriteProgress` | src/net/http/http_connection.cpp:228-272 | Whenever the socket takes something the bytes owed decrease, and with none owed the next event ends the response |
| `Sending.CompletableIffInFile` | src/net/http/http_connection.cpp:246-271 | A file response can be brought to its end by writes, short of a failure, if and only if its slice lies within the file |
| `Sending.PastEndNeverEnds` | src/net/http/http_connection.cpp:261-271 | No sequence of writes ends a response whose slice goes past the end of the file: the connection goes on until a write fails or the idle timer closes it |
| `Ranges.RangeIsRight` | src/api/handlers/object_handlers.cpp:419-471 | For every single byte range of section 14.1.2 of RFC 9110 the answer is exactly the selected slice, with start <= end < size, or a refusal exactly when nothing is selected, if and only if the range is not the zero suffix and its numbers are below 2^64 |
| `Ranges.HugeEndThrows` | src/api/handlers/object_handlers.cpp:444-462 | For every n of 2^64 or more, as in bytes=0-18446744073709551616, the range from 0 to n selects bytes of any object that is not empty, and the number reader throws |
| `Ranges.RangeResponse` | src/api/handlers/object_handlers.cpp:222-258 | End to end, for a header that is a range: one that is not refused gets a response that writes can bring to its end if and only if it is not the zero suffix and its numbers are below 2^64, and then the socket gets the head and exactly the selected bytes |
| `Ranges.WholeResponse` | src/api/handlers/object_handlers.cpp:219-258 | Without a Range header, or with an empty one, the answer announces all of the object, writes can bring it to its end, and then the socket has got the head and all of the object, be it empty or not |
| `Ranges.OtherHeadersAreRefused` | src/api/handlers/object_handlers.cpp:419-471 | A header that is not the text of a single byte range is refused, and so is any range of an empty object |
| `ByteBuffers.ByteBuffer.Append` | src/net/buffer/byte_buffer.cpp:52-57 | First in, first out: what was taken plus what is readable is what was written, and the data is added at the end, whatever space had to be made |
| `ByteBuffers.ByteBuffer.MakeSpace` | src/net/buffer/byte_buffer.cpp:154-167 | The requested room is there afterwards and the readable bytes are unchanged |
| `ByteBuffers.ByteBuffer.Compact` | src/net/buffer/byte_buffer.cpp:160-165 | Moving the readable bytes down over themselves, which happens only from beyond the first eight bytes, keeps them |
| `ByteBuffers.ByteBuffer.Retrieve` | src/net/buffer/byte_buffer.cpp:15-28 | The oldest bytes are taken, at most as many as there are |
| `ByteBuffers.ByteBuffer.RetrieveAsString` | src/net/buffer/byte_buffer.cpp:34-38 | The oldest bytes are returned and taken |
| `ByteBuffers.ByteBuffer.Prepend` | src/net/buffer/byte_buffer.cpp:71-75 | The bytes go in front of the readable ones |
| `ByteBuffers.ByteBuffer.Shrink` | src/net/buffer/byte_buffer.cpp:84-92 | The readable bytes move to a buffer of the least size plus the reserve |
| `ByteBuffers.ByteBuffer.ReadFd` | src/net/buffer/byte_buffer.cpp:115-141 | Bytes that come in are added at the end, also when they overflow into the spare buffer |
| `ByteBuffers.ByteBuffer.WriteFd` | src/net/buffer/byte_buffer.cpp:143-152 | Bytes the socket accepted are taken, in order; a failure takes none |
| `ByteBuffers.FirstCRLF` | src/net/buffer/byte_buffer.cpp:94-98 | The line end that is found is the first position that holds CR LF, and none is found exactly when there is none |
| `TimerWheels.TimerWheel.AddTimer` | src/net/epoll/timer_wheel.cpp:15-34 | The ring of buckets refines a map from id to deadline: adding adds one timer |
| `TimerWheels.TimerWheel.CancelTimer` | src/net/epoll/timer_wheel.cpp:36-45 | Cancelling removes one timer from the map, however many stale entries the ring still holds |
| `TimerWheels.TimerWheel.RefreshTimer` | src/net/epoll/timer_wheel.cpp:47-74 | Refreshing sets the deadline of a known timer anew, through a second entry and a cancelled first one |
| `TimerWheels.TimerWheel.Tick` | src/net/epoll/timer_wheel.cpp:76-112 | A tick fires exactly the timers that are due, each once, sets the repeating ones anew and brings the others one tick closer |
| `TimerWheels.AddedFires` | src/net/epoll/timer_wheel.cpp:15-34 | In every run that leaves it alone, an added timer fires exactly ((d-1) mod W)+1 ticks later, which is d for 1 <= d <= W, and a repeating one on every multiple of that |
| `TimerWheels.RefreshedFires` | src/net/epoll/timer_wheel.cpp:47-74 | The same for a refreshed timer, from its refresh on |
| `TimerWheels.CancelledNeverFires` | src/net/epoll/timer_wheel.cpp:36-45 | In every run that leaves it alone, a cancelled timer never fires |
| `TimerWheels.Repeats` | src/net/epoll/timer_wheel.cpp:95-111 | A repeating timer fires when due and then every period, and on no other tick |
| `TimerWheels.OneLiveEntry` | src/net/epoll/timer_wheel.cpp:28-33 | At every state an id is in the id map if and only if an entry with that id that is not cancelled is in the ring, and then there is exactly one |
| `TimerWheels.SlotAhead` | src/net/epoll/timer_wheel.cpp:28-29 | The slot that an entry is put into is reached after ((d-1) mod W)+1 ticks |

## Left out

- MetaStores.PutObjectIsAtomic: is about calls whose START TRANSACTION and ROLLBACK statements are in order; ControlFailures.PutAtomicIffOrderly says that this is exactly what it takes.
- MetaStores.PutPartIsAtomic: likewise, with ControlFailures.PartAtomicIffOrderly.
- MetaStores.DeleteObjectIsAtomic: likewise, with ControlFailures.DeleteAtomicIffOrderly.
- MetaStores.FastIsAtomic: is about an attempt whose START TRANSACTION and ROLLBACK are in order; what others lead to is part of ControlFailures.PutAtomicIffOrderly.
- MetaStores.CanDeleteIsRight: is about a call whose START TRANSACTION and ROLLBACK are in order; without a transaction the three questions are answered one by one.
- LedgerSafety.CountsAreReferences: a failed decrement is not a leak by itself; the leak comes with the deletion of the upload, which takes the row.
- CollectionComplete.DrainingLeavesDropped: the batches that drain the queue succeed, and no request runs meanwhile.
- UploadServer.UploadContext.OnBodyData: a connection that has been told to send an error hands over no more body, so that in Protocol what a failed write leaves comes after all that was hashed.
- HttpConnections.HttpConnection.HandleRead: body callbacks that send a response themselves are not modelled, and neither is the closing that they queue.
- Idempotency.ReplayIffLive: the request hash is a record of path, size and declared digest instead of the digest of their text; the offset from Greenwich is the same throughout a run (no summer time), and the ETag header, which the replayed answer lacks, is not modelled.
- Transactions are atomic and a COMMIT that fails has rolled back; READ COMMITTED anomalies, automatic reconnection in the middle of a transaction, SQL text and escaping are not modelled.
- A collation under which two keys are equal and their first 255 characters are not (ignorable or combining characters at the cut): the lookup by key would find the other's row, which the model does not.
- The in-memory cache of buckets (the bucket check asks the table), the connection pool, listing of objects and page walks by returned markers.
- A request that is whole in the buffer when the response before it ends waits for the next read; and what the bytes of a chunked body come to as the next request is not followed up.
- The order in which timers that are due at the same tick fire.
- Status line and header fields of responses other than the length: a response's head is one string.
- The service layer in src/service, which the routes do not use and which counts references differently.
- The time between a transaction and the queueing of the digest that it reports, and restarts, which lose the queue.
- Timer callbacks that re-enter the wheel: firings are recorded instead.
- Authentication, presigning, routing, JSON, logging, metrics, threads, epoll and fsync.
- The removal of a quarantined file that fails leaves that file behind under its quarantine name; such files are not tracked.
