# Notes of Ashen: models and proofs

This project models the parts of the Notes of Ashen blog whose correctness depends on order, time or
exact text handling, and proves what they promise. Every SQL statement, transaction, Lua script and network
call is one atomic step on maps, sets and sequences; a network call may also be lost, with or without its
effect, and a process may die between any two steps. Nothing here was executed.

- **RAG index protocol.** The single index row with its epoch, fingerprint and fencing lease
  (`index_row.dfy`), the outbox of indexing jobs (`outbox.dfy`) with which rows a claim gets
  (`outbox_claims.dfy`), when a job gets a second holder (`outbox_holders.dfy`) and what each statement leaves
  (`outbox_effects.dfy`), whose claims the recorded target admits (`index_target.dfy`), the vector store as a
  point set (`points.dfy`), the worker as a step machine (`index_worker.dfy`), index agreement over every run
  (`index_agreement.dfy`), one embedding model per index (`index_model.dfy`), how jobs, batches and rebuilds
  get to their end (`job_progress.dfy`, `batch_progress.dfy`, `rebuild_progress.dfy`), lease arithmetic
  (`lease_clock.dfy`) joined with the stored row (`lease_fencing.dfy`), and the rebuild coordinator of one
  process (`coordinator.dfy`).
- **Redis leases.** The sorted set that bounds concurrent streams (`stream_limiter.dfy`), exactly when its
  bound holds (`stream_tightness.dfy`), when its key expires (`key_expiry.dfy`), and the restore lock with its
  renew loop (`restore_lease.dfy`) and what its holder can rely on (`restore_progress.dfy`).
- **Markdown chunker.** Normalizing (`markdown_normalize.dfy`), what it makes of line ends, front matter and
  ordinary lines (`front_matter.dfy`) and what a second cleaning finds (`markdown_images.dfy`), the fence-aware
  scanner (`markdown_blocks.dfy`) and its lines (`fence_lines.dfy`), cutting into blocks
  (`markdown_cut.dfy`), the whole of SplitMarkdown (`markdown_units.dfy`), heading paths against enclosing
  headings (`heading_paths.dfy`), packing and overlapping windows (`chunk_packing.dfy`), and the way of every
  line into the chunks (`lines_in_chunks.dfy`, `content_lines.dfy`), on lines of text (`text_lines.dfy`).
- **Article store.** LIKE escaping (`like_patterns.dfy`), slugs of imported articles (`slug_choice.dfy`), when
  they are new (`slug_newness.dfy`) and accepted (`slug_acceptance.dfy`), display order and neighbour links
  (`display_order.dfy`), version history (`article_history.dfy`), and the jobs article writes leave in the
  outbox (`article_jobs.dfy`), on status and visibility (`articles.dfy`).
- **Migrations.** Discovering the embedded files (`migration_files.dfy`) and the runner (`migrations.dfy`).
- **Search and backup.** Reindexing (`search_reindex.dfy`), export and restore (`site_backup.dfy`,
  `site_restore.dfy`), on ORDER BY as a function of a set (`ordering.dfy`).

`basics.dfy` and `decimals.dfy` hold shared vocabulary. An article appears as three records, one for each part
of the system: what the indexer reads (`index_worker.dfy`), the columns the list order and its neighbour
queries read (`display_order.dfy`), and the whole stored row with its history (`article_history.dfy`). They
share status and visibility, and no property relates the columns one view has to those another view has.

## What the proofs found

Where a natural expectation of the code is false, the project holds a concrete input and the exact condition.

- Two unexpired holders of one outbox job are possible: enqueuing an article again clears the lease of a job
  in progress. A due job with one holder can be claimed by a second if and only if the article was enqueued
  again since the holder's claim, and a run keeps one holder per job throughout if and only if no claim of it
  takes over an older version. Holders always have different versions, and only the latest can remove the job.
- The rebuild lease guarantees 10 min 10 s *less the time the claim call took to return*: a job of 8 minutes
  ends before takeover is possible if and only if that latency is under 2 min 10 s.
- A ready index can hold points of two embedding models: settings are saved before the row is told to rebuild,
  and a batch that runs in between embeds with the new settings into the old epoch. An insertion keeps one
  model if and only if the worker's fingerprint is the row's, and a run keeps one model throughout if and only
  if that holds for each of its insertions into a ready index.
- Streams whose context is not cancelled stay within the limit in every run if and only if a third of the time
  to live and two Redis timeouts together are less than the time to live, whatever the limit is. The deployed
  12 minutes are enough.
- The sorted set's key expires with its latest lease, late by the delay of the script that set the expiry, if
  and only if no acquire goes through beside a later lease: an acquire looks at its own score only. The key
  never expires before a stored lease either way.
- The comment at `model/article.go:319-321` says that publishing again keeps the first publication time. The
  code does so if and only if the article is still published; the model follows the code.
- A version cannot be restored once one of its tags was deleted or its slug was taken, and a version number
  that does not exist yet can be restored when it is the next one.
- An imported slug is new whatever is stored if and only if its base has at most 176 of the 180 characters
  allowed and no white space at its ends: otherwise a numbered candidate is cut or trimmed out of the family
  the query looked at. It is accepted by the unique index whatever is stored if and only if, besides, the
  collation takes no other character for one of the base, a dash or a digit.
- Cleaning a line of Markdown twice is cleaning it once if and only if removing its images twice is removing
  them once. The first pass and the later ones agree on the fences if and only if no cleaned line becomes a
  fence opening.
- All heading paths of a document are the enclosing headings if and only if every heading keeps as many
  headings of the path as really enclose it. Documents that skip no level do, and so do some that skip one;
  two level-2 sections without a level-1 heading come out one inside the other. At any one place the path
  contains the enclosing headings in order, and is just them if and only if it is as long.
- A failed listing of stale search documents is reported as success; the index is then as wanted if and only
  if nothing was stale.

## Model

| member | source | states |
|---|---|---|
| IndexRow.IndexTable.Begin | model/rag.go:268-321 | A claim is granted on a free or expired row without another target with the next epoch, the caller's fingerprint, token and lease; refused with the row unchanged otherwise |
| IndexRow.IndexTable.Mark | model/rag.go:323-350 | The column-by-column update equals the simultaneous one: a running rebuild keeps epoch and lease and only changes its target, any other row needs a rebuild |
| IndexRow.IndexTable.Complete | model/rag.go:352-367 | The row becomes ready exactly for the unexpired owner of the epoch and fingerprint, and is unchanged otherwise |
| IndexRow.IndexTable.Release | model/rag.go:369-384 | The row goes back to needing a rebuild exactly for the unexpired owner, whatever the fingerprint is now |
| IndexRow.IndexTable.Fail | model/rag.go:386-401 | The row becomes failed exactly for the unexpired owner of the epoch and fingerprint |
| IndexRow.IndexTable.Renew | model/rag.go:403-418 | The lease is extended for the unexpired owner; the result says whether the row changed |
| IndexRow.StepEpoch | model/rag.go:268-418 | A call raises the epoch by one exactly when it is a granted claim or a site restore, and never changes it otherwise |
| IndexRow.EpochCounts | model/rag.go:268-418 | Over every interleaving the epoch is the starting epoch plus the number of granted claims and restores |
| IndexRow.EpochGrows | model/rag.go:268-418 | So it is greater after any claim or restore in between |
| IndexRow.OneClaimantPerEpoch | model/rag.go:268-321 | Two granted claims of a run never share an epoch |
| IndexRow.FencedOut | model/rag.go:352-418 | Once the epoch has advanced past a claim, no call made with that claim's epoch changes the row |
| IndexRow.NonOwnerChangesNothing | model/rag.go:352-418 | Complete, fail, release and renew by anybody but the unexpired owner leave the row as it is |
| IndexRow.ReadyMeansClaimedModel | model/rag.go:268-401 | In every reachable state with status ready, the row's fingerprint is the one its epoch was claimed with |
| IndexRow.RetargetedNeverReady | model/rag.go:320-401 | A rebuild whose target was changed never makes the row ready or failed, unless the old target is marked again |
| IndexRow.RetargetedRun | model/rag.go:320-401 | The same for every run from the empty history in which another target is recorded during a rebuild |
| IndexRow.RetargetedLeavesOnlyRelease | model/rag.go:323-401 | After a new target is marked, the owner's complete, fail and renew do nothing and only release takes effect |
| IndexTarget.GrantIff | model/rag.go:268-321 | A valid claim is granted exactly for the recorded target, or when there is none, on a free row with epochs left |
| IndexTarget.NoGrantNoChange | model/rag.go:268-321 | A claim that is not granted changes nothing; it is invalid exactly without fingerprint, token or duration |
| IndexTarget.GrantOwns | model/rag.go:268-321 | The granted claim owns the row exactly until its lease runs out, and nobody else is granted it before |
| IndexTarget.TargetIsKept | model/rag.go:268-350 | In every run without restore or other target, a recorded target stays and every granted claim is for it |
| IndexTarget.TargetIsClaimable | model/rag.go:268-350 | And a valid claim for it is granted exactly when the row is free and epochs are left |
| IndexTarget.OwnerEnds | model/rag.go:352-401 | What the owner's complete, fail and release leave in every column |
| IndexTarget.RenewalExtends | model/rag.go:403-418 | After a renewal the owner owns the row exactly until the new expiry; an invalid one does nothing |
| IndexTarget.StatsReachReady | model/rag.go:420-429 | New counts reach exactly a ready row of that epoch |
| IndexTarget.EpochStaysBounded | model/backup.go:442-460 | No call goes beyond the greatest epoch, and a restore at it leaves the row alone |
| IndexTarget.CurrentIff | model/rag.go:248-256 | A snapshot is in force exactly while status, epoch, target and, in a rebuild, the live lease are the row's |
| IndexTarget.SnapshotEnds | model/rag.go:248-401 | It ends with the next claim, another target, a restore, and the end of its rebuild |
| Outbox.JobStore.EnqueueJob | model/rag.go:152-165 | A new job, or the next version of the article's job: due anew, without lease, attempts kept |
| Outbox.JobStore.FailJob | model/rag.go:218-230 | The job with that id is put off and its lease given back exactly when it carries that token |
| Outbox.JobStore.ClaimJobs | model/rag.go:167-208 | The rows the query answers get the caller's token, one more attempt and a new expiry and are returned as stored; invalid arguments claim nothing; all other jobs are unchanged |
| OutboxClaims.SelectionIff | model/rag.go:182-183 | The answer of the claim query is exactly the first rows, up to the limit, of those due, unleased and not locked by others, by run_after and id |
| OutboxClaims.OverlappingClaimsAreSerial | model/rag.go:180-206 | A claim that skips the rows another claim has locked gets exactly what it would get after the other's commit, none of its rows, and the two commute |
| Outbox.JobStore.LeaseJobs | model/rag.go:195-203 | The loop leases the answer rows one by one, each once, and returns them as stored |
| Outbox.JobStore.CompleteJob | model/rag.go:210-216 | The job with that id is removed exactly when it carries that token |
| OutboxEffects.EnqueueLeaves | model/rag.go:152-165 | After an enqueue the article has a job of that kind, at its next version, unleased and claimable exactly from the given time on; others stay |
| OutboxEffects.ClaimLeaves | model/rag.go:167-208 | A claimed job carries the token and one more attempt and cannot be claimed again before its lease runs out |
| OutboxEffects.CompleteLeaves | model/rag.go:210-216 | Exactly the row with that id and token goes |
| OutboxEffects.ReleaseLeaves | model/rag.go:218-230 | A job given back is as it was, and claimable exactly from the given time on |
| OutboxEffects.HolderCloses | model/rag.go:210-216 | In every run a holder whose claim is of the present version removes the job by completing it |
| OutboxEffects.TimeFrees | model/rag.go:180-185 | A job comes free exactly when it is due and its lease has run out |
| Outbox.RemovalFollowsLatestEnqueue | model/rag.go:152-216 | In every run, whoever removes a job claimed it after the article's latest enqueue, at its present version, and removes nothing else |
| Outbox.LaterEnqueueSurvives | model/rag.go:152-216 | A job enqueued again after a claim outlives that claim's completion unchanged |
| Outbox.OneHolderPerVersion | model/rag.go:152-208 | Two unexpired, not yet returned claims of one job hold different versions of its article |
| Outbox.TwoHoldersExample | model/rag.go:153-165 | A run in which one job has two unexpired holders |
| OutboxHolders.EligibleIff | model/rag.go:152-208 | In every reachable state a due job can be claimed exactly when every unexpired holder of it claimed an older version |
| OutboxHolders.SecondClaimIff | model/rag.go:152-208 | A sole holder can be joined by a second exactly when the article was enqueued again since its claim |
| OutboxHolders.SecondHolderIff | model/rag.go:152-230 | A call ends one holder per job exactly when it claims a job somebody holds for an older version |
| OutboxHolders.OneHolderRunIff | model/rag.go:152-230 | No job of a run ever has two unexpired holders exactly when no claim of the run takes one over |
| Outbox.JobMatchesVisibility | model/article.go:369-379 | The job a write leaves is due exactly once a published article is visible, and removes any other article |
| Outbox.InvRun | model/rag.go:152-230 | The invariant behind these results holds in every reachable state of any number of workers |
| VectorPoints.IdTextInjective | internal/rag/worker.go:718-728 | The text hashed into a point id determines epoch, article, chunk index and source hash |
| VectorPoints.DeleteAbs | internal/ragclient/qdrant.go:93-100 | Deleting an article at an epoch removes exactly its points of that epoch, on ids as on keys |
| VectorPoints.UpsertAbs | internal/ragclient/qdrant.go:102-117 | Storing points under hashed ids is storing them under their keys, the later of two equal ones staying |
| VectorPoints.CallElsewhere | internal/ragclient/qdrant.go:85-150 | A call stamped with another epoch does not change what a search at this epoch can return |
| VectorPoints.EpochNonInterference | internal/rag/worker.go:331-404 | Over any interleaving of calls by any number of workers, searches at an epoch see only the calls of that epoch |
| VectorPoints.DeletedIsGone | internal/ragclient/qdrant.go:93-100 | After any calls and a deletion nothing of that article is found at that epoch, and all the rest is as it was |
| VectorPoints.InsertedIsFound | internal/ragclient/qdrant.go:102-117 | After any calls and an insertion the last point of each key is found with its content, other keys as they were |
| IndexWorker.RetryDelay | internal/rag/worker.go:711-716 | Retries wait between one minute and 256 minutes |
| IndexWorker.RetryDelayDoubles | internal/rag/worker.go:711-716 | The delay starts at a minute and doubles with each attempt up to the eighth |
| IndexAgreement.JobStep | internal/rag/worker.go:331-404 | A step of processJob keeps what its position knows of the article and touches only its points at its epoch |
| JobProgress.CourseNext | internal/rag/worker.go:331-404 | With its calls answered and its row in force a job goes through exactly the positions its operation and its article call for |
| JobProgress.IndexedMatches | internal/rag/worker.go:331-404 | At the end the article's points are exactly what the job is to leave, and no other point has changed |
| JobProgress.ScheduleComes | model/article.go:1043-1048 | With time a published article is public exactly once its schedule has come |
| JobProgress.JobBreaks | internal/rag/worker.go:331-419 | A lost answer breaks a job off, and a check that finds another row breaks it off as stale |
| JobProgress.LostWork | internal/rag/worker.go:280-404 | A lost call changes the worker only, or, if it took effect, the rest just as an answered one does |
| JobProgress.StaleBatchIsHarmless | internal/rag/worker.go:280-404 | A batch whose row is no longer in force adds no point and removes no job, whatever comes of its calls |
| JobProgress.BrokenIsPutOff | internal/rag/worker.go:307-321 | A job that broke off goes back unleased: due now if stale, otherwise after the retry delay |
| JobProgress.PutOffIsDue | internal/rag/worker.go:307-321 | It can be claimed again exactly from then on |
| BatchProgress.BatchEnds | internal/rag/worker.go:280-325 | From every reachable start of a job, answered steps lead to idle: every job still held is removed, whatever its article is, and the batch's points are as they should be |
| BatchProgress.RoundEnds | internal/rag/worker.go:253-325 | A round from any reachable idle state removes exactly the jobs it claimed and leaves for their articles the chunks of the public content |
| BatchProgress.LostClaim | internal/rag/worker.go:290-296 | A claim without answer leaves the worker idle, with nothing leased if it had no effect |
| BatchProgress.RoundNeedsReady | internal/rag/worker.go:259-290 | A round goes on only with RAG on and a ready row, whose values it takes |
| RebuildProgress.RebuildEnds | internal/rag/worker.go:459-562 | A claimed rebuild whose steps are answered, under unchanged settings, makes the row ready at the next epoch, and the points are exactly the chunks of every public article |
| RebuildProgress.ListingIff | model/rag.go:432-452 | The listing is of exactly the public articles |
| RebuildProgress.RebuildBreaks | internal/rag/worker.go:459-562 | A lost answer, a check that finds another row and a failed article all lead to the failure update |
| RebuildProgress.LostStep | internal/rag/worker.go:459-562 | A lost call changes the worker only, or, if it took effect, the rest just as an answered one does |
| RebuildProgress.NoRebuildWithoutGrant | internal/rag/worker.go:466-480 | Without a granted and answered claim no rebuild starts |
| RebuildProgress.ExistingCollectionFails | internal/rag/worker.go:490-492 | A collection that is still there is not created again |
| RebuildProgress.BrokenRebuildGivesUp | internal/rag/worker.go:686-703 | Such a rebuild leaves the row it owns failed, or, under another target, waiting with that target |
| RebuildProgress.OtherSettingsRelease | internal/rag/worker.go:513-535 | A rebuild that finds other settings leaves the row waiting with its target |
| IndexAgreement.InsertMatches | internal/rag/worker.go:372-404 | Inserting an article's batch where none of its points are leaves exactly the chunks of its content |
| IndexAgreement.WriteStep | model/article.go:369-379 | An article write or deletion, with its job in the same transaction, keeps the invariant at any moment of a task |
| IndexAgreement.WorkStep | internal/rag/worker.go:280-404 | Every step of draining the outbox keeps the invariant, lost calls included |
| IndexAgreement.RebuildStep | internal/rag/worker.go:459-562 | Every step of a rebuild keeps the invariant, lost calls included |
| IndexAgreement.InvStep | internal/rag/worker.go:253-562 | Every step of the system keeps the invariant: time, writes, settings, targets, restarts, claims, jobs and rebuilds |
| IndexAgreement.InvRun | internal/rag/worker.go:253-562 | The invariant holds after every run |
| IndexAgreement.ReadyIndexAgrees | internal/rag/worker.go:253-562 | In every run from an empty database, when the row is ready and an article has no job, its points at the row's epoch are exactly the chunks of its current content if it is publicly visible, and none otherwise |
| IndexModel.OneModelRunIff | internal/rag/worker.go:273-562 | A ready index holds points of one model throughout a run exactly if no insertion of the run meets a ready row of another model than the worker's |
| IndexModel.MatchedIndexHasOneModel | internal/rag/worker.go:273-330 | So it does if no batch starts with settings other than the row's |
| IndexModel.InsertionKeepsOneModelIff | internal/rag/worker.go:372-404 | An insertion into a ready index keeps one model exactly when the worker's fingerprint is the row's |
| IndexModel.MixedModelsExample | internal/logic/rag/rag.go:114-124 | A run that ends with a ready row, an empty outbox and a point of another model |
| LeaseClock.WorkFitsIff | internal/rag/worker.go:113-175 | Work begun at any moment of a live guard ends before takeover exactly when it is shorter than the lease less interval, timeout and claim latency |
| LeaseClock.RebuildWorkFits | internal/rag/worker.go:21-36 | 8 minute jobs fit exactly when the claim returned within 130 s, 30 s collection calls exactly within 580 s |
| LeaseClock.RestoreWorkFits | internal/security/restore_lease.go:13-17 | The same for the restore lock: work and latency together under 19 min 55 s |
| LeaseFencing.NoGrantBeforeExpiry | model/rag.go:268-418 | Over any calls of other instances and the holder's own claim and renewals, the row is the holder's and nobody is granted it before the expiry the holder's guard knows |
| LeaseFencing.NoTakeoverDuringWork | internal/rag/worker.go:113-175 | Work begun under a live guard and shorter than the guaranteed lease is over before any other instance can be granted the row, whatever happens meanwhile |
| LeaseFencing.NoTakeoverDuringJob | internal/rag/worker.go:21-36 | The same for the rebuild's numbers and its 8 minute jobs |
| LeaseClock.TotalBound | internal/rag/worker.go:280-325 | A batch takes at most the request timeouts of its jobs and the time of their updates |
| LeaseClock.BatchEndsInsideLease | internal/rag/worker.go:21-27 | A batch of two jobs ends inside its 24 minute lease if its updates take at most one request timeout, and in the worst case only if |
| RebuildCoordinator.Worker.BeginRebuild | internal/rag/worker.go:571-584 | The slot is taken exactly when no rebuild runs |
| RebuildCoordinator.Worker.BeginOrQueueRebuild | internal/rag/worker.go:586-598 | The slot is taken, or the request is queued behind the running rebuild |
| RebuildCoordinator.Worker.QueueRebuildAfterCurrent | internal/rag/worker.go:600-609 | A request is queued only while a rebuild runs |
| RebuildCoordinator.Worker.FinishRebuild | internal/rag/worker.go:611-625 | The slot is freed, and a queued request becomes a start attempt |
| RebuildCoordinator.OneRebuildAtATime | internal/rag/worker.go:571-625 | In every run at most one rebuild is active, and pending implies rebuilding |
| RebuildCoordinator.AnswersBalance | internal/rag/worker.go:571-625 | Answers that a rebuild may start, less rebuilds finished, are one while the slot is taken and zero otherwise |
| RebuildCoordinator.FinishBetweenAnswers | internal/rag/worker.go:571-625 | Between two such answers a rebuild finishes |
| RebuildCoordinator.FinishFrees | internal/rag/worker.go:571-625 | After a finish the next to ask gets the slot |
| RebuildCoordinator.AttemptsNeedRequests | internal/rag/worker.go:586-644 | Start attempts made, waiting and pending are never more than the requests queued |
| RebuildCoordinator.AttemptIsTaken | internal/rag/worker.go:627-644 | Each attempt takes one of those waiting, and one that gives up does nothing else |
| RebuildCoordinator.StaysPending | internal/rag/worker.go:586-625 | A queued request stays pending until the rebuild it waits for finishes |
| RebuildCoordinator.QueuedRequestGetsAnAttempt | internal/rag/worker.go:611-644 | Every request queued during a rebuild is followed by a new start attempt after that rebuild ends |
| StreamLimiter.SortedSet.Acquire | internal/middleware/concurrency.go:60-72 | Expired members go first; a slot is granted exactly below the limit; the key's expiry is then set from the new score |
| StreamLimiter.SortedSet.Release | internal/middleware/concurrency.go:74-85 | Only the caller's own token and expired ones are removed |
| StreamLimiter.SortedSet.Renew | internal/middleware/concurrency.go:87-99 | Only a token still present is extended; no member is ever added |
| StreamLimiter.AcquireAdds | internal/middleware/concurrency.go:60-72 | After an acquire the unexpired members are there, and the new one exactly if they were below the limit |
| StreamLimiter.ReleaseRemoves | internal/middleware/concurrency.go:74-85 | After a release its token is gone and every other unexpired member is there with its score |
| StreamLimiter.RenewExtends | internal/middleware/concurrency.go:87-99 | After a renewal the unexpired members are there, the caller's with its new lease exactly if it was among them |
| StreamLimiter.Latest | internal/middleware/concurrency.go:66-97 | The greatest score of a non-empty set |
| StreamLimiter.NeverMoreTokensThanLimit | internal/middleware/concurrency.go:60-99 | In every run at most limit tokens are stored, and no live lease is dropped by the key's own expiry |
| StreamLimiter.NeverMoreStreamsThanLimit | internal/middleware/concurrency.go:101-192 | With room for the Redis timeouts, streams with an uncancelled context never exceed the limit |
| StreamTightness.WithinLimitIff | internal/middleware/concurrency.go:101-192 | For every limit and time to live, uncancelled streams stay within the limit in every run exactly when there is room for the Redis timeouts |
| StreamLimiter.ChatStreamsAtMostTwo | internal/handler/routes.go:49 | With the deployed numbers there are never more than two uncancelled chat streams |
| StreamTightness.TooTightExample | internal/middleware/concurrency.go:101-192 | For every limit: without that room there is a run with one uncancelled stream more than the limit |
| KeyExpiry.AcquireSetsIff | internal/middleware/concurrency.go:60-72 | An acquire sets the key's expiry to the greatest score, late by its own delay, exactly if no later lease is stored |
| KeyExpiry.ExpiryFollowsRunIff | internal/middleware/concurrency.go:60-99 | Throughout a run the key expires with its greatest score, late by the delay of the script that set it, exactly if no acquire goes through beside a later lease |
| KeyExpiry.OvertakenExample | internal/middleware/concurrency.go:60-72 | Two clock readings 200 ms apart are enough for such an acquire |
| KeyExpiry.KeyExpiresWithLatestLease | internal/middleware/concurrency.go:60-99 | When calls arrive without delay the key expires exactly with its latest lease |
| RestoreLock.RestoreLease.CheckLocal | internal/security/restore_lease.go:140-155 | The local check fails exactly on a lost or released lease, without Redis |
| RestoreLock.RestoreLease.Check | internal/security/restore_lease.go:157-175 | A check passes only if Redis answers that the key is the caller's; any other outcome marks the lease lost |
| RestoreLock.RestoreLease.RenewTick | internal/security/restore_lease.go:105-131 | The key is extended only for its owner, and any failed renewal loses the lease and ends the loop |
| RestoreLock.RestoreLease.Release | internal/security/restore_lease.go:177-200 | Released once: only the owner's own key is deleted, and later calls repeat the first answer |
| RestoreLock.AcquireTakes | internal/security/restore_lease.go:71-104 | The lock is taken exactly when free, for its time to live |
| RestoreLock.RenewalKeeps | internal/security/restore_lease.go:19-33 | An answered renewal keeps the lock its owner's for a whole time to live |
| RestoreLock.RenewalOfOthers | internal/security/restore_lease.go:105-131 | Anybody else's renewal changes nothing and loses the lease |
| RestoreLock.ReleaseFrees | internal/security/restore_lease.go:177-200 | An answered release frees the lock for the next; a second one does nothing |
| RestoreProgress.CheckPassesIff | internal/security/restore_lease.go:140-175 | A check passes exactly for a live lease whose ownership Redis confirms, and otherwise names the first reason |
| RestoreProgress.CheckLosesIff | internal/security/restore_lease.go:157-175 | A live lease is lost by a check exactly if it fails |
| RestoreProgress.LostAnswers | internal/security/restore_lease.go:105-200 | A lost answer loses the lease whether or not the renewal took place |
| RestoreProgress.HolderGoesOn | internal/security/restore_lease.go:71-175 | A holder that renews in time keeps the lock and passes every check, and nobody else is granted it, whatever others do |
| RestoreProgress.RenewalLasts | internal/security/restore_lease.go:105-131 | After a renewal the holder holds the lock exactly for its time to live |
| RestoreProgress.AskingIff | internal/security/restore_lease.go:71-104 | Whoever asks for a free lock holds it; asking for a taken one changes nothing |
| RestoreProgress.LostAskingExpires | internal/security/restore_lease.go:71-104 | A lock taken without answer is held by no lease and comes free with its time to live |
| RestoreProgress.GivingBackFrees | internal/security/restore_lease.go:177-200 | A holder that gives the lock back leaves it to the next, and its own checks fail as cancelled |
| RestoreLock.StaleOwnerIsPowerless | internal/security/restore_lease.go:19-40 | An owner followed by a newer grant never renews, deletes or changes the key, and its checks fail |
| RestoreLock.PassedCheckIsLatestGrant | internal/security/restore_lease.go:35-40 | Whoever passes a check is the latest owner, and no other owner can pass |
| RestoreLock.LostStaysLost | internal/security/restore_lease.go:105-175 | Once lost, a lease's context stays cancelled and no check ever passes again |
| TextLines.SplitJoin | internal/rag/chunk.go:210-211 | Lines survive being joined with newlines and split again |
| TextLines.JoinSplit | internal/rag/chunk.go:23-26 | A text survives being split into lines and joined again |
| MarkdownNormalize.StripFrontMatter | internal/rag/chunk.go:56-72 | The loop drops front matter only when it opens on the first line and is closed later |
| FrontMatter.LinesAreRead | internal/rag/chunk.go:23-26 | Whatever line ends a text is written with, the same lines are read |
| FrontMatter.FrontMatterIsDropped | internal/rag/chunk.go:53-73 | After an opening first line exactly the lines after the first closing one remain |
| FrontMatter.OtherTextStays | internal/rag/chunk.go:53-73 | Otherwise every line stays in its place and only the byte order mark goes |
| MarkdownNormalize.NormalizeMarkdown | internal/rag/chunk.go:23-52 | The loop cleans ordinary lines, leaves fences alone, and collapses blank lines |
| MarkdownNormalize.CleanIsTidy | internal/rag/chunk.go:48-49 | A cleaned line has no tab, no two spaces in a row and no space at its end; tidy lines without image stay as they are |
| FrontMatter.SqueezeShape | internal/rag/chunk.go:15-18 | Text without gaps stays and each gap becomes one space |
| FrontMatter.TrimRightShape | internal/rag/chunk.go:46-47 | Exactly the spaces at the end go |
| FrontMatter.RemoveShape | internal/rag/chunk.go:15-18 | An image goes as a whole and the text before it stays |
| MarkdownNormalize.CodeIsVerbatim | internal/rag/chunk.go:35-50 | Fence lines and all lines inside come through verbatim, every other line is cleaned |
| MarkdownNormalize.RemovalIsNotFinal | internal/rag/chunk.go:17-48 | Removing an image can leave a new image behind |
| MarkdownImages.CleanIdempotentIff | internal/rag/chunk.go:17-49 | Cleaning a line twice is cleaning it once exactly when removing its images twice is removing them once |
| MarkdownNormalize.FencesAgreeIff | internal/rag/chunk.go:35-50 | Later passes see the fences of the first one exactly when no cleaned line becomes a fence opening |
| MarkdownNormalize.HiddenFenceExample | internal/rag/chunk.go:43-49 | An image in front of three backquotes hides a fence from the first pass only |
| MarkdownNormalize.NormalTextLines | internal/rag/chunk.go:98-141 | The normalized text has exactly the collapsed lines, and collapsing it again changes nothing |
| MarkdownBlocks.OuterRange | internal/rag/chunk.go:257-269 | The two loops find the range of lines between the outer blank ones |
| FenceLines.FenceStartIs | internal/rag/chunk.go:75-84 | A line opens a fence exactly with three or more backquotes or tildes after its indentation |
| FenceLines.ClosesFenceIff | internal/rag/chunk.go:86-96 | A line closes it exactly with at least as many of the same character and nothing after them |
| FenceLines.IndentIsNoFence | internal/rag/chunk.go:75-96 | A line of nothing but indentation neither opens nor closes one |
| FenceLines.LineHasShape | internal/rag/chunk.go:75-96 | Every other line is an indentation, a longest run of one character and a rest, so these are all lines |
| FenceLines.ShorterRunStaysInside | internal/rag/chunk.go:86-96 | So a shorter run leaves it open |
| FenceLines.InsideUntilClosed | internal/rag/chunk.go:98-128 | All lines up to and with the first closing one are code |
| FenceLines.HeadingOfIs | internal/rag/chunk.go:271-282 | A line is a heading exactly with one to six hashes, a space and a title |
| MarkdownBlocks.CollapseOuterBlankLines | internal/rag/chunk.go:98-141 | The loop keeps the outer range, dropping a blank line after a blank line outside fences |
| MarkdownBlocks.CollapseIdempotent | internal/rag/chunk.go:98-141 | Collapsing twice is collapsing once |
| MarkdownBlocks.CollapsedTextIsStable | internal/rag/chunk.go:98-141 | The same for the joined text, split again |
| MarkdownBlocks.CollapseKeepsFences | internal/rag/chunk.go:98-141 | No surviving line changes sides of a fence, neither by collapsing nor by trimming the outer blank lines |
| ContentLines.CollapseThins | internal/rag/chunk.go:98-141 | Each ordinary blank line directly after another goes, and no other line |
| ContentLines.OuterBlankLinesGo | internal/rag/chunk.go:98-107 | Before that exactly the blank lines at both ends go |
| ContentLines.CollapsedBody | internal/rag/chunk.go:98-141 | The lines with text that are no headings are the same before and after |
| MarkdownCut.CutBlocks | internal/rag/chunk.go:210-253 | The loop with its flush closure cuts the text into the joined groups of lines |
| MarkdownCut.BlocksKeepLines | internal/rag/chunk.go:210-253 | Every non-blank line is in exactly one block, in order, and nothing else is |
| MarkdownCut.ClosedFenceIsOneBlock | internal/rag/chunk.go:226-241 | A closed fence is one block with its inner lines verbatim, and the text around it is cut as if it stood alone |
| MarkdownCut.HeadingTestIsExact | internal/rag/chunk.go:159-170 | The heading test on a whole block is true exactly for single heading lines, so it never discards a body line |
| MarkdownUnits.CollectUnits | internal/rag/chunk.go:157-179 | The loop over the blocks with its heading stack builds the list of units |
| MarkdownUnits.UnitOfText | internal/rag/chunk.go:159-179 | Each text item and nothing else gives one unit, in order, after the path of the headings before it |
| MarkdownUnits.UnitOfBlock | internal/rag/chunk.go:159-179 | The unit of a block is the block, untouched but for white space at its ends, after its heading path |
| MarkdownUnits.PathEndsWithNearest | internal/rag/chunk.go:164-170 | The path ends with the nearest heading before the block and is never deeper than its level |
| HeadingPaths.PushIsRightIff | internal/rag/chunk.go:164-170 | A heading takes a right path to a right path exactly when it keeps as many headings of it as really enclose it |
| HeadingPaths.PathsAreEnclosingIff | internal/rag/chunk.go:159-179 | All paths of a document are the enclosing headings exactly when every heading does so |
| HeadingPaths.NoneSkippedIsRegular | internal/rag/chunk.go:164-170 | A document in which no heading is more than one level below the one it is in is such a document |
| HeadingPaths.PathAtPlaceIff | internal/rag/chunk.go:159-179 | At any place of any document the path contains the enclosing headings in order, and is just them exactly when it is as long |
| HeadingPaths.SkippedLevelExample | internal/rag/chunk.go:164-170 | Two sibling level-2 sections without a level-1 heading come out one inside the other |
| HeadingPaths.HarmlessSkipExample | internal/rag/chunk.go:164-170 | Levels 1 and 3 give right paths although a level is skipped |
| MarkdownUnits.SplitMarkdown | internal/rag/chunk.go:151-206 | The whole function: no chunk for an empty normalized text, otherwise the packed units, the text itself being the unit when there are only headings |
| MarkdownUnits.ChunksOfText | internal/rag/chunk.go:180-206 | For any text: chunks are non-empty and at most 800 runes, tile the units, are maximal, and give the units back |
| LinesInChunks.BlocksKeepBody | internal/rag/chunk.go:157-253 | The blocks that become units hold exactly the lines with text that are not headings outside of fences, in order |
| LinesInChunks.TrimmedBlock | internal/rag/chunk.go:159-176 | Trimming a block as a whole changes at most the start of its first line and the end of its last |
| LinesInChunks.NoLineIsLost | internal/rag/chunk.go:151-302 | For any text, every line with text that is no heading outside of fences comes back from the chunks, in order, verbatim but for white space at its block's ends; besides these only path lines and empty lines do |
| LinesInChunks.BodyLinesAreInTheChunks | internal/rag/chunk.go:151-302 | The same line by line, up to white space at each line's ends |
| ContentLines.ContentIsInTheChunks | internal/rag/chunk.go:22-302 | From an article's content, whatever its line ends: after its front matter every line is cleaned or, as code, kept, and each with text that is no heading is among the lines of the chunks, in order |
| ChunkPacking.SplitLong | internal/rag/chunk.go:284-302 | The loop terminates and yields the overlapping windows |
| ChunkPacking.WindowCount | internal/rag/chunk.go:284-302 | Exactly ceil((n - 120) / 680) windows, all of 800 runes but the last, none of 120 or less |
| ChunkPacking.WindowAt | internal/rag/chunk.go:284-302 | Window i starts at rune 680 i |
| ChunkPacking.WindowsOverlap | internal/rag/chunk.go:284-302 | Neighbouring windows share exactly 120 runes |
| ChunkPacking.UnsplitWindows | internal/rag/chunk.go:284-302 | Dropping the overlaps gives the value back |
| ChunkPacking.Pack | internal/rag/chunk.go:180-206 | The packing loop renders the groups of units |
| ChunkPacking.GroupsTile | internal/rag/chunk.go:180-206 | Chunks are consecutive runs of units or windows of one long unit, without gap or overlap |
| ChunkPacking.GroupsAreMaximal | internal/rag/chunk.go:180-206 | No packed chunk could have taken in the first unit of the packed chunk after it |
| ChunkPacking.ChunksAreSized | internal/rag/chunk.go:180-206 | Every chunk is non-empty and at most 800 runes |
| ChunkPacking.PackingIsLossless | internal/rag/chunk.go:180-206 | Chunks, windows put back together, joined as units are joined, are all the units joined |
| LikePatterns.EscapeLike | model/article.go:800-811 | The loop escapes exactly the three special characters |
| LikePatterns.EscapedMatchesItself | model/article.go:800-811 | Escaped text matches the text itself, up to the collation, and nothing else |
| LikePatterns.ContainsIff | model/article.go:773-785 | Percent signs around escaped text match exactly the titles that contain it |
| LikePatterns.FamilyIff | model/article.go:397-419 | Escaped text followed by a dash and a percent sign matches exactly what starts with the text and a dash |
| LikePatterns.UnescapedMatchesMore | model/article.go:800-811 | An underscore matches any character, escaped only itself |
| LikePatterns.UnderscoreIsOne | model/article.go:800-811 | An underscore takes exactly one character |
| SlugChoice.UniqueArticleSlug | internal/logic/article/markdown.go:435-461 | The base is the trimmed slug or, if that is empty, made of the time; the first of a hundred candidates that the query did not find is returned, or none |
| SlugChoice.FirstFree | internal/logic/article/markdown.go:446-460 | The loop tries the candidates in order |
| SlugChoice.StemIff | internal/logic/article/markdown.go:482-489 | Trimming the base again changes it, and then shortens it, exactly when white space is at one of its ends |
| SlugChoice.BaseIsTheSlug | internal/logic/article/markdown.go:435-441 | A slug in order is its own base; only one that trims to nothing is replaced |
| SlugNewness.CandidateInFamilyIff | internal/logic/article/markdown.go:446-455 | The query looks at a numbered candidate exactly when it starts with the whole base, or is the base itself |
| SlugNewness.AlwaysNewIff | internal/logic/article/markdown.go:435-461 | The chosen slug is new whatever is stored exactly for bases of at most 176 characters that trim to themselves |
| SlugNewness.ImportedSlugIsNewIff | internal/logic/article/markdown.go:435-489 | For the slug of an import: exactly if its base has at most 176 characters and no white space at its ends |
| SlugNewness.UnseenIsTaken | internal/logic/article/markdown.go:442-458 | For a candidate the query cannot see, stored slugs exist that make a taken slug the choice |
| SlugAcceptance.AlwaysAcceptedIff | internal/logic/article/markdown.go:435-461 | The unique index accepts the chosen slug whatever is stored exactly when it is new whatever is stored and the collation takes no other character for one of the base, a dash or a digit |
| SlugAcceptance.SameButNotEqualExample | internal/logic/article/markdown.go:456-458 | A stored slug the collation takes for the base is found by the query, missed by the exact lookup and makes the choice refused |
| DisplayOrder.ConditionsAreTheOrder | model/article.go:587-612 | The conditions of the two neighbour queries are the strict list order, in one direction and the other |
| DisplayOrder.PrevIsTheItemAfter | model/article.go:587-599 | Whatever the previous-article query answers is the next item of the list, and nothing exactly at its end |
| DisplayOrder.NextIsTheItemBefore | model/article.go:600-612 | The next-article query answers the item before |
| DisplayOrder.LinksUndoEachOther | model/article.go:576-612 | Following one link and then the other comes back |
| DisplayOrder.LinksAreNeighbours | model/article.go:576-612 | For a visible article both links are its neighbours among the visible articles |
| DisplayOrder.LinkedIsPublic | model/article.go:576-612 | Whatever the neighbour queries answer is stored, published and no longer scheduled |
| DisplayOrder.ListIsUnique | model/article.go:19-22 | The display order leaves no choice, so pages neither overlap nor skip a row |
| ArticleHistory.FirstPublicationKeptIff | model/article.go:1027-1041 | Publishing again keeps the first publication time exactly while the article is published |
| ArticleHistory.PublishedAtForCreate | model/article.go:1016-1025 | A created article has a publication time exactly when it is published |
| ArticleHistory.PublishedAtForUpdate | model/article.go:1027-1041 | A publication time is never lost, and publishing always sets one |
| ArticleHistory.CreatePublishes | model/article.go:1016-1025 | A new article is to be seen exactly from its publication time on |
| ArticleHistory.UpdatePublishes | model/article.go:1027-1041 | A schedule sets the publication time, publishing anew sets it to now, and an unpublished article keeps it |
| ArticleHistory.UniqueUint64 | model/article.go:1061-1075 | Every non-zero value once, in the order of first occurrence |
| ArticleHistory.PositiveIs | model/article.go:1061-1075 | The ids kept are exactly the non-zero ones given |
| ArticleHistory.ArticleStore.CreateArticle | model/article.go:183-202 | Row, tags and outbox job are written together under a fresh id, or nothing is |
| ArticleHistory.ArticleStore.CreateArticleVersion | model/article.go:915-943 | The present state is stored under the number after the greatest |
| ArticleHistory.ArticleStore.Enqueue | model/article.go:369-379 | The job is due at once or at the schedule, and asks for what the article now is |
| ArticleHistory.ArticleStore.UpdateArticle | model/article.go:250-282 | Snapshot, row, tags and outbox job are written together, or nothing is |
| ArticleHistory.ArticleStore.UpdateArticleStatus | model/article.go:308-337 | Snapshot, status and outbox job are written together and the schedule is cleared, or nothing changes |
| ArticleHistory.ArticleStore.RestoreArticleVersion | model/article.go:339-367 | Snapshot, row and tags of the version and the outbox job are written together, or nothing is |
| ArticleHistory.ArticleStore.DeleteArticle | model/article.go:284-306 | The article goes with its tags and versions and leaves a removal job, or nothing happens |
| ArticleHistory.UpdateWrites | model/article.go:250-282 | A successful update stores exactly the edit and the tags it was given; author, counters, creation time and all other articles stay |
| ArticleHistory.UpdateSucceedsIff | model/article.go:250-282 | It succeeds exactly for an existing article with a free slug, a known category and known tags |
| ArticleHistory.CreateWrites | model/article.go:183-202 | A new article has a fresh id, exactly what it was created with, and no views, likes or versions |
| ArticleHistory.CreateLeavesOthers | model/article.go:183-202 | All other articles stay as they are |
| ArticleHistory.CreateSucceedsIff | model/article.go:183-202 | It is created exactly with a free slug, a known category and known tags |
| ArticleHistory.StatusWrites | model/article.go:308-337 | A status change touches only status, schedule and publication time |
| ArticleHistory.DeleteRemoves | model/article.go:284-306 | A deleted article is gone with tags and versions; all others stay |
| ArticleHistory.CategoryGoes | model/taxonomy.go:334-343 | A deleted category is on no article and no version any more |
| ArticleHistory.TagGoes | model/taxonomy.go:345-352 | A deleted tag is on no article any more |
| ArticleHistory.VocabularyGrows | model/taxonomy.go:155-177 | A new tag becomes known and nothing else changes |
| ArticleHistory.CountersAdd | model/article.go:421-445 | Views and likes touch only their counters |
| ArticleHistory.InvRun | model/article.go:183-367 | In every run versions are numbered exactly 1 to n, published articles and versions carry a publication time, references hold, and no two articles share a slug |
| ArticleHistory.EveryRunIsSound | model/article.go:183-367 | The same for every run from the empty tables |
| ArticleJobs.JobsFollowArticles | model/article.go:183-379 | Whatever workers do in between, a stored job asks for indexing exactly when its article exists and is published now, and for removal otherwise |
| ArticleHistory.HistoryStep | model/article.go:915-943 | A successful write adds the replaced state as number n + 1; nothing else changes versions but the deletion of a category |
| ArticleHistory.HistoryRun | model/article.go:915-943 | Over any run that keeps the article every version stays under its number, as it is |
| ArticleHistory.RestoreReturnsVersion | model/article.go:339-367 | A version can be restored exactly while its slug is free and its tags exist; then all of it comes back |
| ArticleHistory.RestoreUndoesUpdate | model/article.go:250-367 | What an update replaced can be had back at any later time, tags included, but for a deleted category |
| ArticleHistory.RestoreKeepsTheRest | model/article.go:348-353 | A restore leaves author, counters, creation time and all other articles alone |
| ArticleHistory.NextNumberRestoresNothing | model/article.go:339-347 | A missing version number can be restored exactly when it is the next one, and then no article and no tag changes |
| ArticleHistory.DeletedTagBlocksRestore | deploy/mysql/migrations/000024_add_relationship_integrity.sql:84-91 | After a tag is deleted every version that has it is refused |
| ArticleHistory.PublishIsImmediate | model/article.go:318-327 | The status interface publishes at once, whatever schedule there was |
| MigrationFiles.Discover | internal/migration/migration.go:133-195 | The list is found exactly when the files are versions 1 to n, each once, named, readable and filled; it holds all of them in order |
| MigrationFiles.CheckContiguous | internal/migration/migration.go:182-195 | Sorting and the index test accept exactly the contiguous lists |
| MigrationFiles.ReadFile | internal/migration/migration.go:149-178 | A file is accepted exactly when name, version and contents are valid and the version is new |
| MigrationFiles.NameIff | internal/migration/migration.go:48 | A file name is accepted exactly if it is six digits, an underscore, a label and ".sql" |
| MigrationFiles.AlnumIff | internal/migration/migration.go:48 | The letters and digits a label may have |
| MigrationFiles.VersionIsTheNumber | internal/migration/migration.go:149-178 | The version is the number the name starts with, leading zeros not counting |
| MigrationFiles.EmptyFileIsRefused | internal/migration/migration.go:149-178 | A file of white space and version zero are refused |
| Migrations.ValidateState | internal/migration/migration.go:366-405 | The loops report exactly the missing, future and drifted versions, in order |
| Migrations.CheckPassesIff | internal/migration/migration.go:292-308 | Check passes exactly when the database records this list, nothing more, less or altered |
| Migrations.RunStartsIff | internal/migration/migration.go:270-274 | Run goes ahead exactly when everything recorded is recorded as the list has it |
| Migrations.Runner.RunOne | internal/migration/migration.go:465-499 | Success is recorded only after the script ended, both rows in one transaction; every failure point leaves what it should |
| Migrations.Runner.Run | internal/migration/migration.go:233-288 | The loop executes the versions not yet recorded in order and stops at the first failure |
| Migrations.PrefixRun | internal/migration/migration.go:233-288 | Whatever binaries ran, and wherever they failed or died, the records are 1 to k with matching names and checksums, scripts ran in order, and each recorded one ran to its end |
| Migrations.PrefixFromNewDatabase | internal/migration/migration.go:233-288 | The same from an empty database: the records are those of the first k migrations |
| Migrations.LaunchKeepsInv | internal/migration/migration.go:233-288 | A run moves the prefix forward, all the way on success; an older binary changes no record and starts no script |
| Migrations.SuccessPassesCheck | internal/migration/migration.go:233-308 | A successful Run makes Check pass |
| Migrations.NothingInTheWay | internal/migration/migration.go:233-288 | With the lock, both tables, nothing altered and every script succeeding, a run succeeds, starts exactly the pending scripts in order, and records the whole list |
| Migrations.OutcomeLeaves | internal/migration/migration.go:465-499 | What each way one migration can end leaves in the records, the log and the database |
| Migrations.SuccessMeans | internal/migration/migration.go:233-288 | Success means the lock was held and given back and nothing recorded was altered |
| Migrations.RefusalDoesNothing | internal/migration/migration.go:233-288 | A run refused beforehand starts and records nothing |
| Migrations.CheckComparesVersions | internal/migration/migration.go:366-405 | Check reports future versions exactly when the database is ahead, missing ones exactly when it is behind |
| Migrations.RollbackAgreesWithCheck | internal/migration/migration.go:324-339 | The release tool refuses a target exactly when that target would see future versions |
| Migrations.DriftStopsTheRun | internal/migration/migration.go:270-274 | A rewritten or renamed recorded migration stops the run before any script |
| SearchReindex.SearchIndex.ListStale | internal/search/client.go:242-273 | Paging by 1000 terminates and finds the unwanted ids in listing order; it fails exactly when one of its pages fails |
| SearchReindex.StaleIsExact | internal/search/client.go:261-266 | The stale ids are exactly the listed ids that are not wanted, each once |
| SearchReindex.SearchIndex.Upload | internal/search/client.go:149-170 | The first half leaves the old documents or all given ones on top of them |
| SearchReindex.SearchIndex.DeleteAll | internal/search/client.go:180-185 | The sweep removes the stale ids one by one and never a wanted one |
| SearchReindex.SearchIndex.Reindex | internal/search/client.go:149-186 | A successful rebuild with its listing holds exactly the given documents, and no document both before and wanted is ever missing in between |
| SearchReindex.UnsweptIsGoalIff | internal/search/client.go:175-179 | Without the sweep the index is as wanted exactly when nothing was stale |
| SearchReindex.LastOneStays | internal/search/client.go:234-238 | Of two given documents with one id the later stays |
| SiteBackup.InsertRows | model/backup.go:337-406 | Inserting rows one by one fails exactly on a repeated id and otherwise gives the table |
| SiteBackup.RestoredIs | model/backup.go:41-302 | A restored export holds every table, projects renumbered, expired and guest sessions left out |
| SiteBackup.RenumberedRows | model/backup.go:352-359 | Numbering projects by their place keeps their list |
| SiteBackup.BackupRoundTrip | model/backup.go:41-406 | Exporting after a restore gives exactly what exporting the original at that time would have given |
| SiteBackup.ExportedSessionsAreKept | model/backup.go:266-302 | Only unexpired sessions of users are exported, and only messages of exported sessions |
| SiteBackup.ExportedIff | model/backup.go:266-302 | A session is exported exactly if it is a user's and unexpired, a message exactly with its session |
| SiteBackup.ReferencesIff | deploy/mysql/migrations/000024_add_relationship_integrity.sql:1-91 | The references and unique indexes over the modelled columns, in terms of sets |
| SiteRestore.RestoredSettings | model/backup.go:423-440 | The loop and the forced defaults |
| SiteRestore.SettingsRoundTrip | model/backup.go:103-120 | One round forces seven settings and keeps all others; a second round is a fixed point |
| SiteRestore.NoSecretIsExported | model/backup.go:103-120 | No export holds a secret or the restore marker |
| SiteRestore.RestoredIsSafe | model/backup.go:423-440 | After any restore secrets are empty and everything that needs one is off |
| SiteRestore.RoleIsRead | model/backup.go:423-440 | A role keeps its meaning whatever the case of its letters and the white space around it |
| SiteRestore.RoleIsKept | model/backup.go:423-440 | A valid role goes through a restore as it is; without one chat is for guests |
| SiteRestore.MarkerIsLeft | model/backup.go:410-440 | A restore leaves exactly the marker it was given, and no other |
| SiteRestore.WhatIsRefused | model/backup.go:337-406 | An archive with a repeated id in any table, a project without id or a broken reference is refused |
| SiteRestore.Site.InsertProjects | model/backup.go:352-366 | Projects are numbered by their place; a zero or repeated id fails |
| SiteRestore.Site.RestoreBackup | model/backup.go:318-460 | Exactly while a greater epoch exists, and for an archive with distinct ids, tag names and version numbers whose references exist, every table becomes the archive's, no job is left and the index needs a rebuild at a strictly greater epoch; otherwise nothing changes |
| SiteRestore.ExportsAreLoadable | model/backup.go:41-302 | Every export of a consistent site can be restored |

## Left out

- Clock skew: the program, MySQL, Redis and the vector store share one monotone clock.
- Calls that take effect after the caller gave up on them: an effect happens during its step or never.
- Agreement of the index across several worker processes: a worker that read the old article may still write it; only epoch non-interference is proved for many.
- Agreement of the index across a site restore: the restore clears the outbox, and with it the jobs of articles scheduled in the future (`model/backup.go:331`).
- Deletion of the whole collection by a worker that lost its lease: non-interference covers article-level calls only.
- UpsertRAGIndexState (`model/rag.go:258`): it overwrites the row without guards and takes no part in the protocol.
- The worker's process, processJob and rebuild as methods: they are a step machine on values, because their properties quantify over what happens between two statements; mutexes and goroutines appear as which steps are enabled.
- A rebuild may begin with any fingerprint in the model: which settings a manual or queued rebuild carries is not modelled.
- Outbox.JobStore.ClaimJobs: the answer of the SELECT is a parameter; OutboxClaims.SelectionIff shows that it leaves no choice once the rows locked by other transactions are given, which are a parameter too.
- The chat messages hidden for an article that is no longer public (`model/rag.go:526`): a job passes that call and may fail in it, but the messages are not stored.
- SHA-256, tokens and embeddings: an injective hash, fresh tokens, and a fingerprint that stands for the embedding function.
- Error texts, the truncation of last_error, and updated_at columns.
- Redis times are whole milliseconds, and the sorted set's ties are not ordered.
- Idempotence of NormalizeMarkdown as a whole: it is false, as RemovalIsNotFinal shows.
- Bytes that are not valid UTF-8: strings are sequences of characters.
- SlugChoice.UniqueArticleSlug: lower-casing is a function on characters, which the lemmas assume to change nothing the second time nor on plain slug characters; a base made of the time is at most 180 characters long.
- ArticleHistory.ArticleStore.RestoreArticleVersion: tag lists of versions are sets, users are assumed to exist, and the slug index compares exactly.
- Related articles, full-text search, view and like endpoints, and the listing filters.
- Statement by statement effects of a migration script that fails half-way: the log only says that it was started.
- The advisory lock of the migration runner is a flag: two runners never overlap.
- MigrationFiles.ReadFile: which of the error texts is produced is not specified, only whether the file is accepted.
- Search settings and ranking, a disabled search client, the decoding of replies, and replies that report a missing index.
- SiteRestore.Site.RestoreBackup: foreign keys and unique indexes of columns the model does not have (authors, article categories, creators, slugs, category names, accounts, mail addresses, media keys) are not checked, and an article's tag links are the set its archive entry lists.
- Project tag names in an export: they are derived from the tags and ignored by the restore.
- Session ids are numbers, ordered as such; unmodelled columns of a row travel as one value.
- The media files of a backup, and the tables a restore only empties (logs, statistics, likes, refresh tokens).
- React pages, mail, message queue, authentication and AI clients.
