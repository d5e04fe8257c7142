# Prepaid job system: a model and its proofs

The repository sells AI processing of collected products by the bean. A user's account has `beans` and `frozen_beans`.
Starting a run freezes a pessimistic amount (hold); the end of the run unfreezes it and charges what was really
delivered (settle), or charges nothing (release); a re-run first undoes the past run (reset). Held runs wait in a
Redis queue that removes duplicates and limits how many runs of one user are active. A run downloads the product's
images, calls the models in parallel, generates images in a thread pool, stores the list and settles.

The model has four parts.

* **Ledger.** `Ledger` gives each billing operation as a function on the tables, `BeanStore` as a method on a store
  object, `Transactions` as the statements of a database transaction (probes, row lock, write, insert under the unique
  index, commit or rollback) that interleave with any number of others; `Progress` shows that they all come to an
  end, `RacingHolds` what the model of overlapping calls keeps apart. `LedgerRuns`, `Overspend`, `SecondCloses`,
  `HoldCapacity` and `ConcurrentSpend` are about whole runs, `Requests` and `Scenarios` about runs as the routes and the
  pipeline issue them.
* **Queue.** `Queue` is the protocol: enqueuers and workers interleave at single Redis commands, workers may crash, time
  passes. `Wakeups` says when a call is forgotten, `Handlers` adds the status column and says when a call's job is run,
  `Skipping` and `SkippedRerun` when it is skipped.
  `Slots` holds the two Lua scripts, `Recovery` the Redis and imports objects and the start-up sequence, `WorkerLoop` the
  loop over the Redis object.
* **Pipeline.** `Images` (download, filtering, validation, index mapping), `Generation` (parallel tasks, streamed appends,
  final sort), `Pipeline` (`execute` and settlement), `Reruns` (repeated runs of one import). `Completion` makes the
  completion order of a thread pool an arbitrary arrangement; `StableSort` is `list.sort`.
* **Data paths.** `RefCode`, `ImageEdits`, `AttrEnrich`, `SmsCodes`, with `Text` for strings and `Common` for lists and maps.

## Where the code and its documentation part

* `backend/billing/README.md:66-71` says over-spending is mathematically impossible. It is, as long as no close takes
  more out of the frozen column than its own open hold put there and every cost is covered (`Overspend.NoOverspend`, and
  `ConcurrentSpend.ConcurrentNoOverspend` for concurrent calls); it is enough that every hold is ended once, by a close that
  names its amount. A close that takes more makes an over-spend possible, and no other close with a covered cost does
  (`Requests.OverspendIff`). Closes take more in two ways.
  * The hold has ended already and its row is left over (`Overspend.EndedTakesOthersIff`). After a charge only the reset
    still takes effect, that is the re-run of a settled import (`SecondCloses.AfterSettle`). After a release, which leaves
    a zero row that no probe looks for, every close does: the reset of an ordinary re-run after a total failure, a second
    release, and a settle, as when an administrator's retry runs the import without new billing
    (`SecondCloses.AfterRelease`). `Scenarios.RerunOverspends` goes from one bean to -11.
  * The hold is open but smaller than the amount named (`Overspend.OpenTakesOthersIff`). `execute` reads the features
    when it begins and settles by them; a re-run requested meanwhile, with cheaper features, leaves a smaller hold for it
    to find (`Requests.FinishTakesOthersIff`). So can a reset that comes between another request's hold and its setting of
    the features. In `Scenarios.EarlierRunOverspends` each hold is ended once and five beans end at -17.
* A cost exceeds its hold when more than nine images succeed (ten when a requested title failed, `Pipeline.CostWithinIff`;
  the number of prompts is not limited), when a released import is settled, where no hold covers any of it
  (`SecondCloses.AfterRelease`), and when an earlier run settles a smaller new hold (`Requests.FinishUncovered`).
* Holds of one import are stopped only by their first probe, without a unique index: two at once can freeze twice
  (`RacingHolds.RacingHoldsFreezeTwiceIff`).
* An enqueue whose LPUSH fails rolls back the duplicate mark that a concurrent enqueue of the same import relied on. That
  call returns normally and its job is lost (`Wakeups.LostWakeup`). A call is lost at exactly such steps
  (`Wakeups.LossStep`, `Wakeups.NeverLostIff`).
* `worker_handler` says it skips finished and failed imports; it skips done, generating and insufficient ones. So a re-run
  asked for while an earlier run of the import is active, its final status write still to come, may be skipped, and may
  be only then, refused requests aside (`Skipping.SkippableIff`). At the default of one job per user its job waits until
  that run has written "done", and then the handler skips it (`SkippedRerun.RerunIsSkipped`). An earlier run that has not
  settled yet settles the new hold (`Reruns.EarlierRunTakesHold`).
* The admin retry pushes without marking (`Queue.AdminRetryBreaksTokens`).
* Prompt numbers are taken from keys `image_<digits>`; `image_1` and `image_01` share a number (`Images.SharedNumber`),
  and then the stored list depends on which task finished first (`Generation.OrderIndependentIff`). The charge does not
  (`Pipeline.ChargeOrderFree`).
* A line of the code file outside ASCII makes the comparison raise: that line and the lines behind it can no longer be
  used (`SmsCodes.FairIff`).
* Enriching a product whose `productProps` are all excluded empties them, and a second pass then reads `goodsProperty`
  (`AttrEnrich.ProductIdempotentIff`).
* Restoring an image type whose first entry was already deleted brings back more than deleting it took
  (`ImageEdits.DeleteRestoreIff`).
* The owner's lookup accepts surplus zeros and surrounding spaces in a reference code, the admin search does not
  (`RefCode.RoutesAgreeIff`).

## Model

| member | source | states |
|---|---|---|
| Ledger.HoldAmountFor | backend/billing/store.py:36-48 | the hold is zero exactly when neither feature is chosen, and at most 11 |
| Ledger.ProbesStep | backend/billing/store.py:224-227 | what every operation does to each existence probe and charge sum of every import |
| Ledger.ProbesAfterDelete | backend/billing/store.py:99-102 | deleting an import's rows clears its probes and leaves those of all other imports |
| Ledger.NoEffect | backend/billing/store.py:285-304 | repeated holds, settles and releases, closes without a hold row, amounts not above zero and unknown users change nothing |
| Ledger.RowBalance | backend/billing/store.py:317-323 | an appended row carries the balance that the operation leaves and the change it made |
| BeanStore.Store.HoldBeans | backend/billing/store.py:211-260 | commits the ledger's hold; granted exactly when held before or when the available balance stays at or above -10 |
| BeanStore.Store.SettleBeans | backend/billing/store.py:263-324 | commits the ledger's settle; its reply names the beans really taken and the balance after, and marks a repeat |
| BeanStore.Store.ReleaseBeans | backend/billing/store.py:327-366 | commits the ledger's release and never changes beans |
| BeanStore.Store.ResetBillingForImport | backend/billing/store.py:51-102 | commits the ledger's reset: refund, unfreeze whenever a hold row exists, delete the import's rows |
| BeanStore.Store.AddBeans | backend/billing/store.py:373-399 | adds a positive amount to an existing user, with its log row |
| BeanStore.Store.AdminRechargeBeans | admin-platform/backend/store.py:665-691 | the same for the administrator, with its own reason |
| LedgerRuns.Conservation | admin-platform/backend/store.py:1120-1146 | over every run each user's beans move with the sum of that user's remaining rows, and all beans together with the summary's net_beans |
| LedgerRuns.BooksOkStep | backend/billing/store.py:305-307 | every operation, whatever amount a close names, keeps frozen at zero or above and every open hold with its row and no charge |
| Overspend.FrozenBounded | backend/billing/store.py:85-85 | 0 <= frozen <= sum of open holds after every run whose closes name at least what was held, however often they close |
| Overspend.FrozenExact | backend/billing/store.py:353-354 | on any run, frozen is the sum of open holds at every state exactly when each close takes exactly its own open hold; so when each hold is ended once by its amount |
| Overspend.OverspendBound | backend/billing/store.py:237-248 | on every run, whatever amounts closes name, the shortfall below the floor is at most the uncovered costs plus what closes took from other holds |
| Overspend.NoOverspend | backend/billing/README.md:66-71 | when no close takes from other holds, no user falls below -10 by more than the uncovered costs, and not at all when costs are covered; ending each hold once by its amount is enough |
| Overspend.OpenTakesOthersIff | backend/billing/store.py:305-307 | a close of an open hold takes from other holds exactly when it names more than that hold and more is frozen |
| Overspend.EndedTakesOthersIff | backend/billing/store.py:69-85 | a close whose hold has ended takes from other holds exactly when it asks for something and something is frozen |
| Requests.CanOverspendIff | backend/platforms/temu/router.py:448-459 | regular requests can take a user below the floor if and only if frozen holds back less than the open holds, or the user is below already |
| Requests.OverspendIff | backend/billing/store.py:305-307 | any close, whatever it names, opens the way to an over-spend if and only if it takes from other holds or is itself what goes below the floor; with a covered cost only the former |
| Requests.FinishTakesOthersIff | backend/platforms/temu/pipeline.py:180-181 | a run settling a hold taken after it began takes from other holds exactly when its own features cost more than that hold and more is frozen |
| Requests.FinishUncovered | backend/platforms/temu/pipeline.py:341-347 | up to nine images, what is uncovered of a run's cost is what it has beyond the hold it ends |
| HoldCapacity.ExactCapacity | backend/billing/store.py:220-260 | of equal holds on distinct imports exactly the first (available + 10) / amount succeed |
| SecondCloses.EndedHoldCloses | backend/billing/store.py:285-298 | which closes still take effect on an import whose hold row is left over, and when they are unbacked |
| SecondCloses.RerunIsUnbacked | backend/billing/store.py:69-85 | resetting an import with a left-over hold row, settled or released, is an unbacked close exactly when its features cost something and the user has frozen beans |
| SecondCloses.AfterSettle | backend/billing/store.py:285-291 | after a charge only the reset still takes effect |
| SecondCloses.AfterRelease | backend/billing/store.py:334-338 | after a release every close still takes effect, unbacked exactly when it asks for beans and some are frozen; a settle's whole cost is then uncovered |
| Scenarios.RerunOverspends | backend/platforms/temu/router.py:448-459 | a literal run of granted holds, covered settlements and one re-run of a settled import that takes one bean to -11 |
| Scenarios.EarlierRunOverspends | backend/platforms/temu/pipeline.py:341-347 | a literal run in which each hold is granted, ended once and covers the cost charged to it, and an earlier run's settlement of a smaller new hold lets five beans fall to -17 |
| Transactions.Serializable | backend/billing/store.py:237-259 | every interleaving commits what the returned calls give one after the other, in the order of their return |
| Transactions.OwnStep | backend/billing/store.py:300-315 | each statement of a transaction keeps what its earlier statements established |
| Transactions.OwnReturn | backend/billing/store.py:316-324 | a call that ends early would change nothing now, and a commit has exactly its operation's effect |
| Transactions.Undisturbed | backend/billing/store.py:128-133 | a commit of another call does not invalidate what a transaction has read, under the row lock and the unique index |
| Transactions.RacingSettlesChargeOnce | backend/billing/store.py:283-323 | any number of racing settles of one held import leave exactly one charge row |
| Progress.AloneIsApply | backend/billing/store.py:283-324 | every call, alone on a free row, runs to its end and commits exactly its ledger operation |
| Progress.RestIsApply | backend/billing/store.py:299-324 | so does every call from any phase it can have reached |
| Progress.CanReturn | backend/billing/store.py:237-259 | from every state an execution reaches, all open calls can return |
| Progress.RacingSettlesReturn | backend/billing/store.py:283-323 | two settles of one held import that have both passed their probes can both return, and one charge row is then there |
| ConcurrentSpend.ConcurrentBound | backend/billing/README.md:66-71 | the bound on the shortfall holds at any moment of every interleaving |
| ConcurrentSpend.ConcurrentNoOverspend | backend/billing/README.md:66-71 | no interleaving takes a user below the floor when, in return order, each close takes exactly its own hold and costs are covered; frozen is then the sum of open holds |
| RacingHolds.RacingHoldsFreezeTwiceIff | backend/billing/store.py:222-259 | a hold of any amount that meets another committing hold of its import freezes too exactly when it is past its probe and the room is there; frozen is then above the open holds by its amount |
| Slots.Acquire | backend/mq/redis_queue.py:47-55 | takes a slot exactly below the limit, renews the expiry, touches no other user |
| Slots.Release | backend/mq/redis_queue.py:60-67 | gives a slot back, never below zero, keeps the expiry, removes the key at zero |
| Slots.Renew | backend/mq/redis_queue.py:145-152 | changes no count and creates no key |
| Queue.TokenStep | backend/mq/redis_queue.py:265-307 | every Redis command of enqueuers and workers keeps one token per mark and none without |
| Queue.OneTokenPerMark | backend/mq/redis_queue.py:169-198 | in every crash-free interleaving a job is marked exactly when one token for it exists, push failures and rollback included |
| Wakeups.LossStep | backend/mq/redis_queue.py:183-190 | a crash-free step loses a call exactly when it rolls back the mark that the returned, unread call relied on |
| Wakeups.NeverLostIff | backend/mq/redis_queue.py:169-190 | a crash-free run never loses a call exactly when no step is such a rollback |
| Wakeups.NoLostWakeup | backend/mq/orchestrator.py:35-61 | a call that returned has been seen by a handler, or a token waits, or a worker is about to read the status, unless a step lost this very call; none does when no push fails |
| Wakeups.LostWakeup | backend/mq/redis_queue.py:176-190 | an eight-step run from boot that ends with a returned call lost |
| Handlers.DoomStep | backend/mq/orchestrator.py:61-67 | a call's next reader would skip exactly after a run of its import that was not past its final write, or a refused request, overwrote the status |
| Handlers.FateStep | backend/mq/orchestrator.py:61-71 | a read settles whether the calls waiting for it are run or skipped |
| Handlers.ReadByStatus | backend/mq/orchestrator.py:61-67 | a read skips on done, generating and insufficient and runs on every other status |
| Handlers.StatusAfter | backend/platforms/temu/pipeline.py:335-335 | what each status write leaves, and which runs are past their final write after it |
| Skipping.SkippableIff | backend/mq/orchestrator.py:61-67 | at any limit from one job per user on, and wherever the call and its token stand, a pending call can be skipped by some ordinary continuation exactly when an earlier run of its import is active and not past its final status write |
| Skipping.Drain | backend/mq/redis_queue.py:265-332 | a pending call whose status would be skipped, its job queued, with a worker or about to be read, is skipped by some ordinary continuation, whatever else is queued or running |
| SkippedRerun.RerunIsSkipped | backend/mq/redis_queue.py:39-39 | a literal run from boot with one worker and one job per user that ends with the re-run's call skipped |
| Handlers.QuietCallRuns | backend/mq/orchestrator.py:35-71 | a call made while no run of its import has its final status write before it is never skipped, crashes included: it is run, or pending; without crashes, once returned, with a token or reader on the way unless a step lost it |
| Handlers.FromBoot | backend/mq/redis_queue.py:249-255 | every run from boot settles each call's fate once and when it is read; every crash-free one keeps the token and slot invariants |
| Handlers.StepsExecute | backend/mq/redis_queue.py:265-319 | runs with status writes are runs of the queue protocol |
| Queue.SlotSafety | backend/mq/redis_queue.py:288-332 | with timely heartbeats, live holders <= active <= limit at every state, equal without crashes, and a live holder's key stays two hours from expiry less one beat |
| Queue.SlotStep | backend/mq/redis_queue.py:155-166 | every event, crash and passage of time included, keeps the slot invariant |
| Queue.CrashLeavesSlot | backend/mq/redis_queue.py:222-227 | a crashed holder leaves the counter one above the live holders |
| Queue.AdminRetryBreaksTokens | admin-platform/backend/store.py:1301-1305 | a retry always leaves an unmarked job with a token, a second one if it was waiting |
| Recovery.Redis.EnqueuePipeline | backend/mq/redis_queue.py:169-190 | marks and pushes a job that was not marked, or leaves everything as it was |
| Recovery.Redis.AcquireSlot | backend/mq/redis_queue.py:123-130 | the acquire script on the shared counters |
| WorkerLoop.TakeJob | backend/mq/redis_queue.py:265-308 | one pass up to the handler issues the protocol's commands in its order; a job is taken exactly when its user is below the limit, else Redis is as before |
| WorkerLoop.Pulse | backend/mq/redis_queue.py:145-166 | a heartbeat pulse is the protocol's renewal |
| WorkerLoop.FinishJob | backend/mq/redis_queue.py:328-332 | the end of a job is the protocol's release |
| WorkerLoop.Enqueue | backend/mq/redis_queue.py:169-190 | an enqueue is the protocol's mark and push, or only the mark's refusal, or the failure with its rollback |
| Recovery.Redis.ReleaseSlot | backend/mq/redis_queue.py:133-142 | the release script on the shared counters |
| Recovery.Redis.ResetQueueAndActive | backend/mq/redis_queue.py:222-237 | queue, marks and all counters are empty |
| Recovery.Imports.ListResumableImports | backend/store/import_.py:458-464 | the unfinished imports, by ascending id |
| Recovery.ResumableMembers | backend/store/import_.py:458-464 | that list holds each queued or generating import once, in ascending id order |
| Recovery.Recover | backend/worker.py:118-142 | from any previous contents: generating becomes error and every other status stays, each queued import is queued once, pops come in ascending id order, and every protocol invariant holds |
| Recovery.StartsClean | backend/mq/redis_queue.py:222-237 | a queue of distinct jobs with just their marks satisfies the token, wake-up and slot invariants |
| Images.DownloadImagesParallel | backend/core/images.py:106-134 | for any completion order the lists come out in url order, with the encodings and the valid positions |
| Images.Aligned | backend/core/images.py:153-161 | filtered encodings and valid positions correspond one to one |
| Images.Validate | backend/tools/aliyun_multimodal.py:47-67 | accepts exactly two or three distinct in-range indexes, names the first fault otherwise, returns the prompts sorted by number |
| Images.PromptsFound | backend/tools/aliyun_multimodal.py:60-65 | every key with a number gives one prompt with that number and the stripped text, no other key does |
| Images.NumberedKey | backend/tools/aliyun_multimodal.py:62-64 | only image_ followed by digits carries a number |
| Images.NumberOfKey | backend/tools/aliyun_multimodal.py:62-65 | the key image_n carries number n |
| Images.SharedNumber | backend/tools/aliyun_multimodal.py:62-65 | two different keys carry prompt number 1 |
| Images.ReferencesFound | backend/platforms/temu/pipeline.py:115-115 | an accepted index maps to the bytes whose encoding stood at that position of the shown list |
| Images.ReferencesDistinct | backend/platforms/temu/pipeline.py:115-115 | two accepted indexes map to the same source position only if they are equal |
| Generation.AcceptedReferencesOk | backend/platforms/temu/pipeline.py:114-117 | indexes that validation accepted for the images shown raise no mapping failure |
| Generation.ReferencesOkIff | backend/platforms/temu/pipeline.py:114-117 | the mapping fails exactly for an index outside the shown list, counted from either end |
| Pipeline.AcceptedGenerationWorks | backend/platforms/temu/pipeline.py:305-321 | after an accepted answer generation fails only for want of prompts or time or because its result is not written |
| Generation.Generate | backend/platforms/temu/pipeline.py:82-160 | which failure is raised when; otherwise the returned list and the streamed entries for any completion order |
| Generation.FinalIsCanonical | backend/platforms/temu/pipeline.py:137-160 | with distinct numbers every completion order returns the same list, the results in prompt order |
| Generation.OrderIndependentIff | backend/platforms/temu/pipeline.py:156-156 | the list is independent of the completion order exactly when prompt numbers are distinct |
| Generation.StreamedMatchesFinal | backend/store/import_.py:203-214 | streamed entries are among the final list's successes, and are all of them when no append fails |
| Generation.AppendedNext | backend/platforms/temu/pipeline.py:147-154 | an entry is streamed exactly when its task left an image and the append did not fail |
| Generation.ResultFields | backend/platforms/temu/pipeline.py:121-135 | a task leaves its name and its prompt, and its image or else its error |
| Generation.DeliveredIsWanted | backend/platforms/temu/pipeline.py:157-157 | delivered are the tasks that succeeded with an image, by name and url, and no failed one |
| Generation.FinalDelivers | backend/platforms/temu/pipeline.py:137-160 | in any completion order the final list holds every result and delivers exactly those tasks |
| StableSort.SortPermuted | backend/platforms/temu/pipeline.py:156-156 | with distinct keys, sorting any rearrangement gives the same list |
| StableSort.SortStable | backend/platforms/temu/pipeline.py:156-156 | sorting keeps the order of entries with equal keys |
| Pipeline.Execute | backend/platforms/temu/pipeline.py:165-359 | by the stored features when there are any and those of the raw data otherwise: which exit is taken when, final status, stored list, and the one ledger operation of a run that reaches settlement; with an open uncharged hold the beans taken are title, analysis and tasks that delivered an image; early exits leave the ledger and so the hold as they were |
| Pipeline.ChargeEqualsDelivery | backend/billing/store.py:277-324 | with an open hold a run charges title, analysis and stored successes, one bean each, and nothing when all failed |
| Pipeline.ChargeOrderFree | backend/platforms/temu/pipeline.py:343-343 | the charged number of images is the number of tasks that delivered one, for every completion order |
| Pipeline.CostWithinIff | backend/billing/store.py:29-48 | a run costs at most its hold exactly up to nine images, or ten when a requested title failed |
| Reruns.OneCycle | backend/platforms/temu/router.py:448-459 | a reset, hold and run leaves exactly its own charge on the import, whatever other imports do between these steps |
| Reruns.SettlesByRequest | backend/platforms/temu/router.py:458-458 | a granted request sets the features asked for, so its run leaves the frozen column as the reset had left it |
| Reruns.LastCycleOnly | backend/billing/store.py:51-102 | after any number of re-runs, with anything on other imports at any moment, an import's net charge is that of its last cycle |
| Reruns.BalanceAfterCycles | backend/billing/store.py:86-97 | after re-runs the balance is the first one, old charges refunded, last charge taken |
| Reruns.EarlierRunTakesHold | backend/billing/store.py:285-307 | a run still active at a granted re-run settles the new hold and no later settlement changes the ledger; it unfreezes its own features' amount, the new hold exactly when both cost the same |
| RefCode.RoundTrip | backend/platforms/temu/router.py:181-187 | the split at character 8 gives back uid and number of every printed code |
| RefCode.ImportStore.InsertImport | backend/store/import_.py:19-48 | every record gets a fresh id and the user's next number |
| RefCode.ImportStore.ByRef | backend/platforms/temu/router.py:181-200 | each rejection in its order, else a record of the caller |
| RefCode.RouteAnswers | backend/platforms/temu/router.py:181-200 | when each answer is given, in terms of the code, the uids and the records |
| RefCode.PrintedCodeForbidden | backend/platforms/temu/router.py:191-193 | the printed code of any record ever inserted is refused to every user but its owner |
| RefCode.CodeIs | backend/store/import_.py:77-79 | the printed code is the uid with the number behind it |
| RefCode.CodesDistinct | backend/store/import_.py:77-79 | codes of all imports ever inserted differ, across users and deletions |
| RefCode.PrintedCodeFound | admin-platform/backend/store.py:908-911 | for every printed code the owner's lookup and the admin search find the same record, or neither after deletion |
| RefCode.RoutesAgreeIff | admin-platform/backend/store.py:908-911 | a code the owner's lookup resolves is found by the admin search exactly when it is in canonical form |
| AttrEnrich.EnrichProductProps | backend/platforms/temu/attr_enrich.py:144-211 | the loops compute the property-by-property enrichment, its hit count and total |
| AttrEnrich.VidSource | backend/platforms/temu/attr_enrich.py:184-198 | the vid is the given one, else that of the exact value, else that of the first part with an entry, else empty |
| AttrEnrich.PidSource | backend/platforms/temu/attr_enrich.py:94-112 | the pid is the reference pid's, else the name's, else the old table's, else empty |
| AttrEnrich.TemplateSource | backend/platforms/temu/attr_enrich.py:115-141 | the template pid is the category's, else the default, else the old table's, else empty |
| AttrEnrich.EnrichedFields | backend/platforms/temu/attr_enrich.py:200-209 | what each field of an enriched property holds |
| AttrEnrich.FieldsRead | backend/platforms/temu/attr_enrich.py:169-170 | name and value are read from their fields, the name from its old field when the new one is missing, stripped |
| AttrEnrich.Missing | backend/platforms/temu/attr_enrich.py:82-91 | which values and entries count as missing |
| AttrEnrich.BothFormats | backend/platforms/temu/attr_enrich.py:82-91 | old and new format of an entry give the same vid |
| AttrEnrich.ExcludedOnly | backend/platforms/temu/attr_enrich.py:160-163 | exactly the two excluded names are dropped |
| AttrEnrich.OrderKept | backend/platforms/temu/attr_enrich.py:159-177 | names and values come out in input order less the excluded names; unknown properties come out untouched |
| AttrEnrich.EnrichOneTwice | backend/platforms/temu/attr_enrich.py:94-141 | every lookup on an enriched property finds again what it found |
| AttrEnrich.Idempotent | backend/platforms/temu/attr_enrich.py:144-211 | enriching an enriched list gives the same list and counts |
| AttrEnrich.ProductIdempotentIff | backend/platforms/temu/attr_enrich.py:154-163 | at product level this fails exactly when all productProps are excluded and some goodsProperty is not |
| ImageEdits.EditAiImage | backend/store/import_.py:217-270 | writes the edited list, or nothing when there is nothing to edit |
| ImageEdits.PromoteEdit | backend/store/import_.py:233-248 | a promotion appends a live original and removes the earlier ones of its url, and is refused exactly for an empty url |
| ImageEdits.DeleteEdit | backend/store/import_.py:249-258 | a delete edit marks the first entry of the type and so takes it out of the export, and is refused exactly when there is none |
| ImageEdits.RestoreEdit | backend/store/import_.py:249-258 | a restore edit leaves that entry live and touches nothing else |
| ImageEdits.DeleteThenRestoreIff | backend/store/import_.py:249-258 | the two edits in turn give back the export exactly when the first entry was not already hidden by a deletion |
| ImageEdits.ManualsKept | backend/store/import_.py:233-248 | after any edits a promoted url has exactly one original and every other url keeps the number it had |
| ImageEdits.OneManualKept | backend/store/import_.py:236-240 | no url ever has two originals when none had two at first |
| ImageEdits.PromoteLast | backend/platforms/temu/export.py:100-107 | a promoted url is last in the export and the other urls keep their order |
| ImageEdits.DeleteHides | backend/store/import_.py:249-258 | deleting takes exactly the first entry of the type out of the export |
| ImageEdits.DeleteRestoreIff | backend/store/import_.py:249-258 | deleting and restoring gives back the export exactly when the first entry was not already hidden by a deletion |
| SmsCodes.CodeFile.VerifyCode | backend/services/sms.py:154-195 | one call: its answer, and the file without the first matching line or unchanged |
| SmsCodes.PassedOver | backend/services/sms.py:175-179 | blank lines and lines that begin with # are passed over and kept, whatever they contain |
| SmsCodes.Compared | backend/services/sms.py:180-185 | any other comparable line is granted and removed exactly when it equals the code |
| SmsCodes.OneTime | backend/services/sms.py:170-195 | over any calls each code is granted the lesser of its submissions and its usable lines, and the file loses just its first lines of granted codes |
| SmsCodes.FairIff | backend/services/sms.py:181-181 | the count by submissions and code lines is right for all calls exactly when all code lines are ASCII |
| SmsCodes.Survivors | backend/services/sms.py:177-178 | comments, blanks and all lines of other codes survive in their original order |

## Left out

- HTTP routes, sessions, tokens, CORS, both frontends and the browser extension: plumbing without arithmetic or state of its own.
- Model, image and storage clients: each call is an arbitrary success or failure value.
- `restore_insufficient` and the refund on deletion: the first passes the number of images where the list of features is expected and raises; the second computes the refund from raw_json and never reaches its fallback.
- `recharge_orders`: a second record of an administrator's recharge that no balance depends on.
- Redis reconnection, script caching, failing BRPOP, RPUSH, SREM or Lua calls, PID file: one worker process and atomic commands that succeed, except LPUSH.
- Fairness: a refused job goes back to the end that BRPOP reads, so it can be retried before all others.
- Handlers.QuietCallRuns: rows deleted between enqueue and read, which the handler also skips, are not modelled.
- Transactions.Serializable: setting the features of an import is a separate statement outside the billing transactions and is not interleaved; calls on one import overlap only when all of them settle a positive cost, as the pipeline never settles zero (`RacingHolds` has the overlapping holds of one import).
- Transactions.RacingSettlesChargeOnce: deletion of a user while calls run is not modelled.
- Queue.OneTokenPerMark: crashes of workers are excluded, since a crash between pop and push-back loses the token until recovery; admin retry and deletion from the queue are not events.
- Queue.SlotSafety: assumes what the heartbeat thread is for, that a live holder renews at least every 120 seconds, and that the slot is taken and the first beat counted in one step.
- Recovery.Recover: enqueues during start-up and a Redis that is down are not modelled.
- Pipeline.Execute: database errors outside the generation branch, and an exception inside settlement (which the code logs and ignores), are not modelled; OSS and video uploads and the step log do not affect status or charge.
- Generation.Generate: a task that raises instead of returning a failure is not modelled.
- Images.Validate: entries of the index list are given as what int() makes of them; the text of a list given as a prompt is a placeholder, and digits are ASCII digits (the pattern accepts other decimal digits).
- RefCode.ImportStore.ByRef: `isdigit` accepts further Unicode digits, some of which `int` refuses; the model has ASCII digits only.
- AttrEnrich.EnrichProductProps: entries that are not objects, which make the code raise, are not modelled.
- ImageEdits.EditAiImage: an absent image type, source or error is the empty string; the stamp of a promoted entry is a parameter.
- SmsCodes.CodeFile.VerifyCode: the file lock makes calls one after the other; I/O errors, which deny the code, are not modelled.
