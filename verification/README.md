# MARKETER, verified

MARKETER receives a batch envelope, splits it into jobs, has a language model write an
enrichment for each job, corrects what the model wrote, stores rows in Postgres, reports
back with callbacks, and dispatches every sub-job onward. This project models that service
and proves how it behaves. The language model, the HTTP peers, the database server, the
clock and the schedule are arbitrary: they are method results chosen freely, function
parameters, or events of a transition system.

Check everything with `dafny verify dfyconfig.toml`.

## How it is laid out

| file | what it models |
|---|---|
| `Run.dfy` | one run of the worker, from the progress report to the last dispatch |
| `Batches.dfy` | the envelope, the split of its jobs, the results of the batch, the aggregate callback |
| `Dispatching.dfy` | the loops that dispatch the sub-jobs and update their rows |
| `Delivery.dfy` | the HTTP retry loops, the log of requests, the idempotency keys |
| `Persistence.dfy` | the persistence hooks, statement by statement, while other tasks interfere |
| `Store.dfy` | the database as a transition system of overlapping transactions |
| `Fanout.dfy` | the semaphore-bounded fan-out under any interleaving |
| `Reasoner.dfy`, `MultiReasoner.dfy` | one enrichment with its repairs; the single-call variant for a batch |
| `ActionsCache.dfy` | the action cache with its lock and time-to-live |
| `Jobs.dfy` | job parsing, quantity expansion, split and rebuild |
| `Channels.dfy` | contact channels, the profile merge, the call to action |
| `Scrub.dfy`, `VisualSelection.dfy` | the validator's text scrub and its visual-selection repair |
| `GallerySanitizer.dfy`, `Shortlist.dfy` | gallery sanitizing; scoring and shortlist |
| `PromptTruncation.dfy`, `PgUrl.dfy` | prompt truncation; SSL query rewriting |
| `Text.dfy`, `Wrappers.dfy` | Python string operations; Option and Result |

Code that updates things in place is a class or a method with a loop, proved equal to a
function of its inputs or of the old state; the properties are lemmas about that function,
or about all runs of a transition system. The database of `Persistence.dfy` is an object
that keeps the whole run of the store of `Store.dfy`, so everything proved about all runs of
the store holds while the hooks are at work; between any two statements of a hook, other
tasks take any number of steps. A hook may fail, but only because a statement fails, which
the database counts: a hook takes effect exactly if that count stays the same.

## Where the code does less than it says

* A run is documented never to leave its task hanging (`src/marketer/main.py:202-203`). It
  does, for some envelopes: a job whose quantity is NaN or Infinity, a `context` that is
  present but no object, a `client_request` of the wrong type, or a callback URL or
  correlation id from which the HTTP client cannot build a request, such as a number.
  `Run.TerminalIffReadable` gives the exact condition and `Run.SomeRequestsHang` four
  envelopes. A task with a single job has a further case, a description without a length
  (`Run.SingleTerminalIffReadable`, `Run.SomeSingleRequestHangs`).
* The retry loops let through every exception but two classes
  (`src/marketer/main.py:150`). Such an exception ends the run where it stands:
  `Run.FinishesIff` says when, and `Run.CutShortLeavesPending` which rows then stay pending.
* A created row ends with dispatch status ok or failed only if the transaction of the
  status update takes effect, since that update is best effort. The row of a completed job
  stays pending exactly when it does not (`Run.StoredRowsAreReported`).
* If the transaction that stores the results aborts, the ids it had created so far are
  still returned and their jobs are still posted (`Run.CompletedIsDispatched`), under ids
  that no row has then or later: a posted id is that of a row if and only if the transaction
  took effect (`Run.PostsNameRowsIff`).
* A batch without jobs, or in which every job failed, is reported as COMPLETED; only a
  failure of the batch as a whole is reported as FAILED (`Batches.FailedIffGlobal`).
* With the single-call reasoner, one item on which the validator raises fails the whole
  batch (`MultiReasoner.OneCrashTakesAll`), such as a website with an unclosed bracket
  (`MultiReasoner.OneAddressTakesAll`); in the fan-out it does not
  (`Fanout.ResultsAreIndependent`).
* A scrubbed token can come back if and only if it overlaps the marker: it contains the
  marker, lies inside it, ends with the beginning of it or begins with the end of it
  (`Scrub.AlwaysRemovedIff`, `Scrub.MarkerTokenMaySurvive`). Besides, the extracted brand DNA
  is injected after validation and is therefore not scrubbed.
* Prompt truncation leaves a tree unchanged if it is within the caps, but not only then: a
  text that ends in the note of an earlier cut by 22 characters comes back unchanged
  (`PromptTruncation.OversizedTextMayBeUnchanged`, `PromptTruncation.UnchangedIff`).
* An invalidation of the action cache can be undone, if and only if somebody holds rows of
  a read that differ from the catalog of that instant (`ActionsCache.InvalidationHoldsIff`,
  `ActionsCache.InvalidationMayBeUndone`).
* A task id delivered again under another account is given the first account's raw brief,
  and a job is then stored with it (`Store.ReplayUnderAnotherAccount`,
  `Store.SomeJobMismatches`). `Store.DeliveryOwnsItsBriefIff` says when a delivery is given
  a brief of its own user, and `Store.JobsMatchIff` when all jobs match their briefs.
* `urlparse` raises on some values that a brief can contain, and neither the call to action
  (`Channels.ValidationRaisesIff`) nor the gallery sanitizer catches it.
* A batch of pass-through jobs only, for a user without a strategy, founds one with empty
  content (`Persistence.PinAnyStrategy`), and by `Store.StrategyIsUniqueAndFixed` that
  content stays.
* Going through asyncpg's form keeps the SSL mode of psycopg's form, unless a URL has both
  keys with different modes: each form prefers its own (`PgUrl.ModeSurvivesTheDetour`).

## Model

| member | source | states |
|---|---|---|
| `Run.RunAndCallback` | src/marketer/main.py:199-340 | a `subscription_strategy` run reports progress and, if its request can be read, carries it out in order until it ends or an exception cuts it short; its rows are as reported, ids of a transaction that did not take effect have no row, and something is not stored, or the brief of a request with a job for the model not marked, only if a statement fails |
| `Run.Deliver` | src/marketer/main.py:705-905 | from the results to the last dispatch: the terminal body is the aggregate of the results, results and pass-through rows are dispatched in order up to the first exception, the log grows by exactly these requests, the rows end accordingly, or never exist if their transaction aborts, and the brief is marked once the results are committed |
| `Run.Finish` | src/marketer/main.py:819-898 | the terminal callback, and after it the two dispatch loops unless it raises |
| `Batches.Work` | src/marketer/main.py:616-702 | the jobs are split and the results obtained exactly when the request can be read |
| `Batches.ReadableMeans` | src/marketer/main.py:199-224 | which envelopes can be read, member by member |
| `Batches.Reparse` | src/marketer/main.py:635-652 | the reasoner, parsing the rebuilt request, works on exactly the given jobs, renumbered |
| `Batches.Enrich` | src/marketer/main.py:674-702 | with either reasoner, the results are one settled result per job, or a single failure without a job, exactly if the reasoner raised or turned the request away; with one call per job they carry the extracted brand DNA |
| `Batches.Reason` | src/marketer/main.py:675-702 | the reasoner that is chosen, with its exceptions caught |
| `Batches.BatchOf` | src/marketer/reasoner.py:920-1085 | whatever the outside world does, what comes back from either reasoner is a failure of the whole batch or the settled results of its jobs |
| `Batches.ResultsHaveShape` | src/marketer/main.py:674-702 | a result without a job is the single result of a batch that failed; otherwise there is one settled result per job, in order, and it is what the job's own answer gives |
| `Fanout.ReasonMultiFanout` | src/marketer/reasoner.py:920-1085 | its early returns, and after any schedule one result per job: the callback of its own call with the position stamped on it and nothing else changed, or the failure of its own exception or unsupported action |
| `Fanout.Schedule` | src/marketer/reasoner.py:1040-1041 | the event loop, free in its choice of the next task, produces a complete run of the fan-out that follows the answers |
| `Fanout.EndsAsAnswered` | src/marketer/reasoner.py:1040-1072 | every complete run, whatever its schedule, ends with the results that the answers prescribe |
| `Batches.SingleCallAnswers` | src/marketer/reasoner.py:844-894 | a single call that does not raise amounts to settled answers job by job |
| `Batches.Summarize` | src/marketer/main.py:809-826 | the loops that count and search compute the aggregate callback |
| `Dispatching.IndexIds` | src/marketer/main.py:794-796 | the index-to-id map loses no entry, since indices are positions |
| `Dispatching.DispatchAll` | src/marketer/main.py:843-883 | result k is dispatched under its own id, in order up to the first exception, only the rows of the created jobs change, each to the outcome of its own requests, and no id gets a row |
| `Dispatching.JobRequestCarriesJob` | src/marketer/main.py:853-881 | the request says of the job what it has, field by field, with the empty text for what it has not |
| `Dispatching.ForwardAll` | src/marketer/main.py:885-898 | the same for the rows of pass-through jobs |
| `Run.PersistAll` | src/marketer/main.py:705-788 | results and pass-through jobs are stored in two transactions, with ids that are new and all different, and that have rows exactly where the transaction took effect; the brief is marked with the results, or for a batch that failed as a whole |
| `Run.FinishesIff` | src/marketer/main.py:127-166 | a run finishes if and only if its request can be read and no request ends in an exception that is not caught; one that is cut short ends with such an exception and has no other |
| `Run.CallbackIsBracketed` | src/marketer/main.py:819-898 | every callback body is IN_PROGRESS or the terminal body, in this order, each put at least once and at most once per attempt, and every POST comes later, in finished runs and in those cut short |
| `Run.TerminalIffReadable` | src/marketer/main.py:199-224 | a terminal body is put if and only if the request can be read and reporting progress does not raise, which it does if the URL or the correlation id is not one that the client takes |
| `Run.SomeRequestsHang` | src/marketer/main.py:213-224 | four envelopes for which no terminal body is ever put, whatever the peers answer |
| `Batches.FailedIffGlobal` | src/marketer/main.py:809-826 | the terminal body is FAILED if and only if some failure has no job and nothing was completed, which is if and only if the reasoner raised or turned the request away, and then says which |
| `Run.CommitCoversCompleted` | src/marketer/main.py:705-712 | once the results are committed, every completed sub-job has a database id |
| `Run.UnbrokenCoversAll` | src/marketer/main.py:843-898 | unless an exception cuts it short, the run comes to every result and every pass-through row |
| `Run.CompletedIsDispatched` | src/marketer/main.py:853-883 | a completed sub-job with an id that the loop comes to is posted, field by field its own action, description, slug, product, index, output and id, whether or not its row was committed |
| `Run.JobPostsAreCompleted` | src/marketer/main.py:843-883 | every job POST belongs to a completed sub-job with an id, and is field by field what that job says; a failed one is never posted |
| `Run.JobPostsStemFromItems` | src/marketer/main.py:853-883 | from the envelope to the wire: a job POST carries the cleaned action, description or fallback, slug and product of one object of the list of jobs, the output of its own result, its index, and its own id |
| `Run.ProductPostsStemFromItems` | src/marketer/main.py:885-898 | a product POST names the cleaned product of an object that is no post, and the account of the context |
| `Run.ResultsFollowTheList` | src/marketer/main.py:616-702 | result k belongs to a post of the expanded list, which stems from one object of the client's list |
| `Run.KeysAreDispatchedOnce` | src/marketer/main.py:433-438 | distinct sub-jobs have distinct idempotency keys on the wire, every retry repeats the whole request, and at most one request per key is accepted |
| `Run.PostsCarryTheDna` | src/marketer/reasoner.py:1016-1072 | with one call per job, every job POST carries the extracted brand DNA in the enrichment and in the payload, whatever the model wrote |
| `Run.UnsendableJobsRaise` | src/marketer/main.py:413-494 | with a correlation id that the client cannot send, a job POST raises |
| `Run.IdsHaveRowsIff` | src/marketer/persistence.py:246-299 | an id that a run gave to a job is that of a row at its end if and only if the transaction of that job took effect |
| `Run.PostsNameRowsIff` | src/marketer/main.py:853-883 | a job POST carries the key of some row if and only if the transaction that stores the results took effect |
| `Run.StoredRowsAreReported` | src/marketer/main.py:843-883 | a committed row stays pending if and only if its job was completed and its update was not reached or did not take effect, and is ok if and only if the update took effect and the last POST was accepted |
| `Run.CutShortLeavesPending` | src/marketer/main.py:875-883 | an exception leaves pending the row of the completed sub-job on which it came and of all completed ones after it |
| `Run.FaultlessRunsSettleEveryRow` | src/marketer/main.py:843-883 | if no statement fails, nothing raises and something was completed, every sub-job has a row of the right user and brief, and none stays pending |
| `Run.PassedRowsAreReported` | src/marketer/main.py:885-898 | the same for pass-through rows, each of which is posted when the loop comes to it, unless no dispatcher is configured |
| `Run.RunSingle` | src/marketer/main.py:342-394 | a task with a single job puts IN_PROGRESS and then its own callback, or the internal error, and finishes if and only if its request can be read and neither of them raises; unless a statement fails its brief is marked, and a completed job has its row |
| `Run.SingleTerminalIffReadable` | src/marketer/main.py:342-394 | for a single job, a terminal body, which is its own callback or else the internal error, is put if and only if the request can be read and reporting progress does not raise |
| `Run.SomeSingleRequestHangs` | src/marketer/main.py:370-379 | an envelope, whose description is a number, for which no terminal body is ever put |
| `Delivery.Worker.PatchCallback` | src/marketer/main.py:127-166 | the body is put until it is accepted or the attempts, at least one, run out; any exception but the two classes that are caught leaves the loop |
| `Delivery.Worker.PostOrchJob` | src/marketer/main.py:413-494 | the same, but a client error other than 409 ends it too; true exactly if the last answer accepts; nothing is put without an address |
| `Delivery.Worker.PostDispatcher` | src/marketer/main.py:503-552 | every answer that does not accept is retried, unless it raises; true exactly if the last answer accepts |
| `Delivery.RetriesMean` | src/marketer/main.py:127-166 | which answers end the retries, by their status codes, and how often a request is put |
| `Delivery.KeysAreInjective` | src/marketer/main.py:437 | the text of an idempotency key determines task and job |
| `Delivery.UuidTextReadsBack` | src/marketer/main.py:881 | the text of a UUID reads back as its number, with four hyphens in their places |
| `Delivery.UuidTextIsInjective` | src/marketer/main.py:881 | the 36 characters of a UUID determine it |
| `Persistence.Database.Interfere` | src/marketer/db/engine.py:68-78 | whatever other tasks do, our own open transaction and the rows of this run stay as they are |
| `Persistence.Database.EnsureStrategy` | src/marketer/db/repositories.py:101-116 | the transaction is pinned to the active strategy of its user, which it can see, and which is an old one or a new first version with the given content; what it inserts is counted |
| `Persistence.PersistOnIngest` | src/marketer/persistence.py:74-131 | it raises if and only if the payload or the context is neither falsy nor an object; a context is handed out only for valid ids and a known action, and then unless a statement fails |
| `Persistence.IngestBrief` | src/marketer/persistence.py:101-131 | a context is handed out only when the transaction took effect, and otherwise no brief that it inserted is in the database |
| `Persistence.PinStrategy` | src/marketer/persistence.py:227-244 | a strategy is founded only from the first completed result, and there is one to point to whenever a result is completed |
| `Persistence.PinOne` | src/marketer/persistence.py:158-188 | a single run founds a strategy only when it is completed, and from its own result |
| `Persistence.Database.InsertOrFind` | src/marketer/db/repositories.py:37-67 | the row of the task is found or inserted in one step of the store |
| `Persistence.FirstIntelligence` | src/marketer/persistence.py:227-234 | the strategy is seeded by the first completed result |
| `Persistence.AddRow` | src/marketer/db/repositories.py:119-154 | one more row of the transaction, under a new id, for the pinned strategy |
| `Persistence.AddRows` | src/marketer/persistence.py:246-289 | the created list is a prefix of the results, with new and distinct ids; if no statement failed it covers them all, unless there is no strategy |
| `Persistence.PersistOnCompleteMulti` | src/marketer/persistence.py:211-299 | on commit every listed job has its row, the brief is done exactly if some job is, and the list covers all results whenever one was completed; on abort no id of the list has a row, and a strategy that was founded is not in the database |
| `Persistence.PersistOnComplete` | src/marketer/persistence.py:149-208 | on commit the brief is marked, and a completed run has its row; on abort a strategy that was founded is not in the database |
| `Persistence.PersistPassthrough` | src/marketer/main.py:726-788 | on commit every pass-through job has its pending row, and there always is a strategy to point to; on abort none has, and a strategy that was founded is not in the database |
| `Persistence.PinAnyStrategy` | src/marketer/main.py:739-757 | pass-through rows point to the active strategy, or to one seeded by a result, or to an empty one |
| `Persistence.MarkBatchFailed` | src/marketer/main.py:713-724 | a batch that failed as a whole marks its brief failed and touches no row |
| `Persistence.UpdateDispatchStatus` | src/marketer/persistence.py:302-312 | on commit exactly the one row changes, and only in its dispatch status; otherwise none does |
| `Store.StepKeeps` | src/marketer/db/repositories.py:20-172 | every step of any transaction, commit and abort included, keeps the uniqueness and reference invariants |
| `Store.CommitKeepsDb` | alembic/versions/001_initial_schema.py:198-204 | a commit keeps one active strategy per user, one brief per task, and jobs that point to a strategy of their user |
| `Store.OthersSurviveCommit` | src/marketer/db/engine.py:68-78 | a commit leaves every other open transaction in a state from which it can still commit |
| `Store.HistoryGrows` | src/marketer/db/repositories.py:157-172 | committed strategies never change, briefs keep user and task, jobs keep all but their dispatch status |
| `Store.RowsAreCommittedIff` | src/marketer/db/engine.py:68-78 | over any run, a user, brief, strategy or job is in the database if and only if a transaction that wrote it has committed; what is rolled back leaves nothing behind |
| `Store.RowsAreAsWritten` | src/marketer/db/repositories.py:37-154 | every row is as the statement inserted it: a strategy with its content, a brief with user and task, a job with user, brief, strategy and outcome |
| `Store.MarkedIff` | src/marketer/db/repositories.py:165-172 | in every run, a brief is done or failed if and only if a transaction that marks it has committed |
| `Store.MarkedForGood` | src/marketer/persistence.py:291-294 | once done or failed, a brief is never again only received |
| `Store.StrategyIsUniqueAndFixed` | src/marketer/db/repositories.py:76-116 | over any run, a user has at most one strategy, active, in version 1, and never changed after its commit |
| `Store.JobsShareTheStrategy` | src/marketer/persistence.py:226-254 | every job points to a strategy of its user, and all jobs a user ever gets share it |
| `Store.IngestIsIdempotent` | src/marketer/db/repositories.py:37-67 | all ingests of one task id that commit are given the same brief |
| `Store.JobsComeFromContexts` | src/marketer/persistence.py:40-46 | in every run, user and brief of a job are those of a context that an ingest handed out |
| `Store.DeliveryOwnsItsBriefIff` | src/marketer/db/repositories.py:47-67 | a delivery that commits is given, for ever, a brief of its own user if and only if it sees no brief of the task that belongs to another |
| `Store.ContextsAreDeliveredIff` | src/marketer/persistence.py:112-131 | over any run, a context has been handed out if and only if a delivery of its task by its user has committed that found or inserted its brief |
| `Store.JobsMatchIff` | src/marketer/persistence.py:112-126 | without further deliveries, all jobs that are ever stored belong to the user of their brief if and only if all contexts handed out do |
| `Store.JobsMatchTheirBrief` | src/marketer/persistence.py:112-126 | in particular they do if every delivery of a task names the same account |
| `Store.ReplayUnderAnotherAccount` | src/marketer/db/repositories.py:47-67 | from any quiet state with a brief, a delivery of its task by another user leads to a stored job of that user with the first user's brief |
| `Store.SomeJobMismatches` | src/marketer/db/repositories.py:47-67 | a run from the empty database that ends with such a job |
| `Fanout.PermitsAreConserved` | src/marketer/reasoner.py:994-1028 | free permits and calls in flight add up to the configured concurrency, or to 1, in every reachable state, and unsupported actions take none |
| `Fanout.RunsAreBounded` | src/marketer/reasoner.py:1004-1041 | every run ends after at most three events per job |
| `Fanout.SomethingCanHappen` | src/marketer/reasoner.py:1015-1028 | no deadlock: until all tasks are done some event is possible |
| `Fanout.Stitch` | src/marketer/reasoner.py:1043-1072 | one stamped result per job, in job order, and the number of those that are completed |
| `Fanout.ResultsAreIndependent` | src/marketer/reasoner.py:1040-1072 | a job's result depends on its own action and answer only, not on schedule, concurrency or other jobs' exceptions |
| `Fanout.ResultsAreTheAnswers` | src/marketer/reasoner.py:1004-1072 | over every complete run, a job's result has status, error, data, enrichment, warnings and usage of the callback of its own call, and its own index, action and the total; an exception gives fanout_exception, an unsupported action its own error |
| `Fanout.CompletedIffAnswered` | src/marketer/reasoner.py:1004-1072 | a job is completed if and only if its action is supported and its call returns a completed callback |
| `Fanout.BatchIsUniform` | src/marketer/reasoner.py:1016-1072 | every complete run gives one settled result per job; a completed one is stamped with index and total and carries the extracted brand DNA in both places |
| `Reasoner.Reason` | src/marketer/reasoner.py:377-627 | the state machine of calls, repairs and validation refines its functional description, and makes exactly the calls that this names |
| `Reasoner.CallsAreBounded` | src/marketer/reasoner.py:447-567 | at most three calls, none for a request that is turned away, exactly one after a first timeout; the callback is settled |
| `Reasoner.CompletesIff` | src/marketer/reasoner.py:447-567 | a run is completed if and only if its request is not turned away and the replies, in one of four ways, lead to one that passes the validator, with the number of calls that this takes |
| `Reasoner.FailuresMean` | src/marketer/reasoner.py:393-560 | every other outcome with its error and its number of calls |
| `Reasoner.CompletedDelivers` | src/marketer/reasoner.py:563-627 | a completed run delivers the enrichment of the reply that passed, its brief as client request, more than one item for a carousel only, and the resources in order |
| `Reasoner.CompletionAccounts` | src/marketer/reasoner.py:482-504 | on completion the trace holds, component by component, the sum over all calls, and repair flag, repair warning and a second call go together |
| `Reasoner.BrandDnaIsInjected` | src/marketer/reasoner.py:569-618 | the extracted brand DNA ends up in the enrichment and in the payload, whatever the model wrote or repairs did |
| `Reasoner.DedupKeepsFirst` | src/marketer/reasoner.py:609 | the resources hold every URL exactly once |
| `Reasoner.DedupKeepsOrder` | src/marketer/reasoner.py:609 | in the order in which they are first seen |
| `Reasoner.AttachmentsComeFirst` | src/marketer/reasoner.py:600-618 | all attachments are forwarded ahead of everything else, then the picks, then the assets, and nothing else |
| `MultiReasoner.ReasonMulti` | src/marketer/reasoner.py:695-894 | the single-call reasoner with its one repair refines its functional description |
| `MultiReasoner.AssembleAll` | src/marketer/reasoner.py:844-894 | each job's callback comes from its own item, missing items fail their job, and an exception ends the loop |
| `MultiReasoner.OnePerJob` | src/marketer/reasoner.py:844-894 | one settled result per job in order, stamped, accounting for all of at most two calls |
| `MultiReasoner.ResultsAreTheItems` | src/marketer/reasoner.py:747-894 | every outcome of the single call, from the replies and the validator alone: all jobs fail alike, or the validator raises, or each job has the result of its own item, with all its fields |
| `MultiReasoner.EarlyReturns` | src/marketer/reasoner.py:717-745 | what comes back before the language model is called |
| `MultiReasoner.OneCrashTakesAll` | src/marketer/reasoner.py:862-865 | the batch raises if and only if the validator raises on the item of some job |
| `MultiReasoner.OneAddressTakesAll` | src/marketer/validator.py:270-298 | two items and a website with an unclosed bracket: the single call raises, though the first item alone would be completed |
| `ActionsCache.Cache.CheckUnlocked` | src/marketer/db/actions_cache.py:72-75 | the first check serves the caller if and only if the cache holds what was published less than 60 seconds ago and neither replaced nor dropped since |
| `ActionsCache.Cache.LockAndRecheck` | src/marketer/db/actions_cache.py:76-87 | the second check under the lock: the catalog is read if and only if the refresh is forced or the cache holds no such publication |
| `ActionsCache.Cache.EnsureFresh` | src/marketer/db/actions_cache.py:70-79 | while everybody else runs at its awaits: when it returns, the cache held, at some instant of the call, a publication less than 60 seconds old, or the caller has filled it |
| `ActionsCache.Cache.Refresh` | src/marketer/db/actions_cache.py:82-87 | when it returns, the caller has filled the cache |
| `ActionsCache.Cache.RefreshLocked` | src/marketer/db/actions_cache.py:46-67 | query, publication and release, each of which may fail, and the lock is always released |
| `ActionsCache.Cache.Get` | src/marketer/db/actions_cache.py:90-93 | a record that it returns was published in the call, or less than 60 seconds before an instant of it at which the cache still held it, and was in the catalog at some instant of the run |
| `ActionsCache.Cache.Drop` | src/marketer/db/actions_cache.py:102-109 | an invalidation is one event of the run and empties the cache |
| `ActionsCache.RefreshOnlyUnderLock` | src/marketer/db/actions_cache.py:76-87 | only the holder of the lock reads or publishes |
| `ActionsCache.CacheIsASnapshot` | src/marketer/db/actions_cache.py:46-67 | the cache equals the catalog at one instant, a full time-to-live before it expires or earlier |
| `ActionsCache.NoStampede` | src/marketer/db/actions_cache.py:70-87 | after a publication, an unforced read comes a full time-to-live later, unless there was an invalidation or an empty catalog in between |
| `ActionsCache.ReadsIffNotCurrent` | src/marketer/db/actions_cache.py:70-79 | the converse: in every run, whoever enters goes to the lock, and whoever obtains it unforced reads, if and only if no publication of the last 60 seconds is in force |
| `ActionsCache.FreshMeansCurrent` | src/marketer/db/actions_cache.py:74-77 | the test of the code, on cache and expiry, says exactly that such a publication is in force |
| `ActionsCache.InvalidationHolds` | src/marketer/db/actions_cache.py:102-109 | if nobody holds outdated rows at an invalidation, the cache only holds catalogs of later instants |
| `ActionsCache.InvalidationHoldsIff` | src/marketer/db/actions_cache.py:102-109 | and only then: otherwise some continuation of the run fills the cache with what the catalog has not been since |
| `ActionsCache.InvalidationMayBeUndone` | src/marketer/db/actions_cache.py:102-109 | a run of six events from the initial state that ends with such a cache |
| `Jobs.ExtractSubscriptionJobs` | src/marketer/normalizer.py:839-916 | the parsing loop computes the expansion and its warnings, or raises on a quantity that is not finite |
| `Jobs.IndicesAreSequential` | src/marketer/normalizer.py:895-916 | indices are 0, 1, 2 and so on |
| `Jobs.CopiesAreContiguous` | src/marketer/normalizer.py:895-916 | the copies of an item, between 1 and 10 of them, stand together, in source order |
| `Jobs.EveryJobHasAnItem` | src/marketer/normalizer.py:859-916 | no job comes from anything but an object item, and all positions are covered |
| `Jobs.JobsStemFromItems` | src/marketer/normalizer.py:869-916 | field by field what a job has from its item: cleaned values, the default action, the fallback description |
| `Jobs.SharesAreQuantities` | src/marketer/normalizer.py:898-904 | an item yields as many jobs as its quantity says, from 1 to 10, and else the nearer bound; fractions count as their whole part |
| `Jobs.LlmJobsInOrder` | src/marketer/main.py:621-622 | the jobs for the language model are exactly the posts to create or to edit, each once and in order |
| `Jobs.PassthroughJobsInOrder` | src/marketer/main.py:621-622 | the pass-through jobs are exactly the others, each once and in order |
| `Jobs.InvalidItemsWarnOnce` | src/marketer/normalizer.py:860-868 | one warning for each item that is no object, and for no other |
| `Jobs.FallbacksWarnOnce` | src/marketer/normalizer.py:877-894 | one warning, with the slug, for each post without a description, and for no other item |
| `Jobs.LlmJobsAreDescribed` | src/marketer/normalizer.py:877-894 | a job for the language model always has a description |
| `Jobs.ExtractionRaisesIff` | src/marketer/normalizer.py:895-902 | parsing raises if and only if some object has a quantity that is not finite |
| `Jobs.RebuildRoundTrip` | src/marketer/main.py:635-652 | parsing the rebuilt request gives the filtered jobs in order, renumbered, with equal action, description, slug and product, and no warning |
| `Text.CleanStringProjects` | src/marketer/normalizer.py:55-63 | cleaning yields clean values and leaves exactly these alone |
| `Text.CleanStringMeans` | src/marketer/normalizer.py:55-63 | cleaning strips, and drops the seven texts that read as nothing |
| `Text.StripCuts` | src/marketer/normalizer.py:60 | stripping cuts off the white space at both ends, all of it and nothing else |
| `Text.ReplaceRemoves` | src/marketer/validator.py:50-53 | a replaced string is gone if it does not overlap the marker |
| `Text.ReplaceInventsNothing` | src/marketer/validator.py:50-53 | a string that does not overlap the marker is in the output only if it was in the input |
| `Scrub.CheckTextFacts` | src/marketer/validator.py:56-128 | the five scanning loops compute the composed scrub and all warnings in order |
| `Scrub.NothingRejectedSurvives` | src/marketer/validator.py:70-128 | a rejected token that does not overlap the marker is not in the result, whatever is replaced after it |
| `Scrub.AlwaysRemovedIff` | src/marketer/validator.py:50-53 | a token is gone from every text, whatever else is replaced, if and only if it does not overlap the marker |
| `Scrub.OverlapComesBack` | src/marketer/validator.py:50-53 | for a token that overlaps the marker, a text and one further token with which it comes back |
| `Scrub.EndsDoNotOverlap` | src/marketer/validator.py:50-53 | a token without the middle character of the marker that neither begins with its last character nor ends with its first does not overlap it |
| `Scrub.BracketsAreRemoved` | src/marketer/validator.py:70-82 | a URL that has brackets in common with the marker and is always removed |
| `Scrub.ScrubInventsNothing` | src/marketer/validator.py:50-53 | repeated scrubbing makes up no text that does not overlap the marker |
| `Scrub.UnchangedIffNothingRejected` | src/marketer/validator.py:70-128 | for tokens found in the text and longer than the marker, as all four scanners' are, the text comes back unchanged if and only if no token is rejected |
| `Scrub.OneWarningPerRejection` | src/marketer/validator.py:72-126 | one warning per rejected token, prices included |
| `Scrub.ScrubbedMeans` | src/marketer/validator.py:72-126 | which list of facts allows which kind of token, and in which form it is looked up |
| `Scrub.ReportsMean` | src/marketer/validator.py:72-126 | the code and the subject of every warning |
| `Scrub.MarkerTokenMaySurvive` | src/marketer/validator.py:50-82 | a text in which a rejected URL that contains the marker is written back |
| `VisualSelection.Selection.Repair` | src/marketer/validator.py:325-389 | the three stages, run in place, compute the repaired lists and their warnings |
| `VisualSelection.RepairedInOne` | src/marketer/validator.py:325-389 | the three stages amount to one filter of the assets and one extension of the references |
| `VisualSelection.RepairPartitions` | src/marketer/validator.py:325-389 | all lists are within the gallery, no asset has the reference role, assets and references are disjoint |
| `VisualSelection.RepairSorts` | src/marketer/validator.py:325-389 | where each URL ends up, from the lists and the gallery alone, where the last entry of a URL decides on its role |
| `VisualSelection.WarningsCount` | src/marketer/validator.py:334-374 | the warnings count the entries that the gallery does not list, list by list, and the assets that are moved |
| `VisualSelection.RepairConserves` | src/marketer/validator.py:325-389 | the recommended gallery URLs are conserved |
| `VisualSelection.RepairKeepsOrder` | src/marketer/validator.py:325-389 | survivors keep their order |
| `VisualSelection.RepairIsIdempotent` | src/marketer/validator.py:325-389 | a second pass changes nothing and warns of nothing |
| `VisualSelection.SilentIffUnchanged` | src/marketer/validator.py:325-389 | nothing is reported if and only if assets and references are left as they are |
| `Channels.ExtractAvailableChannels` | src/marketer/normalizer.py:560-602 | the loop with its set of seen entries computes the usable candidates in order |
| `Channels.ExtractedChannels` | src/marketer/normalizer.py:560-602 | one entry per kind, usable, never WhatsApp, each with the cleaned value of the brief |
| `Channels.BriefFieldsAreOffered` | src/marketer/normalizer.py:560-602 | which contact of the brief is on offer under which kind, and with which value |
| `Channels.BriefHints` | src/marketer/normalizer.py:560-602 | the hints that go with the contacts |
| `Channels.PlacelessAlwaysOffered` | src/marketer/normalizer.py:560-602 | direct message and link sticker are always on offer |
| `Channels.ApplyUserProfile` | src/marketer/normalizer.py:795-833 | the merge, done step by step, computes its functional description |
| `Channels.ProfileTakesPrecedence` | src/marketer/normalizer.py:795-833 | every kind with a profile value carries that value, every other entry is the brief's, and entries of the brief keep their hints |
| `Channels.ProfileFieldsPrevail` | src/marketer/normalizer.py:795-833 | which field of the profile prevails for which kind |
| `Channels.OtherKindsStay` | src/marketer/normalizer.py:795-833 | entries of kinds that a profile does not have stay as they are |
| `Channels.MergedKinds` | src/marketer/normalizer.py:795-833 | the kinds are exactly those of the brief, of the profile, and the two that are always there |
| `Channels.MergeKeepsKindsApart` | src/marketer/normalizer.py:795-833 | one entry per kind stays one entry per kind, the existing ones first and in order |
| `Channels.MergeIsIdempotent` | src/marketer/normalizer.py:795-833 | merging the same profile again changes nothing |
| `Channels.CallToAction.Validate` | src/marketer/validator.py:214-298 | the overwritten call to action and its warnings are those of the functional description |
| `Channels.ValidationProjects` | src/marketer/validator.py:214-298 | the result is legal, and exactly the legal calls to action pass unchanged and unwarned |
| `Channels.OffersMean` | src/marketer/validator.py:235-281 | what it means to be on offer, for phone numbers and for other values |
| `Channels.TargetPassesIff` | src/marketer/validator.py:228-298 | which calls to action with a target pass unchanged: on offer, parsed, and for a website an http or https address |
| `Channels.ValidationIsIdempotent` | src/marketer/validator.py:214-298 | validating again changes nothing |
| `Channels.ValidationRaisesIff` | src/marketer/validator.py:270-298 | validation raises if and only if an offered value cannot be parsed as a URL |
| `Channels.SupersededTargetIsRejected` | src/marketer/validator.py:214-298 | once the profile has superseded the brief's target, the old one is never accepted |
| `GallerySanitizer.SanitizeGallery` | src/marketer/normalizer.py:250-268 | the loop computes the distinct accepted images, the rejections and the cap |
| `GallerySanitizer.AcceptsMeans` | src/marketer/normalizer.py:132-183 | which images are accepted, and what is recorded of them |
| `GallerySanitizer.RaisesMeans` | src/marketer/normalizer.py:132-163 | which images make it raise |
| `GallerySanitizer.EveryImageIsCounted` | src/marketer/normalizer.py:250-268 | accepted before the cap, rejected and duplicate images add up to the raw ones |
| `GallerySanitizer.RejectionsCount` | src/marketer/normalizer.py:250-268 | the rejections are the images that are not accepted |
| `GallerySanitizer.ListedAreFirstValid` | src/marketer/normalizer.py:250-268 | the images are first valid occurrences of their URLs, in input order |
| `GallerySanitizer.FirstValidAreListed` | src/marketer/normalizer.py:250-268 | and none of these is missing |
| `GallerySanitizer.GalleryIsCapped` | src/marketer/normalizer.py:264-268 | at most 20, a prefix, and truncated if and only if something was cut |
| `GallerySanitizer.WarningMeans` | src/marketer/normalizer.py:962-987 | all-filtered is raised if and only if there were raw images and all were rejected |
| `Shortlist.ScoreImage` | src/marketer/gallery.py:60-135 | the accumulating loops compute the score |
| `Shortlist.ScoreAddsUp` | src/marketer/gallery.py:60-135 | what an image scores, signal by signal |
| `Shortlist.WordsMean` | src/marketer/gallery.py:80-83 | the words are the stretches of more than two characters between white space |
| `Shortlist.MoreTagsScoreNoLess` | src/marketer/gallery.py:72-135 | further tags, wherever inserted, never lower the score |
| `Shortlist.ScoreIsLinear` | src/marketer/gallery.py:72-135 | the score is bounded linearly by the numbers of tags and words |
| `Shortlist.RankingSorts` | src/marketer/gallery.py:148-160 | insertion in input order is a stable descending sort of all positions |
| `Shortlist.RankingIsUnique` | src/marketer/gallery.py:148-160 | there is only one |
| `Shortlist.EligibleInOrder` | src/marketer/gallery.py:36-58 | the eligible items are exactly the unused images whose lock, if any, has run out, each once and in order |
| `Shortlist.EligibilityRaisesIff` | src/marketer/gallery.py:36-58 | eligibility raises if and only if an unused image has a lock that cannot be compared |
| `Shortlist.BuildShortlist` | src/marketer/gallery.py:138-173 | the shortlist is the leading part of the ranking of the eligible items |
| `Shortlist.ShortlistIsTopK` | src/marketer/gallery.py:148-173 | at most as many as the limit, none scoring less than one left out, ties in input order |
| `PromptTruncation.TruncationCuts` | src/marketer/llm/gemini.py:143-152 | same keys everywhere, exactly the leading list elements up to the cap, texts kept or cut to their first characters and the note of how many are missing |
| `PromptTruncation.DecimalReadsBack` | src/marketer/llm/gemini.py:149-151 | the number in the note reads back as the number of characters that are missing |
| `PromptTruncation.NoteFits` | src/marketer/llm/gemini.py:149-151 | a note is as long as what it replaces for an overflow of 22 only |
| `PromptTruncation.TextUnchangedIff` | src/marketer/llm/gemini.py:149-151 | which texts come back unchanged |
| `PromptTruncation.UnchangedIff` | src/marketer/llm/gemini.py:143-152 | which trees come back unchanged, at every depth |
| `PromptTruncation.OversizedTextMayBeUnchanged` | src/marketer/llm/gemini.py:149-151 | a text beyond the cap that comes back unchanged |
| `PgUrl.CoerceForPsycopg` | src/marketer/pg_url.py:39-60 | the loop with its flags, on the pairs of the query, computes psycopg's form |
| `PgUrl.CoerceForAsyncpg` | src/marketer/pg_url.py:63-81 | the loop, on the pairs of the query, computes asyncpg's form |
| `PgUrl.ValuesMean` | src/marketer/pg_url.py:28-36 | which values of ssl stand for which mode |
| `PgUrl.KeysMean` | src/marketer/pg_url.py:39-81 | keys are recognized in any case |
| `PgUrl.PsycopgForm` | src/marketer/pg_url.py:39-60 | no ssl key is left, an explicit sslmode wins, other pairs are kept in order |
| `PgUrl.AsyncpgForm` | src/marketer/pg_url.py:63-81 | no sslmode key is left, an explicit ssl wins, other pairs are kept in order |
| `PgUrl.CoercionsAreIdempotent` | src/marketer/pg_url.py:39-81 | applying either again changes nothing |
| `PgUrl.ModeAfterTheDetour` | src/marketer/pg_url.py:30-81 | the mode after the detour is that of the first ssl, or else of the first sslmode, translated |
| `PgUrl.ModeSurvivesTheDetour` | src/marketer/pg_url.py:30-81 | going through asyncpg's form keeps the mode of psycopg's form, up to its spelling, if and only if the query does not have both keys with different modes |

## Left out

- Regular expressions: the scanners' token lists are inputs. The scrub theorems ask of a token what they need, namely that it does not overlap the marker; `Scrub.OverlapComesBack` takes any text for a token.
- Case folding beyond ASCII, Unicode white space beyond the characters listed in `Text.dfy`, and the internals of `urlparse`, `parse_qsl` and `urlencode`, whose results are inputs.
- `Dispatching.JobRequest`: the context object that is copied into a dispatched job is not modelled, apart from the index; the rest of the request is.
- Run.RunSingle: what the reasoner returned is an input here; `Reasoner` says what it can be. The route `/tasks/sync`, which repeats this path, is not modelled.
- Store: the check constraint on the agent column is one of the reasons for which a statement may fail, and rows hold the columns that the properties speak of.
- Store.IngestIsIdempotent: an insert that finds an uncommitted row of the same key is modelled as waiting; the time-outs of waiting are failures.
- Batches.Readable: whether the HTTP client can build a request from a URL or a correlation id is taken as given; an entry of the log is a request that was put to the client, which one that cannot be built never leaves.
- Persistence.Database.Issue: UUIDs of the server are never given out twice; the model treats a collision as a failed statement.
- Store.MarkedIff: which of done and failed a brief ends with is not followed over runs, since a replayed task marks it again; a batch of pass-through jobs only does not mark it.
- Settings are fixed for the length of a run, and without a database there is no context.
- Caption caps, caption coherence, prompts, schemas, alias tables, logging, the user-profile and gallery fetches, routes and authorization: I/O, data or easy lookups.
