# Replication, synchronisation and quota of a container registry: a Dafny model

This project models the parts of the registry service that are hardest to get right and proves what
they promise. Verify with `dafny verify dfyconfig.toml`.

## What is modelled

**Replication of one repository** (`States`, `Registry`, `Transfer`, `StateMachine`). A worker has one
state machine, a class whose methods update its fields: the transition and handler maps, the desired
state, the rows it read. The handlers of a transfer share one mutable `BaseHandler` with the shrinking
tag list, the worklist of blobs and the existence cache. Both registries are classes; every remote call
on them is nondeterministic and may succeed, fail with a network error (which leads to a retry) or with
another error, and unless a registry is `quiet` others may change it between any two calls. Calls of
Stop by other goroutines land at every point where the lock of the machine is free. The destination
keeps a ghost history of all its contents, so that "at all times" is a postcondition. Both
registries keep the failures of the calls made to them, so that what a run did can be held against them.

**The job service** (`JobService`, `Carriers`, `Guarantees`, `Causes`, `Openness`). Worker pool, dispatcher
goroutines, the rescheduler, start-up with resumed jobs, crashes at any moment and stop actions are one
transition system. A step is one atomic action of one goroutine: a channel send or receive, a section
under the lock, a query or an update of a row. `Enabled` says when a step can be taken and `Apply` what it
does, both in four parts: start-up, the queue, the workers and the stop actions. `Run` is any finite
interleaving, with any number of crashes and restarts in it. The two models of the state machine meet in
`States`: the decision at the top of the loop is `LookAt` in both, and what a handler may answer in the
transition system (`Answers`) is what the methods of the class are proved to answer.

**Disable and stop** (`StopAction`, `StopEnds`). What the stop action does to the jobs of a disabled
policy, in every such interleaving.

**Fast forms and simple ones.** The merge join of the search against the nested join (`Search`), the
two-pointer difference of registry and table and what one and two rounds of it do (`SyncRegistry`), and
the page-by-page listing with its Link header printer and parser (`Link`, `Pagination`).

**Ledgers and texts.** The quota ledger (`Quota`), the handlers for policies, targets and projects
(`Admin`), the scan report with its two parsers (`ClairReport`) and what is read out of it (`ScanReport`),
the directories of job logs (`LogPath`). `Strings`, `Decimal` and `Sets` are shared.

## What came out

* A finished transfer is complete, and no manifest is ever at the destination without its blobs, also
  when a run is cut short. Attempts that were cut short leave no trace in what a finished one leaves: while
  nobody else writes, every content the destination has in the course of an attempt lies on the way there.
* A transfer makes at most `3 * tags + 5` transitions: three to get going, three for each tag, the look
  that finds no tag left, and the last status.
* What becomes of a job that nobody stops is decided by the failures of its remote calls alone, of which a run
  meets at most one: none, and it is finished; a network failure, and it is retried; another one, and it is an
  error (`StateMachine.Worker.HandleRepJob`).
* A deletion goes by manifest: a tag that is not listed goes with a listed one of the same image. It takes
  exactly the listed tags if and only if no listed one shares its manifest with one that is not
  (`DeletesOnlyListed`, `DeletesUnlisted`).
* Start can be held up by Stop calls: each call that lands while the machine is about to stop costs
  another turn. The bounds on a stopped job therefore count the Stop calls.
* The search loses repositories when a project name has a character below the slash in byte order
  (`a-b/x` comes before `a/x`). The exact condition under which it loses none is `NoneOutOfStep`.
* A job that lands in `retrying` under a disabled policy is canceled at its next Reset and ends in no other
  way (`RetryingEndsCanceled`, `WaningIsCanceled`).
* The difference of registry and table looks for tags only where a name of the table comes later in the
  order. A second sync can therefore still add names (`SyncNeedNotSettle`); `SecondSyncAdds` says from the
  registry, the table and the look-ups exactly when it does not.
* Pushes and deletions of tags and projects keep the quota ledger (`Quota.Ledger.Run`). A rescan breaks it
  exactly if it finds another size in a project with a quota (`RescanBalances`). Creating a project breaks
  it exactly if an earlier project of this name has left images (`CreatedBalances`), as those without a size
  are left by a deletion (`RecreatedUnbalances`).
* Enabling or disabling a policy that does not exist dereferences nil before the handler gets to its
  check (`Admin.Administration.UpdateEnablement`, reply `Panic`).
* The scan summary shows package and version as they are exactly if neither has an `@` or a colon
  (`PackageIsRead`): the version `1:2` is shown as `1` (`EpochShown`). It fails on a report of findings that
  fit on their lines exactly if the package of one has a colon with no `@` before it (`SummaryFails`).
* The report of an image with features is read as that of a safe one exactly if nothing was found, nothing
  reaches the minimum severity, or some line has one of two phrases (`ReadAsSafe`). A description that has one hides all
  the other findings (`DescriptionHides`).

## Model

| member | source | states |
|---|---|---|
| Registry.PushAdvances | job/replication/transfer.go:414-458 | publishing the manifest of the tag in work, its blobs being there, adds this tag to the copied ones and loses none of the others |
| Registry.BlobsKeepAdvanced | job/replication/transfer.go:372-392 | adding blobs of the manifest in work keeps every tag copied so far and strays nowhere |
| Registry.CopiedAllIsReplicated | job/replication/transfer.go:288-458 | with all listed tags copied, the destination is the old one with exactly the listed tags and their blobs from the source, all other tags untouched |
| Registry.PartialWorkIsAbsorbed | job/replication/transfer.go:318-350 | replicating from any state an unfinished attempt can leave gives the same as replicating from the start |
| Registry.AttemptsConverge | job/statehandlers.go:69-76 | any number of partial attempts followed by a finished one equals one uninterrupted finished run, tags and blobs |
| Registry.AttemptsJoin | job/statehandlers.go:69-76 | an attempt that goes on where an earlier one was left strays from the way to the replicated state at no moment |
| Registry.AllAreAbsorbed | job/replication/transfer.go:318-350 | replicating from any content of a history of attempts gives the same as replicating from the start |
| Registry.SameTagsSameResult | job/replication/transfer.go:136-175 | only which tags of the source are listed matters for the result, not their order or repetition |
| Registry.ReplicatedIsClosed | job/replication/transfer.go:427-455 | a finished replication into a registry whose manifests have all their blobs leaves such a registry |
| Registry.Destination.PushManifest | job/replication/transfer.go:432-450 | the registry itself checks nothing; it stays closed at all times if the blobs of the manifest were there before |
| Registry.Destination.DeleteTag | utils/registry/repository.go:267-279 | deletes the manifest of the tag and with it every tag of the same manifest; drops no blob |
| Registry.Destination.DeleteRepository | api/repository.go:142-217 | success leaves no tag; a failure leaves some manifests with all their tags and has taken the others whole |
| Registry.Destination.Delete | job/replication/delete.go:89-163 | the two deletions as one request |
| Registry.DeletesOnlyListed | utils/registry/repository.go:267-279 | a deletion takes exactly the listed tags if and only if every tag that shares a manifest with a listed one is listed |
| Registry.DeletesUnlisted | utils/registry/repository.go:267-279 | `latest` goes with `1.0` if they are the same image |
| Registry.PartialDeletionIsAbsorbed | job/statehandlers.go:69-76 | deleting from any state an unfinished deletion leaves gives the same as deleting from the start |
| TransferHandlers.BaseHandler.Initialize | job/replication/transfer.go:136-175 | connects to both registries and fixes the tag list once: the tags of the job or, without any, exactly those of the source; it fails exactly with the failure of one of these calls |
| TransferHandlers.BaseHandler.CheckProject | job/replication/transfer.go:188-211 | succeeds if and only if the own project can be read and the one answer of the destination is created or conflict; else it fails with that error, and the content of the destination is left alone |
| TransferHandlers.BaseHandler.PullManifest | job/replication/transfer.go:288-359 | with no tag left it finishes; else the manifest of the first tag is held, every blob the destination lacks is on the worklist and the worklist has only blobs of that manifest |
| TransferHandlers.BaseHandler.ListMissing | job/replication/transfer.go:318-350 | exactly the blobs not known to be there are put on the worklist; what was known is asked no more and stays known, every answer is remembered and right, and no blob is forgotten |
| TransferHandlers.BaseHandler.TransferBlob | job/replication/transfer.go:372-392 | after success every blob of the manifest is at the destination; cut short or not, it has only added blobs of that manifest |
| TransferHandlers.BaseHandler.PublishManifest | job/replication/transfer.go:414-450 | on success the destination serves this very manifest under the tag and has not changed otherwise; on failure it may also be as before |
| TransferHandlers.BaseHandler.PublishTag | job/replication/transfer.go:414-450 | a success copies one more tag; whatever comes of it, no tag copied before is lost |
| TransferHandlers.BaseHandler.PushManifest | job/replication/transfer.go:414-458 | with the tag published, or dropped by the source meanwhile, the tag list loses its first tag and nothing of the manifest in work is left |
| TransferHandlers.Deleter.Enter | job/replication/delete.go:79-163 | success removes the manifests of the listed tags, or all of them; a failure has removed some of these and nothing else |
| StateMachine.SM.Stop | job/statemachine.go:148-159 | only a call with the id the machine has changes the desired state |
| StateMachine.SM.Take | job/statemachine.go:187-192 | under the lock the new job replaces the old one and every earlier request is forgotten |
| StateMachine.SM.Load | job/statemachine.go:194-262 | succeeds exactly if the rows are there, the password decrypts and the operation is known, or the policy is disabled; the tables are built anew for this job, nothing of an earlier job is left; a disabled policy loads no handlers |
| StateMachine.SM.AddTransition | job/statemachine.go:128-136 | adds one edge and the handler of its end |
| StateMachine.SM.AddTransferTransitions | job/statemachine.go:271-283 | the table of a transfer, on top of the common one |
| StateMachine.SM.AddDeleteTransitions | job/statemachine.go:285-291 | the table of a deletion, on top of the common one |
| StateMachine.SM.EnterPullManifest | job/replication/transfer.go:277-359 | within a run the worklist is empty on entry, and the run gets closer to its end whatever the handler answers |
| StateMachine.SM.EnterTransferBlob | job/replication/transfer.go:361-392 | within a run a manifest is held and the tag list is not empty on entry |
| StateMachine.SM.EnterPushManifest | job/replication/transfer.go:403-458 | within a run a manifest with all its blobs at the destination is held on entry; one more tag is copied on success |
| StateMachine.SM.EnterStatus | job/statehandlers.go:45-56 | writes the status of this job only; the statuses that end a run name no next state |
| StateMachine.SM.EnterRetrying | job/statehandlers.go:69-76 | writes the status and hands the job to the rescheduler once |
| StateMachine.SM.PhaseIsLegal | job/statemachine.go:62-68 | the next state of a run is always in the tables, so the branch for a missing transition is never taken |
| StateMachine.SM.EnterState | job/statemachine.go:61-92 | one transition in a run never fails with a missing transition, keeps all invariants of the run, goes where the one failure of its handler leads, and uses up one transition |
| StateMachine.SM.BlameLeads | job/replication/transfer.go:128-133 | a handler answers with the one failure it met, its own or of a registry; with it the failures of the run are this one alone |
| StateMachine.SM.Poll | job/statemachine.go:99-104 | a request that is seen is one for this job and is cleared; one that is not seen was not there when it was looked for |
| StateMachine.SM.Choose | job/statemachine.go:96-118 | decides as `LookAt` of `States` says for the desired state it saw, the same decision the transition system takes; the error of several choices never comes up |
| StateMachine.SM.Turn | job/statemachine.go:99-121 | one turn of the loop comes closer to the end, lexicographically in transitions left and Stop calls to come |
| StateMachine.SM.Start | job/statemachine.go:96-125 | ends in finished, error, stopped or retrying with the status of the job equal to it, after at most three transitions a tag and five, and enters at most one working state after a stop |
| StateMachine.SM.Run | job/statemachine.go:96-125 | the same for a machine fresh from Reset, measured from the state of destination, tables and failures then |
| StateMachine.Worker.Reset | job/statemachine.go:187-262 | a machine fresh for this job, or an error exactly if a row is missing, the password does not decrypt or the operation is unknown; a stop seen afterwards was made for this job |
| StateMachine.Worker.HandleRepJob | job/workerpool.go:82-100 | what one handling of a job does to the job table, the destination and the rescheduler: finished means fully replicated, at any other moment the destination lies in between, a disabled policy cancels, no other row or registry changes. Unless a Stop was seen, the status is what the failures of the remote calls of this run demand: finished without any, retrying with the job handed over after a network failure, error after another one; and no run goes on after a failure |
| StateMachine.Worker.HandleWithRetries | job/statehandlers.go:69-76 | however often a transfer was retried with a fresh handler, once finished the destination is what one run would have left; and at whatever moment a crash cuts an attempt short, a finished run from the content it leaves gives the same |
| Carriers.EnterKeepsInv | job/statemachine.go:61-92 | a transition in the interleaved service is legal and keeps the invariant; the branch for a missing one is not taken |
| Carriers.StatusWritten | job/statehandlers.go:45-76 | a worker that writes a status keeps the books of who holds which job, handing it to the rescheduler if it is to be retried |
| Carriers.Hands | job/workerpool.go:128-139 | the rendezvous of a dispatcher with a worker passes the job on, to a worker that has none |
| Carriers.Lists | jobservice/main.go:35-50 | resumeJobs takes up every unfinished job exactly once |
| Carriers.Resets | dao/replication_job.go:404-409 | no row stays running when nobody works on it |
| Carriers.HeldByDispatcher | job/workerpool.go:128-139 | a job a dispatcher holds is pending or retrying, never running |
| Carriers.InvKept | job/workerpool.go:57-139 | every step of every goroutine, and a crash at any moment, keeps the invariant |
| Guarantees.InvAlways | jobservice/main.go:26-50 | the invariant holds in every state of every run, over any number of crashes and restarts |
| Guarantees.ExactlyOneCarrier | job/scheduler.go:23-36 | once resumeJobs has returned, a job is pending, running or retrying if and only if it is in exactly one place: a blocked Schedule, a sleeping Reschedule, a dispatcher or a worker |
| Guarantees.TerminalIsForever | dao/replication_job.go:390-402 | a finished, stopped, canceled or failed job never changes its row again; policy and operation of a job never change |
| Guarantees.PoolIsExclusive | job/workerpool.go:57-73 | each worker is in exactly one of four places, once in the channel of free workers if there at all, and no two workers handle the same job |
| Guarantees.PoolSize | job/workerpool.go:114-125 | the pool keeps the number of workers it was started with |
| Guarantees.PoolIsBounded | job/workerpool.go:114-125 | at no time are more jobs handled than that |
| Guarantees.SendsNeverBlock | job/workerpool.go:114-139 | the sends on workerChan and to a worker never block |
| Guarantees.StopIsIsolated | job/statemachine.go:148-171 | a machine is asked to stop only by a call of Stop that named the job it has now, made after its last Reset |
| Guarantees.MovesAreLegal | job/statemachine.go:62-117 | in every reachable state the next transition is in the table and `_continue` has one edge |
| StopAction.SettledStep | job/workerpool.go:35-45 | under a disabled policy no step of anybody lets a stopped or waiting job start anew |
| StopAction.PassedStep | job/workerpool.go:35-45 | every worker the stop action passes is settled for the job it looks for, whether it called Stop or not |
| StopAction.StopActionSettles | api/jobs/replication.go:143-163 | when the stop action is through, every job that was pending or running at its query is settled at every worker |
| StopAction.AtMostOneMoreHandler | job/statemachine.go:96-105 | a settled job starts at most one more working handler, over any further run with crashes, while its policy stays disabled |
| StopAction.WaningEndsCanceled | job/workerpool.go:92-96 | a job no worker has past Reset when the policy is disabled is never run: it keeps its status until it is canceled |
| StopAction.RetryingEndsCanceled | job/statehandlers.go:69-76 | a job that lands in retrying under a disabled policy stays there until it is canceled, and every step of a worker that has it takes it there: from Take to the reading of its rows, from there to canceling, from there to canceled |
| Causes.StoppedOnRequest | job/statemachine.go:99-104 | a job ends as stopped only if Stop was called for it on a worker whose machine had this job and worked on it then |
| Causes.CanceledWhenOff | job/workerpool.go:92-96 | a job ends as canceled only if its policy was disabled when a worker read it |
| Causes.FinishedOnAnswer | job/statemachine.go:96-125 | a job ends as finished only if one of its handlers answered so |
| Causes.ErrorForCause | job/statemachine.go:187-262 | a job ends as an error only if a worker read it with its policy missing, its operation unknown or its target not to be used, or a handler of it answered with an error |
| Causes.RetriedOnAnswer | job/statehandlers.go:69-76 | a job is put up for a retry only if one of its handlers met a network failure |
| Causes.ReadDecides | job/workerpool.go:82-100 | a worker that has read the rows cancels the job exactly if the policy is disabled, gives it up exactly if they are bad, and starts it otherwise |
| Causes.StopsWhatItFound | dao/replication_job.go:366-371 | Stop is called for a job only by an action to stop its policy that found it pending or running; one that waits for its retry is not stopped |
| Causes.StoppedByAction | api/jobs/replication.go:143-163 | so a job ends as stopped only after such an action |
| Openness.AnythingCanCome | job/statemachine.go:61-92 | a crash and a change of a policy can come in any state, jobs and stop requests whenever the service serves, and no answer of a handler that does a piece of the job is ruled out |
| Openness.StartGoesOn | jobservice/main.go:26-50 | before the service serves, start-up has a next step |
| Openness.StartIsNearer | jobservice/main.go:26-50 | each of its steps leaves less to do, so that only a crash keeps the service from serving |
| Openness.StopGoesOn | job/workerpool.go:35-45 | a stop action that is not through can go on |
| Openness.StopIsNearer | api/jobs/replication.go:143-163 | each of its steps brings it nearer to its end, lexicographically in ids and workers left, and no step of another but a crash keeps it back |
| StopEnds.HandledByOwner | job/statemachine.go:96-125 | each step of the worker brings a settled job closer to its end or ends it |
| StopEnds.FewStepsLeft | job/statemachine.go:96-125 | a settled job is moved at most nine times, plus twice for every further Stop call that names it |
| StopEnds.CanBeMoved | job/workerpool.go:128-139 | a job that is not over can be moved unless it waits for a worker and none is free, and then one of the workers, if there are any, can go on |
| StopEnds.PoolGoesOn | job/workerpool.go:57-73 | as long as no worker is free, some worker can take a step |
| StopEnds.WaningIsCanceled | job/workerpool.go:92-96 | a waiting or retrying job under a disabled policy is moved boundedly often and, until it is canceled, can always be moved or waits for a free worker while some worker can go on |
| StopEnds.DisableThenStop | dao/replication_job.go:366-371 | disable a policy, then stop it: its jobs run at most one more handler, take boundedly many steps and can always go on until canceled, stopped, finished or failed |
| Strings.SortSorts | api/utils.go:377-378 | sorting orders the names and neither loses nor invents any |
| Strings.Split | utils/link.go:61 | no part has the separator, and joined by it the parts are the string |
| Strings.SplitJoin | utils/link.go:61 | splitting undoes joining |
| Strings.TrimTakesOff | utils/utils.go:48-49 | trimming takes off exactly what stands around the rest |
| Strings.ContainsIs | api/search.go:113 | a string contains another exactly if it is that one with something before and something after it |
| Strings.ComponentOfTwo | utils/utils.go:47-58 | the project part of `p/x` is `p` |
| Search.FilterRepositories | api/search.go:101-127 | every returned entry is of a given repository with the keyword inside and of the project it belongs to, for any input; with sorted projects every such repository that is in step is returned, and the result is the nested join without the others |
| Search.RightIs | api/search.go:111-123 | an entry is right exactly if its repository is given and has the keyword inside, and number and visibility are those of its project |
| Search.MergeIsJoin | api/search.go:101-127 | the merge is the nested join if and only if no matching repository with a project is out of step |
| Search.SearchIsComplete | api/search.go:94-95 | sorted repositories whose project parts have only characters above the slash lose nothing |
| Search.OrderOfPrefixes | utils/utils.go:47-58 | the order of such names implies the order of their project parts |
| Search.SearchLosesOne | api/search.go:101-127 | a concrete search that loses a repository because the dash sorts below the slash |
| SyncRegistry.DiffRepos | api/utils.go:373-447 | to delete: exactly what the table has more than the registry; to add: exactly what the registry has more, its project existing, with a tag if a name of the table comes later; an error exactly if a tag look-up that is made fails |
| SyncRegistry.Table.AddRepository | dao/repository.go:27-35 | a name is in the table once |
| SyncRegistry.Table.DeleteRepository | dao/repository.go:57-61 | removes the name and no other |
| SyncRegistry.Table.Sync | api/utils.go:291-354 | the table after a sync: every name it shared with the registry and no name the registry does not have, and what is due; or nothing changed if the difference cannot be told |
| SyncRegistry.SecondSyncAdds | api/utils.go:382-420 | a second sync changes nothing if and only if every name passed over for its tags comes before a name of the registry that is in the table or due to be added |
| SyncRegistry.Table.SyncTwice | api/utils.go:291-354 | of two calls the second fails exactly for a name the registry has twice whose tags are now looked up in vain, and changes nothing exactly under the condition of `SecondSyncAdds` |
| SyncRegistry.SyncSettles | api/utils.go:291-354 | if every repository has a tag, a second sync changes nothing |
| SyncRegistry.SyncNeedNotSettle | api/utils.go:422-436 | registry `p/a`, table `p/b`, no tags: the first sync leaves the table empty, the second adds `p/a` |
| Link.ParseSingleLink | utils/link.go:71-95 | the link of one value: its last bracketed part and its last relation, or none if either is missing |
| Link.LastOnesCount | utils/link.go:71-95 | the last part of the form `<url>` and the last of the form `rel=value`, key in any case and value quoted or not, decide |
| Link.ParseLink | utils/link.go:58-69 | the links of all values in order |
| Link.Next | utils/link.go:46-55 | the URL of the first link with relation next, or nothing if there is none |
| Link.Prev | utils/link.go:34-43 | the URL of the first link with relation prev, or nothing if there is none |
| Link.SingleLinkInverts | utils/link.go:71-95 | the parser reads back one printed link |
| Link.ParseInvertsPrint | utils/link.go:58-95 | the parser reads back every header of URLs free of comma, semicolon and angle brackets (section 5 of RFC 5988) |
| Pagination.SetPaginationHeader | api/base.go:161-193 | the header names the page before and the page after, where there are such |
| Pagination.LinksThere | api/base.go:163-193 | there is a link to the page before exactly if this is not the first page and begins within the list, and one to the page after exactly if items follow |
| Pagination.LinksLead | api/base.go:163-193 | each leads to the page next to this one, on the same path and with every other parameter as it is |
| Pagination.GetPage | api/repository.go:55-109 | the page of the repositories of the project in the URL that have the keyword in the URL, in bounds for every page number, with its header; a missing or bad number and an unknown project are refused |
| Pagination.GetReposByProject | api/utils.go:518-538 | the names that have the keyword, in order |
| Pagination.CutPage | api/repository.go:95-103 | the two cuts are the items of the page |
| Pagination.WithPageReads | api/base.go:168-172 | the server reads back the page number it put into a URL, and every other parameter as it was |
| Pagination.NumberIs | api/base.go:195-213 | the first value of a key counts; an absent or empty one leaves the default, and one that is no positive number is refused |
| Pagination.ParamsWithPage | api/base.go:168-172 | the new URL has the same path, the page, and every other parameter of the old one as often as it had it and no more, ordered by key |
| Pagination.NextSlice | api/repository.go:93-103 | consecutive pages are consecutive pieces of the list |
| Pagination.GetRepoList | api/jobs/replication.go:225-269 | following the links ends and returns the whole list of the project, each name once and in order, if the project exists; after a failed request a beginning of it |
| Pagination.ReplicationJobs.AddJob | api/jobs/replication.go:119-135 | a new pending row that is scheduled once, or nothing |
| Pagination.ReplicationJobs.Post | api/jobs/replication.go:72-117 | a full sync makes one transfer job for each repository the server has of the project and schedules each once |
| Pagination.TransferJobsAre | api/jobs/replication.go:105-111 | the jobs of a full sync, in the order of the repositories: operation transfer, no tags, pending |
| Quota.Ledger.AddQuotaNum | service/images.go:92-113 | counts an image that is not in the table yet |
| Quota.Ledger.CheckImageSafety | service/checkAndmail.go:21-48 | stores what the scan found; a new row has no size |
| Quota.Ledger.CheckImageSize | service/checkAndmail.go:72-131 | stores the size and adds the difference to the old one to the project |
| Quota.Ledger.Push | service/notification.go:109-146 | a completed push keeps every project's numbers equal to those of its images |
| Quota.Ledger.UpdateQuota | api/repository.go:236-262 | takes an image with a size off the ledger, keeping the balance; otherwise nothing changes |
| Quota.Ledger.DeleteTags | api/repository.go:182-215 | keeps the balance; takes off exactly the images with a size of a project with a quota, for the tags before the first refusal; a tag the registry does not know does not stop the loop; exactly the tags it had or that were taken off are passed on |
| Quota.PassedOnHas | api/repository.go:182-229 | passed on to the policies are exactly the tags the registry had and those whose image was taken off |
| Quota.Ledger.CreateProject | api/project.go:128 | an empty quota for a name that has none, which is balanced if and only if no image of an earlier project of this name is left |
| Quota.Ledger.DeleteProject | dao/quota.go:147-153 | takes the quota off and keeps the balance of the others |
| Quota.Ledger.Rescan | api/ScanImages.go:119 | changes the image row alone |
| Quota.Ledger.Run | service/notification.go:109-146 | any sequence of pushes and deletions of tags and projects keeps the balance |
| Quota.PutBalances | dao/quota.go:50-86 | counting a new image and adding the difference of sizes keeps count and sum right for every project |
| Quota.RemoveBalances | dao/quota.go:97-103 | so does taking one off |
| Quota.RescanBalances | api/ScanImages.go:119 | a rescan keeps the balance if and only if the size is unchanged or the project has no quota |
| Quota.CreatedBalances | api/project.go:128 | an empty quota is right if and only if the project has no images |
| Quota.RecreatedUnbalances | dao/project.go:281-287 | deleting a project that has an image left and creating it again loses the balance |
| Admin.Administration.PostPolicy | api/replication_policy.go:100-164 | accepted exactly for a live project, an existing target and a free pair; triggers a replication exactly if enabled |
| Admin.Administration.PutPolicy | api/replication_policy.go:167-310 | the target changes only while disabled, to an existing one with a free pair |
| Admin.Administration.UpdateEnablement | api/replication_policy.go:319-369 | sets the flag and triggers or stops on a change; refuses partial policies; an unknown id panics |
| Admin.Administration.DeletePolicy | api/replication_policy.go:374-412 | refused while enabled (partial ones excepted) or while a job is unfinished |
| Admin.Administration.PartialReplication | api/replication_policy.go:415-470 | reuses the partial policy of the pair or adds one; a full policy of the pair is a conflict |
| Admin.Administration.PostTarget | api/target.go:184-222 | accepted exactly for a new name and a new endpoint |
| Admin.Administration.PutTarget | api/target.go:226-298 | refused exactly for an enabled policy on the target, a name or an endpoint in use |
| Admin.Administration.DeleteTarget | api/target.go:301-328 | refused exactly while a live policy uses it |
| Admin.Administration.PostProject | api/project.go:85-134 | accepted exactly for a name of 4 to 100 characters that matches the regular expression for names and that no project has |
| Admin.LegalFormIsParts | api/project.go:447-456 | the names in terms of their characters are exactly those of the regular expression |
| Admin.Administration.DeleteProject | api/project.go:184-227 | refused exactly while it has a repository or a live policy |
| Admin.Administration.Serve | api/replication_policy.go:100-470 | any sequence of requests keeps policies on live projects and existing targets, pairs, names of targets and projects, and endpoints unique, and each request the destination of policies active before and after it |
| Admin.DestinationIsFixed | api/replication_policy.go:213-217 | over a whole history an active policy has one destination |
| Admin.GuardIsExact | api/target.go:251-262 | changing a target keeps every destination if and only if its endpoint stays or no active policy uses it |
| ClairReport.PrintFinding | service/scan/clair.go:323-367 | the text of one finding is its lines |
| ClairReport.TextOfFinding | service/scan/clair.go:323-367 | the text of one finding, word for word |
| ClairReport.PrintReport | service/scan/clair.go:323-367 | the report is the lines of all findings in order |
| ClairReport.CountLevel | api/vulnerability_info.go:145-158 | a header line counts under the first level word it has |
| ClairReport.LevelIsFirst | api/vulnerability_info.go:145-158 | of the level words in a line the first of High, Critical, Medium, Low, Negligible decides; without one the line is unknown |
| ClairReport.ReadField | api/vulnerability_info.go:159-184 | what one field line does to the record, with the index errors |
| ClairReport.GetVulnerabilitySummary | api/vulnerability_info.go:92-204 | the answer for any text, or the two answers of a text that mentions a vulnerability in no header line |
| ClairReport.HeaderRead | api/vulnerability_info.go:132-143 | a printed header line closes the record before it and opens one with its name and severity |
| ClairReport.FindingRead | api/vulnerability_info.go:128-188 | the printed lines of a finding become one record |
| ClairReport.SummaryInvertsPrint | api/vulnerability_info.go:128-188 | unless the package of a finding makes the parser fail, the summary of a printed report lists every finding in order with name, severity, link and fixed version, and its counters |
| ClairReport.SummaryFails | api/vulnerability_info.go:159-164 | the summary of a printed report fails if and only if the package of some finding has a colon with no `@` before it |
| ClairReport.PackageRead | api/vulnerability_info.go:159-164 | what a package line does to the record, for any package and version |
| ClairReport.PackageIsRead | api/vulnerability_info.go:159-164 | package and version come back whole if and only if neither has an `@` or a colon |
| ClairReport.EpochShown | api/vulnerability_info.go:159-164 | the version `1:2` is shown as `1` |
| ClairReport.PackagePanics | api/vulnerability_info.go:159-164 | the parser fails on a package line if and only if the package has a colon with no `@` before it |
| ClairReport.LevelsAddUp | api/vulnerability_info.go:142-158 | the level counters add up to the number of findings |
| ClairReport.LevelIsSeverity | api/vulnerability_info.go:145-158 | with no level word in the name, a finding counts for its own severity |
| ClairReport.LevelsAreSeverities | api/vulnerability_info.go:145-158 | each counter is the number of findings of its severity, those of Defcon1 being under unknown |
| ClairReport.SummaryCounts | api/vulnerability_info.go:128-188 | so it is in the summary of a printed report, whose number of patches is that of the findings with a fixed version |
| ClairReport.Count | service/checkAndmail.go:161-185 | how many header lines weigh heavy and how many light, for any text |
| ClairReport.WeightIs | service/checkAndmail.go:161-185 | a header line is light if it has a light word, heavy if it has only heavy ones |
| ClairReport.CountOfPrint | service/checkAndmail.go:161-185 | on a printed report these are the high and critical ones and the lower ones; Defcon1 is in neither |
| ScanReport.Collect | service/scan/clair.go:289-309 | the findings of at least the minimum severity in order, whether there are any, and whether any were found at all |
| ScanReport.VisibleAre | service/scan/clair.go:289-309 | visible are exactly the findings of the listed severities from the minimum one up |
| ScanReport.AnalyzeLayer | service/scan/clair.go:284-379 | the text: of no features, of nothing found, of nothing visible, or the lines of exactly the visible findings |
| ScanReport.ReadAsSafe | api/vulnerability_info.go:100-107 | the summary takes a report for a safe image if and only if nothing was found, nothing is visible or a line of a finding has one of two phrases |
| ScanReport.DescriptionHides | api/vulnerability_info.go:100-107 | a description with such a phrase makes the whole report safe |
| ScanReport.NoFeaturesRead | api/vulnerability_info.go:109-117 | an image without features is read as not supported |
| Decimal.ReadShow | api/base.go:169 | reading a printed number gives it back |
| LogPath.GetJobLogPath | job/utils/logger.go:47-66 | the directories of the id without its last three digits, and the file |
| LogPath.FileIsNamed | job/utils/logger.go:48 | the file is `job_`, the id in decimal, `.log` |
| LogPath.GroupsOfThree | job/utils/logger.go:49-63 | the directories are groups of three digits of that number from its front |
| LogPath.DirectoriesSpell | job/utils/logger.go:49-63 | the directories put together are that number in decimal, none below 1000 |
| LogPath.SameDirectory | job/utils/logger.go:49-63 | two jobs share a directory if and only if their ids differ in the last three digits only |
| LogPath.AtMostThousand | job/utils/logger.go:49-63 | no directory holds more than a thousand logs |
| LogPath.DifferentFiles | job/utils/logger.go:48 | different jobs have different files |

## Left out

- The network: HTTP clients, headers, tokens, TLS, JSON and status codes. A remote call is an outcome; HTTP replies of the administration handlers are a small datatype. Manifest digests are an ideal hash.
- The database driver: rows are maps and sets, queries and updates are atomic and succeed. A failed insert is modelled only where a job is added. Job rows are not deleted while somebody holds the id.
- `JobService` is a transition system over values, not a class: what its goroutines do is one step each. A call of EnterState up to the look at its answer is one step, and so are adding a row with the start of its Schedule, and writing `retrying` with the start of the Reschedule; a crash does not fall between the two halves. `StateMachine` has the same code as methods on objects.
- The five minutes a retried job sleeps are a step that can come at any time; there is no fairness assumption, so that a job can be moved is proved, not that it will be.
- `Worker.Stop` with its `quit` channel, which nothing calls, and the handlers that only exist for testing.
- StateMachine.Worker.HandleWithRetries: the number of attempts is a parameter and a crash is no step of it; that attempts may be cut anywhere is said of every content of the destination, and Registry.AttemptsConverge has no bound on them.
- TransferHandlers.BaseHandler.CheckProject: creating a project remotely is success, conflict or error and no more; an absent row of the own project, which the original dereferences as nil, is taken to exist.
- Pagination.GetRepoList: integers are unbounded, so the overflow of page times page size is not modelled; the list does not change between two pages.
- Pagination.WithPage: parameters are ordered by key but not escaped, and a parameter without an equals sign stays without one.
- Quota sizes are exact numbers, not floating point; two pushes of one image at the same time are not modelled. The mail sent on a full quota is left out.
- SyncRegistry.DiffRepos: the partial lists returned with an error are not described, since the caller drops them.
- ClairReport.PrintReport: the findings are given in the order they are printed; ScanReport.AnalyzeLayer filters them, and leaves open which order the sorting by severity gives.
- ClairReport.GetVulnerabilitySummary: line length limits of the scanner are not modelled, nor are the messages an abnormal answer carries.
- Admin.Administration.PostPolicy: the names of policies, which need not be unique, are not modelled; passwords and descriptions are left out.
- Quota.Ledger.DeleteTags: the tags come as a list; that they are split at commas or asked of the registry comes before.
- Users, roles, sessions, mail, LDAP, logging, the web pages, the Python SDK, database migrations, security benchmarks and access-log queries: plumbing, or easy members.
