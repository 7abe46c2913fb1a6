# Remote worktree runner: a verified model

The runner sends local Git worktrees to one server, runs a command for each job there under a
fixed number of heavy permits, and can publish a job's service under a stable preview hostname.
This project models the four parts of that system whose correctness does not show in any single
function, and proves what they promise. `dafny verify dfyconfig.toml` checks everything.

**The permit pool and the job lifecycle.** A job waits in a durable directory of ticket files,
is admitted in FIFO order when it is at the head and the slot scan gets all its permits, runs,
and releases. Workers, cancellation, reconciliation, supersession, stale pruning, snapshots and
crashes act on the same files. The model has two levels. `Runner.dfy` is a step machine: every
process is a sequence of steps, the critical sections under the queue lock are single steps,
except the slot scan, which is one step per slot because releases and crashes do not take the
queue lock; a run is any interleaving. `ResourcePool.dfy`, `Lifecycle.dfy` and `Worker.dfy` are
the imperative classes, whose methods are proved against functions on tickets, locks and records
(`Queue.dfy`, `Slots.dfy`). `Polling.dfy` and `Sections.dfy` connect the levels: run on files that
show a reachable state, each method leaves them showing the state after the step it stands for; a
poll and a release, with any releases in between, are runs of several steps. `Worker.dfy` does the
same for the worker's program: the store follows a run of the machine. The whole-run results
are in `Permits.dfy`, `Fifo.dfy`, `FifoResults.dfy`, `Waiting.dfy`, `JobHistory.dfy`, `Waiters.dfy`
and `Capacity.dfy`.

**The preview registry.** `publish` and `unpublish` change two things that must agree: route
files and attachments to the edge network. `Registry.dfy` has the class, whose ghost trace
records the state after every single change, and the functions that say which trace and result a
call has for any Docker and HTTP answers. `Handoff.dfy` proves what holds at every change,
`Exactness.dfy` what a failed call leaves behind, `Published.dfy` what a successful one has done and
who may change a route, `PreviewRuns.dfy` what holds over whole runs.

**The sparse overlay.** `Overlay.dfy` has the reader of Git's NUL-delimited change list and a
printer for it; `Workspace.dfy` the server's preparation, the copy, the sequence that
`run_worktrees` makes of them, and the proof that together they rebuild the worktree.
`Paths.dfy` has path validation and exclusion patterns.

**The route file.** `Json.dfy` has the strings of section 7 of RFC 8259, unsigned numbers and
flat objects, printer and reader, over code points including surrogates; `Route.dfy` the
validated route, its text and its reader; `Gateway.dfy` says what the file tells Traefik and a JSON
reader.

`Order.dfy` has the order of strings that tickets, aliases and routes are sorted by,
`Collections.dfy` and `Runs.dfy` what the other modules share.

## Hypotheses

They are `requires` clauses, guards of steps, or named predicates, never silent.

- *Slot files equal capacity* for exclusive isolation. `Capacity.ExclusiveAloneIff` proves that
  the claim holds exactly then; the constructor only ever adds slot files.
- *Suffix-free job ids* only where a job must find its own ticket (`Waiters.NoWaiterIsLost`).
  `Queue.ShortIdLosesPlace` shows the loss, `Queue.WriteAddsTicket` the exact condition. Permit
  safety, the FIFO order of admissions and removal on admission do not need it.
- *A clock that strictly rises below 10^20 nanoseconds* is the guard of `Enter`.
  `TicketNames.NamesMissortAtOverflow` shows why the bound matters.
- *One `wait` call per job* is the phase guard of `Enter`.
- *`transition` is atomic*, as its docstring says; it is a read, a check and a write without a lock.
  Commands that read a status first and call `transition` later are not atomic: their step may
  come at any later moment.
- *The pool has a store*, so supersession and staleness are active.
- *The operating system is an oracle* of the worker: `Worker.World` says which files can be written,
  which rounds of supervision raise and whether the command starts. Command-line strings are
  encoded as UTF-8 with escaped bytes, as Python does on Linux.
- *Docker and HTTP are oracles.* Abort safety assumes nothing about them. Exact rollback and the
  absence of leaks assume `Exactness.Reliable`, about the environment only: Docker commands
  succeed, an attached container has an address, and a request that is sent ends in a status or
  an `OSError`. Writing and unlinking a route file always succeeds (`Registry.Write` is total). What `http.client` does before it sends is part of the model (`Registry.Ask`): a
  path with a space or a control character raises an exception that is neither an `OSError` nor
  a `ValueError`, another character outside ASCII raises a `ValueError`. `isoformat` gives ASCII.
- *Git is an oracle*: its change list is any list of true entries (`Workspace.Fits`: what is printed
  as deleted or renamed away is missing, what is printed otherwise is tracked and present) that
  covers the missing and the changed paths, with renames and copies paired in any way.
- `fnmatchcase`, `urlsplit` and `fromisoformat` are parameters.

Where the code and its design document differ, the model follows the code: a waiter polls every
0.1 seconds, not every second, and tickets are ordered by file name.

## What turned out to have limits

- With more slot files than the configured capacity an exclusive job does not run alone.
- A job can be finalized while its worker waits: by a reconciliation that saw the unit inactive
  just before it was launched, or by a cancellation that acts on a status it read before the job
  was queued (`Capacity.StrandedWaiter` has both runs). The next poll then prunes the
  ticket, which is never rewritten, so the worker is never admitted and waits until a
  cancellation is requested for the final job. `Waiters.StrandedIff` gives the exact condition.
- A command line with a NUL character, or with a surrogate that is no escaped byte, passes
  validation, but `Popen` refuses it by a `ValueError` that the worker does not catch, after the
  transition to `running`. The lease is released and the record stays `running`; from then on the job
  never passes, and `execute` waits until another process gives it up. `Worker.Program.RunJob` has the
  exact condition for any environment, `Worker.ArgvDecides` for one in which nothing fails,
  `Worker.NulEscapes` an input. A log, a status or a disk reading that fails does the same.
- A slot name of more than 42 characters passes validation, but its alias is no identifier; and a
  check path such as `/a b` passes validation, but `http.client` refuses it by an exception that
  `publish` does not catch. Either way a container attached by the call stays attached
  (`Exactness.ExactRollback`, `PreviewRuns.LeaksExactly`, `PreviewRuns.SpacedPathLeaks`); with
  acceptable paths the configured slots decide (`PreviewRuns.ShortSlotsNeverLeak`).
- A route whose check path or timestamp holds a split surrogate pair does not read back as itself
  (`Route.RoundTrip`).

## Model

| member | source | states |
|---|---|---|
| Permits.RunningHoldsLease | src/trie_remote/job_worker.py:53-151 | in every reachable state a job past its transition to running holds no slot if light, one if heavy, as many as the capacity if exclusive |
| Permits.ConcurrencyBound | src/trie_remote/scheduler.py:257-276 | any set of jobs running heavy or exclusive commands is at most as large as the number of slot files |
| Permits.ExclusiveRunsAlone | src/trie_remote/scheduler.py:302-339 | with slot files equal to capacity, nothing heavy or exclusive runs beside an exclusive command |
| Permits.PermitStep | src/trie_remote/scheduler.py:181-189 | every step of every process keeps the invariant between worker phases, queue lock and slot locks |
| Capacity.ExclusiveAloneIff | src/trie_remote/scheduler.py:178-179 | an exclusive command runs alone in every run if and only if there are exactly capacity slot files |
| Capacity.HeavyJobsShare | src/trie_remote/scheduler.py:257-276 | the permits can all be used: up to the capacity any number of heavy jobs can run together |
| Capacity.StrandedWaiter | src/trie_remote/server_cli.py:64-88 | in every pool some run leaves a waiting worker without ticket, cancellation request or open record: a reconciliation or a cancellation acted on what it had read before the launch |
| Fifo.QueueStep | src/trie_remote/scheduler.py:204-236 | every step keeps the queue ordered by age, one ticket per job and session, and the admission log plus the queue a subsequence of the arrivals |
| FifoResults.AdmissionIsFifo | src/trie_remote/scheduler.py:320-338 | over whole runs the admission log is a subsequence of the arrival log, which has no duplicates |
| FifoResults.NoBypass | src/trie_remote/scheduler.py:329-338 | every admitted job arrived before every job still queued, so no later job passes an older exclusive ticket |
| FifoResults.PositionNeverRises | src/trie_remote/scheduler.py:247-255 | a ticket never moves back, and those ahead of it after a step are those ahead before that are still queued |
| Waiting.WaitIsBounded | src/trie_remote/scheduler.py:320-338 | over every continuation in which a ticket stays queued, whoever is admitted meanwhile was ahead of it at the start, and its position plus the number of these admissions is at most its position then |
| FifoResults.ListingIsSorted | src/trie_remote/scheduler.py:191-192 | the queue, in arrival order, is the directory listing sorted by file name |
| FifoResults.OneTicketPerSession | src/trie_remote/scheduler.py:283-300 | at most one queued ticket per identified session in every reachable state |
| FifoResults.OwnersHoldNothing | src/trie_remote/scheduler.py:329-338 | a ticket owner holds no slot and runs nothing unless it is being admitted under the queue lock |
| FifoResults.SupersessionSparesHolders | src/trie_remote/scheduler.py:283-300 | every job newly asked to cancel by an entering job owns a ticket of that session and holds no permit |
| FifoResults.RemovalOrphans | src/trie_remote/scheduler.py:247-255 | any removal of a ticket other than its owner's admission leaves the owner without ticket and outside the critical section |
| FifoResults.OrphanNeverRuns | src/trie_remote/scheduler.py:324-338 | over every continuation a job whose ticket is gone is never admitted and never runs its command |
| Waiters.NoWaiterIsLost | src/trie_remote/scheduler.py:320-338 | with suffix-free ids every waiting worker has its ticket, is asked to cancel, or is already final |
| Waiters.StrandedIff | src/trie_remote/scheduler.py:324-338 | with suffix-free ids, a waiting worker that was not asked to cancel is stranded by its next poll if and only if its job has already been finalized |
| Waiters.StrandedExactly | src/trie_remote/scheduler.py:324-338 | without any hypothesis on ids: stranded if and only if its job is final or its ticket was already gone |
| Waiters.SnapshotCounts | src/trie_remote/scheduler.py:366-391 | queued_jobs counts the queued jobs, exclusive_waiting says whether one of them asks for all permits, and a waiter is told its place among them, what it asks for and first the older waiters in their order |
| Waiters.SnapshotAgrees | src/trie_remote/scheduler.py:360-393 | held plus available is the capacity; a reported waiter has a ticket, and its blockers are exactly the older waiters and the current holders, without duplicates and never the job itself |
| Waiters.UnblockedIsAdmitted | src/trie_remote/scheduler.py:377-391 | an empty blocked_by means the job's own next poll, undisturbed, admits it |
| Waiters.HolderTextsNamed | src/trie_remote/scheduler.py:341-358 | the text read from a locked slot names its current holder |
| Polling.PollRefines | src/trie_remote/scheduler.py:324-338 | whatever slots other workers give up during the scan, by ending, failing or releasing, the imperative poll is a run of the step machine with the same directory, locks and outcome |
| Polling.PollIsSafe | src/trie_remote/scheduler.py:324-338 | what the imperative poll requires holds in every reachable state: a sorted listing, slot texts that name the holders, a waiter without slots |
| Polling.HeadPollDecides | src/trie_remote/scheduler.py:329-338 | the head's undisturbed poll admits it exactly when enough slots are free, otherwise every lock is as before |
| Polling.HeadCanBeAdmitted | src/trie_remote/scheduler.py:324-338 | no deadlock: from every reachable state, whatever permits are held, the others' ending and releasing steps and the head's own poll admit the live waiting head |
| Polling.PollClearsEnded | src/trie_remote/scheduler.py:238-255 | in every reachable state a poll told of every inactive job leaves a queue that is empty or holds only workers that wait or have stopped waiting |
| Polling.CrashedNeverBlocks | src/trie_remote/scheduler.py:324-338 | when only ended workers' tickets are ahead of a live waiter's, its own poll and the others' ending and releasing steps can admit it |
| Polling.IdlePoolAdmitsHead | src/trie_remote/scheduler.py:324-338 | with no permit held, the waiting head is admitted by its own next poll |
| Polling.QueueLockIsReturned | src/trie_remote/scheduler.py:181-189 | whoever holds the queue lock can give it back by its own steps alone |
| Sections.EnterPool | src/trie_remote/scheduler.py:320-323 | on files that show a reachable state, entering leaves them showing the state after the step `Enter` |
| Sections.LeaveQueue | src/trie_remote/scheduler.py:325-328 | the same for the removal on cancellation and the step `Withdraw` |
| Sections.ReportPool | src/trie_remote/scheduler.py:360-393 | a status report is the step `Snapshot` and reports the state it leaves |
| Sections.PollPool | src/trie_remote/scheduler.py:329-338 | the imperative poll leaves the files showing a state that own steps and others' releases reach; a lease it returns lists exactly the slots the job then holds |
| Sections.ReleasePool | src/trie_remote/scheduler.py:143-148 | giving a lease back is a run of the job's own release steps, after which the job holds nothing |
| Sections.MoveJob | src/trie_remote/job_store.py:190-198 | a call of `transition` does to the stored records what the machine's steps do |
| Sections.LeaseIsKept | src/trie_remote/job_worker.py:53-151 | over every continuation, from its grant to the start of its release a lease is the same set of slots |
| Slots.ScanAllOrNothing | src/trie_remote/scheduler.py:257-276 | under any concurrent releases a success adds exactly the requested distinct slots, free when taken; a failure leaves the job none; nothing is taken from others |
| Slots.QuietScan | src/trie_remote/scheduler.py:257-276 | without interference the scan succeeds exactly when enough slots are free, and a failure restores the locks |
| Slots.HoldersFit | src/trie_remote/scheduler.py:257-276 | jobs that each hold a slot are at most as many as the slots |
| ResourcePool.ResourcePool.TrySlots | src/trie_remote/scheduler.py:257-276 | the loop over slot files leaves exactly the locks and lease of the scan function for any interference |
| ResourcePool.ResourcePool.Poll | src/trie_remote/scheduler.py:329-338 | prune, head test, scan and ticket removal together; the new directory, locks and lease in full |
| ResourcePool.ResourcePool.Enter | src/trie_remote/scheduler.py:320-323 | prune, supersede and write under one lock; the new directory and the cancelled jobs in full |
| ResourcePool.ResourcePool.PruneStaleTickets | src/trie_remote/scheduler.py:238-255 | the loop leaves exactly the readable tickets whose owner is stored, not final and not reported inactive |
| ResourcePool.ResourcePool.SupersedeQueuedSession | src/trie_remote/scheduler.py:283-300 | the loop unlinks the session's other tickets and unreadable files, and cancels exactly the owners that are not stale |
| ResourcePool.ResourcePool.RemoveTicket | src/trie_remote/scheduler.py:278-281 | unlinks the first file whose name ends in the job's suffix |
| ResourcePool.ResourcePool.Release | src/trie_remote/scheduler.py:143-148 | every slot of the job is free afterwards and every other slot is as it was |
| ResourcePool.ResourcePool.SlotHolders | src/trie_remote/scheduler.py:341-358 | the texts of the locked slots in order, and the number of free ones |
| ResourcePool.ResourcePool.TakeSnapshot | src/trie_remote/scheduler.py:360-393 | prunes, then reports the pool as it is |
| Queue.PruneExactly | src/trie_remote/scheduler.py:238-255 | which tickets a prune leaves, in their order |
| Queue.SupersedeExactly | src/trie_remote/scheduler.py:283-300 | which tickets a supersession leaves, in their order |
| Queue.VictimsExactly | src/trie_remote/scheduler.py:294-299 | who is asked to cancel by it: the owners of the session's other readable tickets whose job is stored, open and not reported inactive |
| Queue.RemoveHead | src/trie_remote/scheduler.py:331-338 | removal on admission deletes exactly the head ticket, even when ids are suffixes of one another |
| Queue.WriteAddsTicket | src/trie_remote/scheduler.py:204-212 | a job gets a ticket exactly when no queued id equals its own or ends in a hyphen and it |
| Queue.ShortIdLosesPlace | src/trie_remote/scheduler.py:197-202 | job `b` gets no ticket behind job `a-b`, and its removal deletes the other job's ticket |
| Queue.InsertIsAppend | src/trie_remote/scheduler.py:191-214 | under a rising clock a new ticket sorts last |
| TicketNames.NamesSortByTime | src/trie_remote/scheduler.py:191-214 | file names compare as strings exactly as their times compare, below 10^20 |
| TicketNames.NamesMissortAtOverflow | src/trie_remote/scheduler.py:214 | from 10^20 on a later ticket can sort first |
| TicketNames.SuffixMatch | src/trie_remote/scheduler.py:197-202 | a file name matches a job's suffix exactly when its owner is that job or ends in a hyphen and that id |
| Lifecycle.PathShape | src/trie_remote/job_store.py:17-22 | at most three transitions, a final state is the last one, passed only through queued and running |
| Lifecycle.JobStore.Transition | src/trie_remote/job_store.py:190-198 | one record moves along the table with its details, or the call is refused and nothing changes |
| Lifecycle.JobStore.Create | src/trie_remote/job_store.py:158-171 | an existing job is refused; a new one starts preparing |
| Lifecycle.JobStore.Finish | src/trie_remote/job_store.py:200-205 | passed exactly for exit code zero, with the code recorded and all fields kept |
| JobHistory.LifecycleOverRuns | src/trie_remote/server_cli.py:117-177 | in every interleaving, late actions on an earlier status included: at most three transitions, passed means queued, running, code zero; failed means another code; the unit is kept |
| JobHistory.FinalAbsorbs | src/trie_remote/job_store.py:190-198 | no step of any process changes a final record |
| JobHistory.WorkerReturn | src/trie_remote/job_worker.py:60-151 | a returned worker's job is final, its lease empty, its code the recorded one |
| JobHistory.ExitCodesOverRuns | src/trie_remote/server_cli.py:117-177 | over every run the recorded code follows from the job's history: 0 passed, another code after running, 1 rejected or not set up, 130 cancelled while preparing, 130, 127 or none while queued |
| JobHistory.GivingUpSucceeds | src/trie_remote/server_cli.py:64-88 | a cancellation, rejection or reconciliation finalizes every open job with its code and changes no final one |
| JobHistory.StartSucceeds | src/trie_remote/server_cli.py:150-177 | starting succeeds exactly while the job is preparing and records its unit; a failed launch cancels without a code |
| JobHistory.ExecuteReportsOutcome | src/trie_remote/server_cli.py:192-210 | execute reports the recorded code of a final job: zero when passed, another when failed, 1 when cancelled without a code |
| JobHistory.AbandonedNeverPasses | src/trie_remote/job_worker.py:105-151 | a job whose worker has ended while it was running on record never passes: over every continuation it stays so until another process gives it up |
| Worker.Program.RunJob | src/trie_remote/job_worker.py:23-151 | whether it returns or raises, the job's slots are free and no other job's changed; if it returned, or was launched for a queued job and no exception escapes, the job is final; a returned code is the recorded one; undisturbed, a queued job is finalized if and only if no exception escapes, and otherwise stays running or queued: cancelled with 130 without a lease, failed with 1 without a setup, failed with 127 without a command, cancelled when stopped, else passed or failed with the command's own code; the store has followed a run of the machine up to the release |
| Worker.WorksReachable | src/trie_remote/job_worker.py:60-151 | what the program makes of a reachable state is reachable, so the whole-run results hold of it |
| Worker.Program.Supervise | src/trie_remote/job_worker.py:125-147 | stopped exactly when cancelled or out of disk before the command ends, raises exactly when a round before that raises; at most one warning line |
| Worker.Program.Work | src/trie_remote/job_worker.py:69-149 | setup, spawn and supervision branches each record their state and code, or let an exception escape, exactly as `Escapes` says |
| Worker.ArgvDecides | src/trie_remote/job_worker.py:107-124 | where files, disk readings and signals work, an exception escapes exactly a worker that comes to start a command line with a string `Popen` cannot pass on |
| Worker.NulEscapes | src/trie_remote/job_store.py:79-82 | the command line `echo` with a NUL character or a lone surrogate is accepted, and an exception escapes its worker; not with an escaped byte |
| Handoff.PublishBacked | src/trie_remote/preview_registry.py:364-415 | after every change of publish, for any answers, every route on disk names a container attached under its alias |
| Handoff.UnpublishBacked | src/trie_remote/preview_registry.py:428-435 | the same for unpublish |
| Handoff.AbortSafety | src/trie_remote/preview_registry.py:300-314 | over any run of calls, each cut short anywhere, every route on disk stays backed |
| Handoff.PublishWhole | src/trie_remote/preview_registry.py:402-412 | at every change the slot's file is the old one or the candidate's, and no other file differs |
| Handoff.UnpublishWhole | src/trie_remote/preview_registry.py:429-433 | at every change the slot's file is the old text or absent |
| Handoff.CandidateUnreferenced | src/trie_remote/preview_registry.py:410-411 | a container that was not attached is named by no earlier route |
| Handoff.RouteCodecFaithful | src/trie_remote/preview.py:225-261 | the route format reads back what it prints and accepts nothing else |
| Exactness.ExactRollback | src/trie_remote/preview_registry.py:398-412 | a failed publish leaves routes and attachments exactly as before, if and only if it did not attach a container for a slot longer than 42 characters or a check path that `http.client` refuses |
| Exactness.StrandedAttachment | src/trie_remote/preview_registry.py:364-412 | such a publish fails after the attachment and leaves it behind, named by no route |
| Exactness.PublishOutcome | src/trie_remote/preview_registry.py:330-415 | a reliable publish does nothing but the attachment it strands, returns the unchanged preview, or settles one slot and detaches the replaced container once unused |
| Exactness.UnpublishRestores | src/trie_remote/preview_registry.py:417-435 | a failed unpublish leaves everything exactly as before; a successful one removes one route and its unused attachment |
| Exactness.AliasIdentifier | src/trie_remote/preview_registry.py:215 | the alias is an identifier exactly for slots of at most 42 characters |
| Published.PublishedAsAsked | src/trie_remote/preview_registry.py:330-415 | in any environment, a successful publish returns the route that the slot's file then reads as, with the job, slot, project, service, port and path of the call, the container found and the hostname and repository configured; either the file already said so, or both checks passed |
| Published.PublishWorks | src/trie_remote/preview_registry.py:330-415 | a well-formed request of a job that reserved the repository and owns the project, whose checks pass, succeeds |
| Published.OnlyOwnersUnpublish | src/trie_remote/preview_registry.py:422-427 | for any job but the owner, and where no route is, unpublish fails and changes nothing |
| Published.UnpublishIff | src/trie_remote/preview_registry.py:417-435 | a reliable unpublish succeeds exactly for a route of the calling job whose hostname answers 404 in time, and then the slot has no route |
| Published.RouteIsSafe | src/trie_remote/preview_registry.py:417-427 | over any run of calls, cut short anywhere, a route changes only by a publish for its slot or an unpublish by its owner |
| Published.RollbackWaits | src/trie_remote/preview_registry.py:406-412 | a failed check is reported as such only after the previous route was asked for without an exception |
| Published.DockerDecides | src/trie_remote/preview_registry.py:236-245 | without a working connect nothing is attached, without a working disconnect nothing is detached, at any change |
| Published.ReplacedIsDetached | src/trie_remote/preview_registry.py:413-414 | after a successful change the slot's former container is attached only if it still serves the slot or another route names it |
| PreviewRuns.NothingLeaks | src/trie_remote/preview_registry.py:316-328 | in every run in which no publish strands, the attached containers are exactly those some active route names |
| PreviewRuns.LeaksExactly | src/trie_remote/preview_registry.py:398-412 | a reliable publish keeps routes and attachments in step if and only if it does not strand |
| PreviewRuns.ShortSlotsNeverLeak | src/trie_remote/preview_registry.py:398-412 | no run of calls with acceptable check paths leaks if and only if every slot that can be served has at most 42 characters |
| PreviewRuns.SpacedPathLeaks | src/trie_remote/preview.py:44-58 | the check path `/a b`, or one with a control character, passes validation when `urlsplit` finds a bare path, and publishing a new container with it leaks the attachment |
| PreviewRuns.RoutesAreOwned | src/trie_remote/preview_registry.py:108-124 | no two active routes share a hostname, and each has the configured hostname and repository of its slot, which its job reserved |
| PreviewRuns.AliasesUnique | src/trie_remote/preview_registry.py:209-253 | containers that share a preview alias have the same twelve-character prefix |
| PreviewRuns.AliasInjective | src/trie_remote/preview_registry.py:215 | the alias determines slot and prefix |
| PreviewRuns.ActualSetup | src/trie_remote/preview.py:140-150 | the setup hypotheses hold of the actual route format and every validated configuration |
| Registry.PreviewRegistry.Publish | src/trie_remote/preview_registry.py:330-415 | passes through exactly the states of `PublishEffect` and ends with its result, of which `Published`, `Exactness` and `Handoff` say what they mean |
| Registry.PreviewRegistry.Unpublish | src/trie_remote/preview_registry.py:417-435 | the same for `UnpublishEffect` |
| Registry.PreviewRegistry.DisconnectIfUnused | src/trie_remote/preview_registry.py:316-328 | detaches only after reading every route and finding none that names the container |
| Registry.PreviewRegistry.Connect | src/trie_remote/preview_registry.py:209-253 | reuses an attachment with its own or its least preview alias, or attaches under a new one |
| Registry.PreviewRegistry.LoadRoutes | src/trie_remote/preview_registry.py:108-124 | all routes on disk in the order of their slots, or nothing as soon as one file does not match its name or the configuration |
| Registry.PreviewRegistry.AssertCleanupAllowed | src/trie_remote/preview_registry.py:437-445 | cleanup is allowed exactly when the job owns no route, or no gateway is installed |
| Registry.PreviewRegistry.GatewayStatus | src/trie_remote/preview_registry.py:268-280 | the retry loop gives the verdict of the attempt function |
| Registry.PreviewRegistry.WaitForStatus | src/trie_remote/preview_registry.py:282-298 | the same for the waiting loop |
| Registry.GatewayVerdict | src/trie_remote/preview_registry.py:268-280 | the gateway check passes exactly when a status from 200 to 399 arrives within 20 attempts, preceded only by connection failures and statuses below 500 |
| Registry.WaitVerdict | src/trie_remote/preview_registry.py:282-298 | waiting succeeds exactly when an expected status arrives within the attempts |
| Registry.LeastPreviewIsLeast | src/trie_remote/preview_registry.py:221-230 | the reused alias is the least preview alias in code point order, if there is one |
| Route.RoundTrip | src/trie_remote/preview.py:225-261 | a valid route reads back as itself if and only if neither free-form field holds a split surrogate pair |
| Route.AcceptedTexts | src/trie_remote/preview.py:246-261 | the accepted texts are exactly the rendered valid routes, so rendering again reproduces the file |
| Route.ParseRendered | src/trie_remote/preview.py:246-261 | any rendered valid route reads as the route with its pairs joined |
| Route.RenderAscii | src/trie_remote/preview.py:225-243 | a rendered route is ASCII, so its UTF-8 bytes are its characters |
| Route.BodyDetermines | src/trie_remote/preview.py:231-242 | two valid routes have the same Traefik configuration exactly when slot, hostname, alias and port agree |
| Route.ValidatedSlots | src/trie_remote/preview.py:140-150 | fails exactly when two slots share a name or hostname, otherwise holds exactly the given slots |
| Gateway.RoutesItsHost | src/trie_remote/preview.py:225-243 | read as a configuration, a route file sends exactly the requests at entry point `web` for the route's hostname to the route's alias and port |
| Gateway.FieldsAreNamed | src/trie_remote/preview.py:227 | a JSON reader finds every field in the metadata under its own name |
| Gateway.IdentifiersArePlain | src/trie_remote/common.py:9-18 | an identifier is up to 63 lower-case letters, digits and hyphens, not starting with a hyphen, hence one component of a path and of a host name |
| Gateway.StandardEscapes | src/trie_remote/preview.py:227 | the escapes are those of JSON, with lower-case digits and surrogate pairs |
| Json.DecodeEncode | src/trie_remote/preview.py:227 | reading an escaped string gives it back with surrogate pairs joined, and the rest of the text |
| Json.JoinIdentity | src/trie_remote/preview.py:227 | joining changes a string exactly when it holds a split surrogate pair |
| Json.ReadPrintedMembers | src/trie_remote/preview.py:252 | reading a printed flat object gives its members back, in order |
| Overlay.ReaderUndoesPrinter | src/trie_remote/overlay.py:81-119 | for every printed change list the reader consumes the stream and yields exactly the denoted sets, or fails exactly on an invalid or submodule path |
| Overlay.DiscoverOverlay | src/trie_remote/overlay.py:68-133 | the index loop and the untracked loop compute `Discover`, whose result `Workspace.ManifestOf` and `Workspace.EntriesAreFollowed` characterise |
| Overlay.ReadAt | src/trie_remote/overlay.py:85-103 | one round of the index loop reads one change and advances past it |
| Workspace.OverlayPreservesMeaning | src/trie_remote/overlay.py:68-133 | whatever Git prints, mode-only changes included, a successful discovery makes the server rebuild the worktree outside exclusions and the commit inside them, and its deletions cannot fail |
| Workspace.EntriesAreFollowed | src/trie_remote/overlay.py:107-119 | every rename deletes its old path and transfers its new one, every copy only transfers, every deletion deletes, unless excluded |
| Workspace.AnyPairingIsDescribed | src/trie_remote/overlay.py:73-80 | for every worktree and any pairing of missing with new tracked paths there is a list with exactly these renames, and its discovery succeeds exactly when the paths are valid and none is a submodule |
| Workspace.RebuildIsExact | src/trie_remote/local_cli.py:218-229 | prepare then sync gives the expected tree, even when a path is in both sets |
| Workspace.OrderMatters | src/trie_remote/local_cli.py:225-229 | deleting after the transfer gives the same tree exactly when the sets are disjoint |
| Workspace.ManifestOf | src/trie_remote/overlay.py:68-133 | the manifest deletes exactly the missing paths, transfers every changed or untracked one and otherwise only tracked ones; discovery fails exactly on an invalid or submodule path |
| Workspace.Server.PrepareAll | src/trie_remote/server_workspace.py:140-163 | every role is reset to its repository's commit without its deletions, or the call fails, exactly when a commit is missing, a path is not the reserved one or a deletion is refused; other workspaces are untouched |
| Workspace.Server.RunWorktrees | src/trie_remote/local_cli.py:191-253 | discovery, reservation, pushes, preparation and copies in sequence: it submits exactly when each of them succeeds for every role and every workspace is where it was reserved, and then every workspace is its local worktree; later failures withdraw the reserved job; no workspace is touched before every commit is pushed |
| Workspace.Server.ReservedAsPrepared | src/trie_remote/local_cli.py:187-211 | each role of a submitted job has the repository of its worktree, and its reserved path is the server's exactly when both mean the same root |
| Workspace.Server.PathsAreSeparate | src/trie_remote/server_workspace.py:105-108 | no two repositories, jobs or roles share a workspace path |
| Workspace.Server.RoleIsRebuilt | src/trie_remote/local_cli.py:225-229 | the prepared and synchronized workspace of one role is its local worktree |
| Workspace.Server.DeleteAll | src/trie_remote/overlay.py:136-148 | removes exactly the listed files, and fails exactly when a path is invalid or a directory |
| Workspace.DeletableExactly | src/trie_remote/overlay.py:139-148 | a deletion is refused exactly for an invalid path or one below which the tree holds a file |
| Paths.ValidStaysBelow | src/trie_remote/overlay.py:12-26 | a path is valid exactly when it has no NUL or line break and walking along it passes through exactly its own components |
| Paths.PatternKinds | src/trie_remote/overlay.py:38-51 | patterns with an inner slash match whole paths, and with a final slash everything below; others match any component |
| Paths.ExcludedSubtree | src/trie_remote/overlay.py:38-51 | a pattern without an inner slash excludes everything below what it excludes |

## Left out

- Registry.PreviewRegistry.LoadRoutes: a route path that is a symbolic link is modelled as a file that cannot be parsed, because every caller refuses both.
- Registry.PreviewRegistry.Publish: unreadable gateway settings, and the look-ups behind project ownership and container health, which are answers of the environment here.
- Route.AcceptedTexts: the reader accepts white space, any key order and repeated keys, but not nested values, other literals or signed and fractional numbers; metadata with those is refused by the program as well, by type checks or because it does not render to itself.
- Worker.Program.RunJob: log texts, the environment and builder, signals and their timeouts; the log holds only the kinds of the worker's own lines. A `wait` that raises anything but its cancellation is the machine's step `Crash`.
- Overlay.DiscoverOverlay: the manifest's sets are not sorted into tuples, and bytes are decoded one to one.
- Workspace.Server.DeleteAll: symbolic links, and so escapes through them, and file modes; workspaces are flat maps from paths to contents.
- Workspace.Server.RunWorktrees: the older protocol without a reservation of paths, what the server checks in a reservation, and what happens after the copy.
- Workspace.ManifestOf: unmerged entries, which Git prints in the middle of a merge.
- Workspace.RebuildIsExact: the remote copy tool is taken to copy exactly the listed files; its own exclude filter and unsafe links are not modelled.
- ResourcePool.ResourcePool.PruneStaleTickets: pools without a store.
- Permits.RunningHoldsLease: commands that outlive a worker that crashed or raised; systemd stops them with the unit.
- JobHistory.LifecycleOverRuns: timestamps and reasons are not recorded, and removal of job directories is not modelled.
- The slot scan apart, each critical section of the pool is one step; the kernel lock makes them so.
- Wall-clock time: sleep lengths and 20-second deadlines. Attempt counts are kept.
- `HeavyJobLease`, which the worker does not use, and the thresholds of `DiskGuard`, which appears as an answer of the environment.
- SSH, rsync, Docker, systemd and argument parsing, installers and gateway assets.
- `docker_policy.py`, `port_policy.py` and `config.py`: independent field checks.
- Global uniqueness of Compose resource names, delivery of the log's tail by `execute`, exactness of `exclusive_waiting` at capacity one, and atomicity of cleanup with its preview guard: the code does not promise them.
