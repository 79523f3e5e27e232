# A verified model of the job queue, the crawl frontier and the launch assessments

This project models the parts of the repository whose correctness is hardest to see by reading one function, and proves
what they promise. `dafny verify dfyconfig.toml` checks all of it.

**The leased job queue.** `QueueSpec` is the scheduler as a value, with one function per atomic section: the code that runs
between two awaits. `JobQueueClass.JobQueue` is the same scheduler as a class that changes its fields in place, each method
proved to do what its section says. `QueueRuns` lets the sections happen in any order, with any answers from the store, the
handler, the policy and the callers; `QueueInvariant` is what every section keeps, and `QueueHistory` is how a job may change.
`QueueTheorems`, `QueueService`, `QueueDrain`, `QueueClose`, `QueueClosing`, `QueueBeats`, `QueueRenewals`, `QueueLosses` and
`QueueDelays` draw the conclusions about every reachable queue, `QueueOutcomes` says what each answer comes to for the job it is
about, `QueueArrivals` how jobs come in and wait, and `QueueSurprises` holds short runs that show what is not promised.

**The stores.** `LeaseStore` is the in-memory store as a value, `MemoryStore.MemoryJobStore` the class over two shared maps,
`LeaseLaws` what it promises across calls and owners. `PostgresStore` is the table-backed store as guarded updates of rows.
`PostgresLaws` proves it the same store, call for call, with a lease one clock tick longer, except that its renewal never takes
a row from another owner.

**Both together.** `Protocol` runs any number of queues against one store. A write reaches the store at one moment and is
answered at a later one, or fails before or after it lands; renewals, adoptions and loads likewise; workers start and crash, and
what a worker had asked for may land after it has crashed. `ProtocolSafety` proves that the rows keep each lane to one owner if
renewals are on time, that no two workers with live claims run handlers in one lane if moreover none is handed back a job it still
has under way, and that no accepted job is lost. `ProtocolSurprises` shows in whole runs why the second condition is needed.

**The crawl.** `Frontier` is the two-lane frontier and its loop, `SitemapLoader` the round-robin loading of sitemaps, `Sitemap`
the event machine that reads one, `SitemapTree` the element tree it reads the same as and `SitemapFields` which element each field
comes from, `Robots` the rule selection and `RobotsText` the reading of the file.

**The assessments.** `Readiness`, `Review` and `Cutover` are the two launch assessments and the reading of the review log, over the
vocabulary in `Assessment`. `ReviewReadings` and `CutoverDecisions` say exactly when each reading and each decision is given, in
terms of what is recorded.

## What the code does otherwise than it says

Each of these is a lemma here; the code was followed.

- `queue.ts:972-975` says a slot is freed before the policy is asked so that no job waits behind one that is no longer doing
  anything. It is freed, but nothing is pumped until the policy answers, so a job can be left waiting for nothing
  (`QueueService.ThrowStrands`, with the exact condition; `QueueSurprises.ThrowLeavesStranded` is a run that does it). Outside that
  window no job is stranded (`QueueService.NoneStranded`).
- `queue.ts:702-703` says renewals cannot stack. They do exactly when a beat fires with something held while an earlier renewal is
  unanswered (`QueueRenewals.RenewalsStackExactly`); the timer it needs is set again, while a beat is unanswered, by exactly the
  sections that attend to the timers (`QueueRenewals.ArmedExactly`). `QueueSurprises.RenewalsStack` is a run that does it.
- A renewal that loses the last job leaves an idle queue with unresolved `drain` waiters until the adoption that follows is
  answered (`QueueDrain.StepTells` says exactly when, `QueueSurprises.DrainLeftWaiting` is a run that does it).
- A claim lost while the retry policy is deciding does not stop the retry. The job goes back in line exactly when the policy was
  really asked, answers with a delay and no one has cancelled the job since (`QueueLosses.LostReturnsExactly`); its handler is
  then called at most once more, with an aborted signal, and in every other case never again (`QueueLosses.LostCalledOnlyIfReturned`,
  `QueueTheorems.LostGoesSilent`). `QueueSurprises.LostJobRunsOnceMore` is a run that does it.
- A retry decision, an adoption or a recovery in flight at `close` can put jobs in the line of a closed queue, where nothing will
  start them (`QueueClose.StepRests` says exactly which replies do, `QueueClose.ClosedStartsNothing` that none starts, and
  `QueueSurprises.CloseLeavesLine` is a run that does it).
- `recover` marks the queue recovered before its load is answered. If the load throws, nothing is armed, and a new worker that
  would adopt watches for nothing (`QueueBeats.FailedRecoveryWatchesNothing`). A queue that may adopt watches exactly when it has had
  work, or has recovered or been resumed (`QueueBeats.WatchesExactly`; `QueueRenewals.StepBeats` says when the timer is set).
- A job the store hands over is dropped when the queue remembers its id, though the store has claimed it for this owner
  (`QueueOutcomes.RestoresAsLeft`). The claim is then neither renewed nor adopted again by this worker
  (`ProtocolSurprises.HandedBackAndDropped` is a run): from the store as it stands, only another worker can take the job on.
- `renew` accepts the caller's own lapsed claim, so lane exclusion across workers needs beats that outrun the lease, as
  `postgres.ts:45-48` asks (`LeaseLaws.RenewKeepsLanesExactly` says exactly which renewals break a lane,
  `LeaseLaws.LateRenewalBreaksLanes` is one that does). For the rows that is enough (`ProtocolSafety.RowsKeepLanes`). For
  the handlers it is not: a worker handed back a job it is still running ends with two handlers in one lane
  (`ProtocolSurprises.HandedBackBreaksLanes`, in which no renewal lands at all).
- At exactly `leaseMs` the in-memory store calls a claim expired and the table calls it live (`PostgresLaws.BoundaryDiffers`),
  and the two `renew`s disagree about lapsed claims of other owners (`PostgresLaws.RenewAgrees`).
- `sitemap.ts:81-87` says the entry a cut severs is dropped. Its videos and its news are, but each `loc` of it that had closed
  stays in `urls` (`SitemapTree.SeveredLocsStay`).
- A news field that holds another news field is read as a container and its own text is lost
  (`SitemapTree.NestedFieldLosesItsText`); where no field directly holds another a whole document reads plainly
  (`SitemapTree.DocumentReadsPlainly`).

## Model

| member | source | states |
|---|---|---|
| `QueueTheorems.SlotsAndLanes` | packages/queue/src/queue.ts:668-679 | In every reachable state the running and starting jobs fit the slots, no two of them share a lane, and the busy lanes are exactly theirs |
| `QueueTheorems.OnePlace` | packages/queue/src/queue.ts:1079-1085 | Every unfinished job is remembered and in exactly one of queued, starting, running or awaiting a retry decision; finished ones are remembered within the limit |
| `QueueTheorems.IdleMeansWritten` | packages/queue/src/queue.ts:301-313 | An idle queue has settled every job and has no store write unanswered |
| `QueueTheorems.EndsOnce` | packages/queue/src/queue.ts:1054-1077 | A job that has ended stays as it ended, whatever happens next |
| `QueueTheorems.LostGoesSilent` | packages/queue/src/queue.ts:786-809 | After a claim is lost nothing more is written for the job, it never completes, the policy is not asked again, its signal is aborted, and its handler is called at most once more, and not at all unless it was in line or being decided |
| `QueueTheorems.CancelWins` | packages/queue/src/queue.ts:1000-1004 | From the moment a running job is cancelled its handler is not called again, it does not go back in line, and it ends cancelled, or failed if its claim was lost |
| `QueueTheorems.RetriesEnd` | packages/queue/src/queue.ts:1018-1052 | Under a backoff policy a job gets at most max(1, maxAttempts - a) handler calls in the process it entered with attempt a |
| `QueueRuns.StepInv` | packages/queue/src/queue.ts:231-256 | Every atomic section keeps the representation invariant: places, slots, lanes, history, chained writes and their count |
| `QueueRuns.RunInv` | packages/queue/src/queue.ts:231-256 | Every queue any run reaches satisfies the representation invariant |
| `QueueHistory.StepGrows` | packages/queue/src/queue.ts:529-562 | In any section no write leaves its chain but the one answered, and no job starts in a shared lane but the one granted it |
| `QueueHistory.RunAges` | packages/queue/src/queue.ts:1054-1077 | Over any run ended jobs stay ended, attempts never fall, and lost claims are never regained or written under |
| `QueueService.TakesFirst` | packages/queue/src/queue.ts:838-856 | The scan takes a job exactly when it is the highest-priority eligible one, earliest among equals, and none exactly when none is eligible |
| `QueueService.PumpStrandsNothing` | packages/queue/src/queue.ts:660-679 | After a pump of an open, unpaused queue the slots are full or each queued job is still being written, or its lane is busy, or it is due after the one clock reading with the timer set no later |
| `QueueService.NoneStranded` | packages/queue/src/queue.ts:811-836 | Between sections too no job is stranded, in every reachable open, unpaused state with no retry decision outstanding |
| `QueueService.ThrowStrands` | packages/queue/src/queue.ts:972-1016 | A handler that throws leaves a job stranded exactly when the job was waiting only for that slot and that lane |
| `QueueBeats.HeartbeatNeverStops` | packages/queue/src/queue.ts:698-725 | In every reachable open queue that can renew, while it holds a claim, or may adopt and has had work, recovered or been resumed, a beat is armed or being answered |
| `QueueBeats.FailedRecoveryWatchesNothing` | packages/queue/src/queue.ts:380-390 | A recovery whose load throws leaves the queue marked recovered with no beat armed |
| `QueueBeats.WatchesExactly` | packages/queue/src/queue.ts:380-390 | In every reachable open, unpaused queue that could take over abandoned work, a beat is armed or being answered exactly when the queue has had a job, or has recovered or been resumed |
| `QueueRenewals.RenewalsStackExactly` | packages/queue/src/queue.ts:698-750 | From any reachable queue with no two renewals in flight, a section leaves two exactly when it is a beat that fires with something held while a renewal is unanswered |
| `QueueRenewals.ArmedExactly` | packages/queue/src/queue.ts:712-725 | While a beat is unanswered, a section sets the unset timer exactly when it is one that attends to the timers and there is a use for another beat |
| `QueueRenewals.StepBeats` | packages/queue/src/queue.ts:712-784 | For every section: which beats are in flight after it, what is awaiting a retry decision, and whether the timer is set |
| `QueueRenewals.BeatAsks` | packages/queue/src/queue.ts:688-747 | In any reachable queue a firing beat asks about every unfinished job whose row is stored, and no other |
| `QueueLosses.LostReturnsExactly` | packages/queue/src/queue.ts:994-1013 | When the policy answers about a lost job, the job goes on exactly when the policy was asked, answered a delay and no one has cancelled it; otherwise it has ended and its handler is never called again |
| `QueueLosses.LostCalledOnlyIfReturned` | packages/queue/src/queue.ts:994-1013 | Over any run a job lost during its decision has its handler called again only if an answer of the run returned it, and at most once |
| `QueueLosses.RenewalStandsDown` | packages/queue/src/queue.ts:736-809 | Each unfinished job a renewal's answer names is stood down from: in line or asking for its lane it fails with that reason, anywhere else it is signalled where it is, and nothing is written for it |
| `QueueLosses.RefusedWriteStandsDown` | packages/queue/src/queue.ts:548-562 | A write refused because the lease is gone stands the queue down from its job in the same way |
| `QueueLosses.RefusedClaimStandsDown` | packages/queue/src/queue.ts:912-929 | So does a lane claim refused because the lease is gone: the job fails where it was asking, and its slot is given back |
| `QueueDelays.NeverEarly` | packages/queue/src/queue.ts:1042-1052 | Over any run whose clock readings come before a queued job is due, its handler is not called nor its lane asked for: it stays in line or ends there |
| `QueueOutcomes.HeldBack` | packages/queue/src/queue.ts:838-856 | A pump leaves a job whose first write, lane or delay holds it back in line exactly as it was |
| `QueueOutcomes.HandlerSettles` | packages/queue/src/queue.ts:972-1016 | How a job ends when its handler comes back: lost, then cancelled, then complete, its row removed unless lost; only a throw goes to the policy |
| `QueueOutcomes.PolicyEnds` | packages/queue/src/queue.ts:999-1008 | A policy answer that is no retry ends the job in no place: cancelled if that was asked for, else failed with the handler's own reason, attempts as they were, its row removed if still this process's |
| `QueueOutcomes.CancelSettles` | packages/queue/src/queue.ts:580-597 | A cancellation ends a job in line or asking for its lane at once, signals a running or undecided one where it is, and does nothing about any other |
| `QueueOutcomes.GrantRuns` | packages/queue/src/queue.ts:899-938 | A granted lane claim leaves the job running on one more attempt, in the lane it asked for, under the very row the claim wrote, with nothing more to write |
| `QueueOutcomes.SettleRemembers` | packages/queue/src/queue.ts:1079-1085 | Ending a job puts it last in the history, which drops the oldest past its limit and forgets exactly those |
| `QueueOutcomes.RefusalCostsNothing` | packages/queue/src/queue.ts:912-938 | A refused or failed lane claim puts the job back in line, attempts as they were, due a heartbeat later; with no heartbeat to wait it may be begun on at once |
| `QueueOutcomes.RetryWaits` | packages/queue/src/queue.ts:1042-1052 | A retried job is in line, attempts as they were, due its whole delay after the answer, its row to be saved so; with no delay it may be begun on at once |
| `QueueOutcomes.RestoresAsLeft` | packages/queue/src/queue.ts:399-421 | A job handed over joins the line exactly when its id is not remembered, as it was left and waiting out what is left of its backoff; one remembered is dropped |
| `QueueOutcomes.UnwrittenNeverRuns` | packages/queue/src/queue.ts:498-527 | A job whose first write fails ends failed with that reason, out of every place, never having started |
| `QueueArrivals.EntersAsGiven` | packages/queue/src/queue.ts:328-357 | A job submitted is there with the payload, lane, priority and age it was submitted with, new, behind every job in line before it, its first write chained if there is a store, and not begun on until that is answered |
| `QueueArrivals.PumpKeepsOrder` | packages/queue/src/queue.ts:843-856 | Starting jobs takes them out of the line and moves no other |
| `QueueArrivals.EachArrives` | packages/queue/src/queue.ts:380-421 | Every new job of a batch recovered or adopted is in line as it was left, or begun on |
| `QueueArrivals.ComesBack` | packages/queue/src/queue.ts:399-437 | A job written down in line and handed over later comes back with the same payload, priority, age, attempts and error, waiting out the same moment, in the lane the revival rule gives it |
| `QueueDrain.StepTells` | packages/queue/src/queue.ts:736-750 | A section leaves an idle queue with waiters exactly when it is a renewal's reply on a queue that goes on to adopt, and all that kept the queue from being idle is jobs in line that the reply names and that were not lost before |
| `QueueDrain.WaitersTold` | packages/queue/src/queue.ts:1087-1091 | An idle queue has no unresolved waiter unless an adoption is still being answered |
| `QueueClose.ClosedStartsNothing` | packages/queue/src/queue.ts:637-658 | After a close, whatever happens, no job starts, no handler is called again and no attempt count moves |
| `QueueClose.StepRests` | packages/queue/src/queue.ts:1025-1052 | A closed queue with an empty line gets a job back in it exactly when it hears of a retry or of stored jobs asked for earlier |
| `QueueClosing.CloseSettles` | packages/queue/src/queue.ts:641-658 | What a close does in any reachable queue: a job in line or asking for its lane is cancelled and in no line, a running one is signalled where it is, one over or being decided is left as it was; no timer is set; and the caller joins the waiters unless nothing was left to wait for |
| `QueueClosing.ClosedRunningEnds` | packages/queue/src/queue.ts:650-652 | A job running at the close is not called again nor put back in line, and ends cancelled, or failed if its claim was lost |
| `QueueSurprises.RenewalsStack` | packages/queue/src/queue.ts:698-725 | A run in which two renewals of one job are in flight at once |
| `QueueSurprises.DrainLeftWaiting` | packages/queue/src/queue.ts:736-750 | A run that leaves an idle queue with an unresolved waiter |
| `QueueSurprises.LostJobRunsOnceMore` | packages/queue/src/queue.ts:994-1013 | A run in which a job lost during its retry decision is run once more with an aborted signal |
| `QueueSurprises.ThrowLeavesStranded` | packages/queue/src/queue.ts:972-1016 | A run of one slot and two jobs in which the first throws, and the second could start at once but is left in line while the policy decides |
| `QueueSurprises.CloseLeavesLine` | packages/queue/src/queue.ts:380-390 | A run in which a load answered after a close leaves a job in the line of a closed queue |
| `JobQueueClass.JobQueue.Persist` | packages/queue/src/queue.ts:538-562 | Chains one write behind the job's own earlier ones and counts it, or is silent for a job not in the store or lost |
| `JobQueueClass.JobQueue.Remember` | packages/queue/src/queue.ts:1079-1085 | Adds one finished job and evicts the oldest past the limit |
| `JobQueueClass.JobQueue.Settle` | packages/queue/src/queue.ts:1054-1077 | Ends a job that has not ended, chains its removal and remembers it |
| `JobQueueClass.JobQueue.Take` | packages/queue/src/queue.ts:843-856 | Removes and returns the job `TakesFirst` describes, or nothing |
| `JobQueueClass.JobQueue.Pump` | packages/queue/src/queue.ts:668-679 | Fills the slots, then sets both timers and resolves waiters, with one clock reading |
| `JobQueueClass.JobQueue.ScheduleWake` | packages/queue/src/queue.ts:817-836 | Sets the wake timer to the earliest due moment after the clock reading, or clears it |
| `JobQueueClass.JobQueue.Held` | packages/queue/src/queue.ts:688-696 | Returns exactly the unfinished jobs the store has accepted and this queue has not lost |
| `JobQueueClass.JobQueue.ScheduleHeartbeat` | packages/queue/src/queue.ts:712-725 | Arms the heartbeat when there is something to renew or to watch for |
| `JobQueueClass.JobQueue.Enqueue` | packages/queue/src/queue.ts:328-357 | Refuses a closed queue and a known id without change; otherwise writes the job down and admits it held back until that lands |
| `JobQueueClass.JobQueue.CreateReply` | packages/queue/src/queue.ts:498-527 | A landed create makes the job eligible; a refused one fails it before it runs |
| `JobQueueClass.JobQueue.WriteReply` | packages/queue/src/queue.ts:548-561 | A refused write stands the queue down from the job; the count falls and idleness is checked |
| `JobQueueClass.JobQueue.Lose` | packages/queue/src/queue.ts:793-809 | A queued job fails, a running one is signalled, and a job already lost or ended is left alone |
| `JobQueueClass.JobQueue.Ask` | packages/queue/src/queue.ts:892-907 | Takes the slot and the lane and chains the claim of the job as it will be once running |
| `JobQueueClass.JobQueue.AcquireReply` | packages/queue/src/queue.ts:912-938 | Hands slot and lane over to the run when granted; otherwise gives both back and asks again a heartbeat later |
| `JobQueueClass.JobQueue.Begin` | packages/queue/src/queue.ts:940-957 | Starts the handler: one more attempt, its lane busy, the running row chained unless the claim already wrote it |
| `JobQueueClass.JobQueue.HandlerReturned` | packages/queue/src/queue.ts:972-998 | Frees slot and lane, then settles with a lost claim outranking a cancellation outranking success, or asks the policy |
| `JobQueueClass.JobQueue.PolicyReply` | packages/queue/src/queue.ts:999-1015 | Cancels, fails or requeues the job the policy answered for, then pumps |
| `JobQueueClass.JobQueue.Requeue` | packages/queue/src/queue.ts:1042-1052 | Puts the job back in line, due after its delay, and chains its row |
| `JobQueueClass.JobQueue.Cancel` | packages/queue/src/queue.ts:580-597 | Settles a queued job, signals a running one, and answers false exactly when the job is unknown or finished |
| `JobQueueClass.JobQueue.Pause` | packages/queue/src/queue.ts:614-616 | Starts nothing more until resumed, and changes nothing else |
| `JobQueueClass.JobQueue.Resume` | packages/queue/src/queue.ts:618-622 | Unpauses and pumps an open queue; refuses a closed one without change |
| `JobQueueClass.JobQueue.Drain` | packages/queue/src/queue.ts:630-635 | Answers at once when idle, else joins the waiters |
| `JobQueueClass.JobQueue.Close` | packages/queue/src/queue.ts:641-658 | Shuts the queue, cancels what is queued, asking and running, and waits |
| `JobQueueClass.JobQueue.BeatFired` | packages/queue/src/queue.ts:736-747 | Starts a renewal of everything held, or goes straight on to adopt |
| `JobQueueClass.JobQueue.RenewReply` | packages/queue/src/queue.ts:741-749 | Stands down from every job reported lost, then adopts or pumps |
| `JobQueueClass.JobQueue.Restore` | packages/queue/src/queue.ts:399-421 | Queues a stored job with its attempts and what is left of its backoff, unless it is already here |
| `JobQueueClass.JobQueue.AdoptReply` | packages/queue/src/queue.ts:775-784 | Restores each adopted job in turn, then pumps |
| `JobQueueClass.JobQueue.RecoverReply` | packages/queue/src/queue.ts:380-390 | Restores each loaded job in turn and starts watching |
| `JobQueueClass.JobQueue.RecoverFailed` | packages/queue/src/queue.ts:380-384 | Marks the queue recovered, and arranges nothing |
| `LeaseLaws.Fencing` | packages/queue/src/store.ts:243-330 | No call by one owner touches a row or a claim another holds live, hands it out, or reports a write to it as done |
| `LeaseLaws.BacklogDivided` | packages/queue/src/store.ts:255-267 | A job handed to one owner is not handed to another within the lease, whatever any owner does in between |
| `LeaseLaws.ClaimSurvives` | packages/queue/src/store.ts:243-253 | A claim stands through any calls by anyone inside its lease, unless its owner removes the row |
| `LeaseLaws.AdoptWritesBack` | packages/queue/src/store.ts:318-330 | `adopt` returns 25 rows or all there are, never an own claim, each row written back queued under a fresh claim and otherwise unchanged |
| `LeaseLaws.AdoptTakesOldest` | packages/queue/src/store.ts:320-323 | `adopt` lists no job twice, oldest first, and leaves no abandoned job older than one it takes |
| `LeaseLaws.AdoptDivides` | packages/queue/src/store.ts:318-330 | What one worker adopts leaves what every worker could adopt; everything else stays in it |
| `LeaseLaws.BacklogDrains` | packages/queue/src/store.ts:156-164 | Each adopting beat takes exactly a batch of a dead worker's backlog, until there is none |
| `LeaseLaws.LoadTakesFree` | packages/queue/src/store.ts:255-267 | `load` hands over each row no one else holds, once, as it was, oldest first, and no other |
| `LeaseLaws.LoadWritesBack` | packages/queue/src/store.ts:255-267 | What `load` hands over is written back queued under a fresh claim; no other row or claim changes |
| `LeaseLaws.SaveThenLoad` | packages/queue/src/store.ts:279-288 | A row just saved comes back from `load` as it was saved |
| `LeaseLaws.SaveWrites` | packages/queue/src/store.ts:279-288 | A save writes the row as given, a new one after all others, claimed from that moment, and touches no other; a job another holds live is left alone and its lease reported lost |
| `LeaseLaws.RemoveTakesAway` | packages/queue/src/store.ts:290-295 | A removal takes the row and its claim away, and nothing else, unless another holds it live |
| `LeaseLaws.AcquireGrants` | packages/queue/src/store.ts:269-277 | A lane claim is refused exactly when another worker runs a different job in the lane under a live claim, and otherwise is granted as a save would be |
| `LeaseLaws.RenewRefreshes` | packages/queue/src/store.ts:297-307 | A renewal refreshes each claim asked about that has a row within reach, reports each other one, and changes nothing else |
| `LeaseLaws.CallKeepsLanes` | packages/queue/src/store.ts:269-277 | Every call the queue makes keeps a lane's live running rows in one owner's name, if renewals are on time |
| `LeaseLaws.RenewKeepsLanesExactly` | packages/queue/src/store.ts:297-307 | From exclusive lanes a renewal leaves them exclusive exactly when it refreshes no running row whose lane another owner is running live by then |
| `LeaseLaws.LateRenewalBreaksLanes` | packages/queue/src/store.ts:297-307 | A renewal that lands after its claim lapsed leaves two owners running one lane |
| `LeaseStore.OldestSorts` | packages/queue/src/store.ts:256-258 | The listing is a permutation, oldest first, with ties left in the order they stood |
| `LeaseStore.RenewReports` | packages/queue/src/store.ts:297-307 | `renew` returns exactly the given ids that are missing or held elsewhere, in order |
| `MemoryStore.MemoryJobStore.WithOwner` | packages/queue/src/store.ts:234-241 | A second handle shares the same rows and claims and speaks for another worker |
| `MemoryStore.MemoryJobStore.Load` | packages/queue/src/store.ts:255-267 | Claims and requeues in place every row no one else holds, and returns the rows as they were, oldest first |
| `MemoryStore.MemoryJobStore.Acquire` | packages/queue/src/store.ts:269-277 | Refuses exactly when another live worker runs a different job in the lane; otherwise saves |
| `MemoryStore.MemoryJobStore.Save` | packages/queue/src/store.ts:279-288 | Writes and claims the row, or reports the lease lost and changes nothing |
| `MemoryStore.MemoryJobStore.Remove` | packages/queue/src/store.ts:290-295 | Deletes row and claim unless another holds it |
| `MemoryStore.MemoryJobStore.Renew` | packages/queue/src/store.ts:297-307 | Refreshes in place every claim it may, and lists the rest |
| `MemoryStore.MemoryJobStore.Adopt` | packages/queue/src/store.ts:318-330 | Claims and requeues in place the oldest abandoned rows, and returns them as written |
| `PostgresStore.PostgresJobStore.Save` | packages/job-store/src/postgres.ts:362-409 | The upsert lands on a free or claimable row only, keeps its enqueue time, and otherwise reports the lease lost |
| `PostgresStore.PostgresJobStore.Acquire` | packages/job-store/src/postgres.ts:327-359 | Refuses while another live claim runs the lane in this namespace; otherwise upserts |
| `PostgresStore.PostgresJobStore.Remove` | packages/job-store/src/postgres.ts:418-429 | Deletes the row only when claimable |
| `PostgresStore.PostgresJobStore.Renew` | packages/job-store/src/postgres.ts:441-458 | Refreshes the rows in this owner's name and lists the rest |
| `PostgresStore.PostgresJobStore.Load` | packages/job-store/src/postgres.ts:171-222 | Stamps and requeues every claimable outstanding row and returns the rows as read, oldest first |
| `PostgresStore.PostgresJobStore.Adopt` | packages/job-store/src/postgres.ts:240-295 | Stamps and requeues the oldest abandoned rows, up to a batch |
| `PostgresLaws.BoundaryDiffers` | packages/job-store/src/postgres.ts:148-156 | With one lease the two stores disagree about a claim exactly when it is another's and exactly `leaseMs` old |
| `PostgresLaws.TableWrites` | packages/job-store/src/postgres.ts:362-409 | A write stamps its row with this owner and moment and keeps the age of one already there, unless that is stamped by someone else within the lease |
| `PostgresLaws.TableListings` | packages/job-store/src/postgres.ts:171-295 | A load lists exactly the namespace's queued and running rows not held elsewhere; an adoption only those not this owner's and not stamped within the lease |
| `PostgresLaws.RenewAgrees` | packages/job-store/src/postgres.ts:431-458 | The two renewals report the same exactly when asked about no lapsed foreign claim and no unclaimed row |
| `PostgresLaws.CallsAgree` | packages/job-store/src/postgres.ts:171-458 | The table follows the in-memory store with a lease one tick longer through every call, and no call reaches another namespace |
| `PostgresLaws.TableKeepsLanes` | packages/job-store/src/postgres.ts:309-359 | The table keeps each lane's live running rows to one owner under the same assumption |
| `ProtocolSafety.RowsKeepLanes` | packages/queue/src/store.ts:269-277 | With any number of workers, in every run in which no renewal lands after its claim lapsed, no two live running rows of a lane are in different names |
| `ProtocolSafety.OneHandlerPerLane` | packages/queue/src/queue.ts:865-956 | In every such run in which no worker is handed back a job it still has under way in a lane (running, lost but not over, or just granted), no two workers with live claims run handlers in one lane |
| `ProtocolSurprises.HandedBackBreaksLanes` | packages/queue/src/queue.ts:736-784 | A run in which no renewal is late, and a worker handed back a job it is still running ends running it beside another worker's in the same lane, both under live claims |
| `ProtocolSurprises.HandedBackAndDropped` | packages/queue/src/queue.ts:399-400 | A run that leaves an accepted job queued in a worker's name which that worker neither has in line nor renews; adopting from the store as it stands never lists it for that worker, however late |
| `ProtocolSafety.NoJobLost` | packages/queue/src/queue.ts:498-562 | From the moment `stored` resolves until some worker ends the job its row is in the store, in every run, crashes included |
| `ProtocolSafety.CrashedWorkComesBack` | packages/queue/src/queue.ts:752-784 | Whatever of a crashed worker's calls still land, from the lapse of its claim every other worker may load or adopt the row, which keeps its attempt count once no more of them land |
| `ProtocolSafety.CrashedRowWaits` | packages/queue/src/store.ts:243-330 | While a claim stays in a crashed worker's name and none of its calls in flight lands, its row is exactly as it stood |
| `ProtocolSafety.LapsedIsTaken` | packages/queue/src/store.ts:310-330 | A lapsed row is handed to the next other owner that loads or adopts, attempts and all |
| `ProtocolSafety.MoveOk` | packages/queue/src/queue.ts:736-938 | Every move of any worker, the store, the clock or a crash keeps the protocol's invariant |
| `Retry.ExponentialBackoff` | packages/queue/src/retry.ts:77-92 | A policy is made exactly from a positive whole attempt limit and a jitter between 0 and 1, with each delay option as given or at its default |
| `Retry.DelayNearRaw` | packages/queue/src/retry.ts:94-101 | Each delay is within the jitter, and half a millisecond of rounding, of the delay before jitter; where that is negative the delay is nothing |
| `Retry.DelayMoves` | packages/queue/src/retry.ts:94-101 | The delay moves with the draw in a straight line, to within rounding, from the raw delay less the jitter through the raw delay towards the raw delay plus it |
| `Retry.DelayGrows` | packages/queue/src/retry.ts:94-101 | A larger draw never gives a shorter delay |
| `Retry.RawNeverDecreases` | packages/queue/src/retry.ts:98-98 | The delay before jitter never shrinks with the attempt, for factor >= 1 and base >= 0, and never passes its ceiling |
| `Retry.RawMultiplies` | packages/queue/src/retry.ts:98-98 | The raw delay starts at the base and is the factor times the last, until it meets its ceiling |
| `Retry.PolicyEndsRetries` | packages/queue/src/retry.ts:94-101 | In any run whose retry decisions are all this policy's answers, every one is heard and each job gets at most max(1, maxAttempts - a) handler calls |
| `Sitemap.PiecesDoNotMatter` | packages/crawler/src/sitemap.ts:121-129 | Text may arrive in any pieces |
| `Sitemap.CutIsPrefix` | packages/crawler/src/sitemap.ts:173-178 | What was read at any cut is a prefix, list by list, of what reading on gives |
| `Sitemap.SitemapParser.OnOpenTag` | packages/crawler/src/sitemap.ts:147-169 | Opens an entry, a video, a news item or a field by the path of open elements |
| `Sitemap.SitemapParser.OnCloseTag` | packages/crawler/src/sitemap.ts:173-225 | Closes a field, an item or an entry, writing the entry out under its first loc; writes nothing once the document is cut |
| `Sitemap.SitemapParser.End` | packages/crawler/src/sitemap.ts:234-238 | A cut document returns what had been read when it stopped; a whole one reads on through the closes of what is still open |
| `SitemapTree.StreamReadsTree` | packages/crawler/src/sitemap.ts:121-229 | The event machine reads every document as its element tree reads, and ends as it began |
| `SitemapTree.CutReadsPrefix` | packages/crawler/src/sitemap.ts:76-89 | A cut anywhere gives prefixes of what the tree reads |
| `SitemapTree.SeveredEntryDropped` | packages/crawler/src/sitemap.ts:81-87 | Entries closed before a cut are kept whole and the severed one's videos and news are dropped |
| `SitemapTree.SeveredLocsStay` | packages/crawler/src/sitemap.ts:181-184 | The severed entry's locs that had closed stay in the urls, every one and no other |
| `SitemapTree.DocumentReadsPlainly` | packages/crawler/src/sitemap.ts:111-119 | Where no news field of a document directly holds another, the machine reads the whole document as the plain recursive reading does |
| `SitemapTree.NestedFieldLosesItsText` | packages/crawler/src/sitemap.ts:164-165 | A field holding another field loses its own text |
| `SitemapFields.DocumentReadsAsWritten` | packages/crawler/src/sitemap.ts:194-223 | Every video and news item of any document, in order: its loc the first of its entry with something in it, and each field the last text of the element it is named after, or nothing where there is none |
| `SitemapFields.ExtractSitemapUrls` | packages/crawler/src/sitemap.ts:243-247 | Parsing a whole document returns its tree reading, field by field as written |
| `Frontier.CrawlSite` | packages/crawler/src/crawl.ts:597-762 | The whole crawl: every discovered URL accounted for once; each page given or led to by an earlier page's answer; depth and page budgets kept; the lanes opened by the seeds and the sitemaps, each page the head of the lane whose turn it was, the lanes in turn wherever both had something, and each draw leading on to the next by exactly what its page answered, in order; and unless the page budget ran out, every given URL, redirect target and followable link on the site within the depth limit was walked or is forbidden |
| `Frontier.Crawl.Enqueue` | packages/crawler/src/crawl.ts:605-621 | A new same-site URL joins the end of its lane with its depth and parent, or is noted as blocked or beyond depth; any other changes nothing |
| `Frontier.Crawl.EnqueueGiven` | packages/crawler/src/crawl.ts:623-624 | The seeds, and what the sitemaps declare, fill their lanes in order: each URL that is on the site, allowed, within the depth limit and not queued before, once |
| `Frontier.Crawl.NextEntry` | packages/crawler/src/crawl.ts:669-680 | Draws from the lane whose turn it is, or the other when that is dry |
| `Frontier.Crawl.Follow` | packages/crawler/src/crawl.ts:753-761 | Adds to the walk exactly what the page led to, in order: a redirect's target at its depth, then its followable links one deeper, each new one that is on the site, allowed and within the depth limit |
| `Frontier.Crawl.Walk` | packages/crawler/src/crawl.ts:682-762 | Stops at the page budget or with both lanes dry; each draw leads on to the next, and the last to what is left, by exactly what its page answered |
| `Frontier.Crawl.NotReached` | packages/crawler/src/crawl.ts:891-899 | What is left in the lanes, then what was too deep, never queued and allowed |
| `Frontier.AllAccounted` | packages/crawler/src/crawl.ts:597-624 | No URL is named twice; pages and not-reached are exactly the discovered allowed URLs; blocked are disallowed |
| `Frontier.DryMeansClosed` | packages/crawler/src/crawl.ts:597-762 | Once both lanes are dry, everything the crawl was given or led to on the site within the depth limit is among its pages or blocked |
| `Frontier.LanesShareEvenly` | packages/crawler/src/crawl.ts:667-680 | Over any stretch of a crawl's pages in which both lanes stay non-empty, the pages from each lane differ by at most one |
| `SitemapLoader.LoadSitemaps` | packages/crawler/src/crawl.ts:488-568 | Terminates; turn t draws the head of lane t mod n, or nothing when it is dry, and requests it if new, its children joining the same lane; no document twice and at most 50; everything declared or listed is requested unless the budget ran out |
| `SitemapLoader.FairShares` | packages/crawler/src/crawl.ts:472-487 | Over any turns of a call in which one lane is never dry, no other lane gets more than one document ahead of it, counting the draws it spends on documents already requested |
| `SitemapLoader.SharesAreDocuments` | packages/crawler/src/crawl.ts:497-503 | The documents counted for a lane's turns are exactly the call's documents from that lane |
| `Robots.IsAllowed` | packages/crawler/src/robots.ts:146-156 | A path is allowed exactly when no rule's text meets it or one of the longest that do is an Allow |
| `Robots.OrderDoesNotMatter` | packages/crawler/src/robots.ts:146-156 | The decision does not depend on the order of the rules |
| `Robots.GroupFor` | packages/crawler/src/robots.ts:99-118 | The group of the longest agent token within the agent, the first among equals, else the first group for everyone, else none |
| `Robots.FitsMeansLaidOut` | packages/crawler/src/robots.ts:121-127 | A pattern fits a path exactly when its literal parts lie along it in order, from the start, to the end if anchored |
| `Robots.MatchesMeans` | packages/crawler/src/robots.ts:121-127 | A pattern ending in `$` matches exactly when the parts between its stars lie along the whole path to its end, and any other exactly when they lie along some beginning of it |
| `Robots.PartsMakeUpPattern` | packages/crawler/src/robots.ts:121-127 | The parts of a pattern hold no star, and with the stars put back they are the pattern |
| `RobotsText.ParseRobots` | packages/crawler/src/robots.ts:35-92 | The groups and sitemaps of a file's lines, as `RobotsText.Groups` and `Sitemaps` read them |
| `RobotsText.ReadsBack` | packages/crawler/src/robots.ts:35-92 | Any groups, written out with an empty Disallow where nothing else closes one, read back as they were |
| `RobotsText.BareGroupsRunTogether` | packages/crawler/src/robots.ts:42-43 | Written with nothing added, groups read back as they were exactly when each but the last has a rule or a delay |
| `RobotsText.NoiseDoesNotMatter` | packages/crawler/src/robots.ts:56-87 | Comments, blank lines, unknown fields and sitemap lines may stand anywhere, even inside a group |
| `RobotsText.EmptyLinesSayNothing` | packages/crawler/src/robots.ts:68-81 | After a rule or a delay, a rule with no path and a delay that is no number change nothing |
| `Readiness.ComputeLaunchReadiness` | packages/core/src/readiness.ts:97-157 | Counts outstanding, failed, undecided and lapsed gates, lists violations, and decides GO exactly when the first three are zero |
| `Readiness.GoExactly` | packages/core/src/readiness.ts:97-157 | GO exactly when every launch gate is decided and every applicable one is recorded passed on an attestation that still stands |
| `Readiness.GatesMean` | packages/core/src/readiness.ts:63-157 | What each count takes in, by what is recorded of a launch gate: outstanding, undecided, failed and lapsed, with one with nothing recorded in scope if universal and undecided if not |
| `Readiness.ViolationsMean` | packages/core/src/readiness.ts:97-157 | A violation is listed exactly when a check was excluded with no rationale, or skipped though an applicable gate |
| `Assessment.FilledMeans` | packages/core/src/review.ts:143-147 | A text says something exactly when it is not spaces alone and is neither `tbd` nor `n/a` in any case with spaces around it |
| `Assessment.OriginMeans` | packages/core/src/cutover.ts:121-123 | An origin is `https://` and at least one character, none of them a space or a slash |
| `Review.ReviewRunProblem` | packages/core/src/review.ts:161-196 | The first data check a run fails, in order; and none exactly when the run is filled in, about a known check, dated in order, and says when it is to be reviewed again or why |
| `Review.Read` | packages/core/src/review.ts:227-267 | The review state from the latest run in context, its ties, the soundness of the check's history, and the run's verdict |
| `Review.LogOrderDoesNotMatter` | packages/core/src/review.ts:219-267 | Permuting the log changes no reading |
| `Review.AppendingBeside` | packages/core/src/review.ts:219-267 | Appending a run with a fresh id, another check's or sound and out of context, changes no reading |
| `Review.CurrentMeans` | packages/core/src/review.ts:11-15 | A current reading rests on one run: alone at the latest moment in context, sound, passed, not overdue, agreeing and citing the evidence |
| `ReviewReadings.ReadingMeans` | packages/core/src/review.ts:227-267 | Each of the ten readings exactly when the runs' own fields give it: no dated run about the check, several tied for latest, an untrusted log, or what the one latest run says |
| `ReviewReadings.CountsMeans` | packages/core/src/review.ts:199-213 | A run counts for a check exactly when it names it and the release, scope, origin and criteria assessed, in an environment its phase allows |
| `Cutover.ReleaseProblems` | packages/core/src/cutover.ts:125-140 | Nothing is listed exactly when the release is complete, and each field's name is listed exactly when that field is missing or invalid |
| `Cutover.TallyGates` | packages/core/src/cutover.ts:198-242 | The outstanding and incomplete gates by stage, the unexplained exclusions and the blockers in corpus order |
| `Cutover.ComputeCutoverReadiness` | packages/core/src/cutover.ts:170-281 | Both assessments, from the tallies, the log's data checks, the release fields and the cutover record |
| `Cutover.AssessmentsAgree` | packages/core/src/cutover.ts:177-257 | Outstanding gates split the first assessment's; failed are outstanding; no blockers exactly when all four tallies are zero; a final GO is a GO of the first |
| `Cutover.FinalGoIsSound` | packages/core/src/cutover.ts:142-257 | A final GO means every applicable gate passed on one sound current run, and for live gates approval, authorization, cutover, test, review and assessment came in that order |
| `CutoverDecisions.DecisionsExactly` | packages/core/src/cutover.ts:142-257 | Ready exactly when the release is complete, the log can be trusted, and each launch gate is explained and, unless live, rests on a current review; final GO exactly when moreover every applicable gate rests on one and cutover was authorized, on this release and on its being ready, and made in time |
| `CutoverDecisions.BlockersMean` | packages/core/src/cutover.ts:198-242 | In corpus order, one blocker for each applicable launch gate not passed on a standing attestation or lacking its evidence, saying what is seen of it and when, whether it passed, how its review reads and what is missing; and none for any other check |

## Left out

- JobQueueClass.JobQueue.Restore: requires that an id this process has forgotten is not handed back to it; ids are taken not to be reused within a run, so a job evicted from the history and adopted again is not modelled.
- JobQueueClass.JobQueue.AdoptReply: the same of every job in the batch.
- JobQueueClass.JobQueue.RecoverReply: the same of every job loaded.
- JobQueueClass.JobQueue.Close: the order in which a JavaScript set lists the starting and running jobs is an input.
- JobQueueClass.JobQueue.Enqueue: a generated id and the default options are the caller's.
- Job records are values in a map the methods reassign, not objects; two references to one record are not modelled.
- The times and results shown to callers (startedAt, finishedAt, the resolved value), event payloads and callbacks that re-enter the queue.
- The atomic sections are those of the source with two joins: a reply and its `finally` are one section, and so are a load's request and the setting of its `recovered` flag at its reply.
- Real timers, promises and abort controllers: a timer is a deadline or a flag, a promise a later section, a signal a flag set once.
- One clock is read by every worker and the store; Postgres measures leases by its own clock alone.
- A store call whose failure has been reported does not land afterwards.
- A restarted worker takes a new name in `Protocol`; reclaiming rows under a kept name is only in `LeaseStore.Load`.
- `Protocol` runs `MemoryJobStore`; the table is tied to it by `PostgresLaws.CallsAgree`, not run in the protocol itself.
- SQL text, transactions, advisory locks and `SKIP LOCKED`: each store call is one atomic update, and a listing is sorted from whatever order the rows are scanned in.
- PostgresStore.PostgresJobStore.Load: the payload `revive` hook and the diagnostic timestamps are not modelled.
- The in-memory store's initial jobs and its `outstanding`, `snapshot` and `size` readers, and the table's `outstanding` and `size`.
- Retry.DelayNearRaw: arithmetic is over reals, so floating-point rounding and overflow of the power are not modelled.
- Cancellation of a crawl by its signal, the politeness delay, rendering, extraction, the auxiliary requests and the external-link lanes.
- URL parsing, normalization, same-site tests and the whitespace and case rules of sitemap text: any functions.
- The tokenizer under the sitemap parser: documents arrive as well-formed events, and a cut falls between two of them.
- Robots.IsAllowed: takes the group's rules and the path; an absent file, a missing group and an unparsable URL allow everything before it is asked.
- RobotsText.ParseRobots: takes lines already split into field and value, lower-cased where the code does so. `crawlDelayMs` is left out. Merging groups of one agent is not claimed, because the code picks one.
- `computeProgress` and the wording of violations and blockers.
- Review.ReviewRunProblem: reports which check failed, not its message.
- Dates are moments already parsed, or one of the ways a text fails to be one.
