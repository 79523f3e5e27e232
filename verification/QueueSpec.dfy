/**
 * The job queue as a value, with one function per atomic section: the stretch of code that runs between
 * two awaits. `JobQueue.dfy` proves the class against these functions.
 */
module QueueSpec {
  import opened Jobs
  import opened Sequences

  // ---- State ----

  /** Whether a job's first store write has landed, and whether the row is still this process's. */
  datatype Durability = Unstored | Pending | Stored | Lost

  /**
   * A store write waiting its turn behind the job's earlier ones. All but the lane claim are counted
   * as writes in flight; the ticket is the count's token for this one.
   */
  datatype StoreOp =
    | Create(ticket: nat, job: StoredJob)
    | Save(ticket: nat, job: StoredJob)
    | Remove(ticket: nat)
    | Acquire(job: StoredJob)

  datatype Entry = Entry(
    id: JobId,
    payload: Payload,
    lane: Option<Lane>,
    priority: int,
    enqueuedAt: int,
    born: nat,                 // the attempt count it entered this process with
    state: JobState,
    attempt: nat,
    notBefore: Option<int>,
    dueAt: Option<int>,
    error: Option<string>,
    cancelRequested: bool,
    leaseLost: bool,
    aborted: bool,             // the signal its handler is given
    durability: Durability,
    chain: seq<StoreOp>)

  datatype Config = Config(
    concurrency: nat,
    historyLimit: nat,
    hasStore: bool,
    heartbeatMs: Option<nat>,  // set only with a store that can renew
    canAcquire: bool,
    canAdopt: bool,
    hasRetry: bool,
    maxAttempts: Option<nat>,  // the policy's limit, when it is a backoff policy; `None` for any other
    reviveLane: (Payload, Option<Lane>) -> Option<Lane>)

  /** A beat in flight: waiting for its renewal to be answered, then for its adoption. */
  datatype Beat = Renewing(ids: set<JobId>) | Adopting

  datatype Queue = Queue(
    cfg: Config,
    entries: map<JobId, Entry>,      // every entry this process has made
    known: set<JobId>,               // `#byId`: the ones it still remembers
    queued: seq<JobId>,
    starting: set<JobId>,
    active: set<JobId>,
    deciding: map<JobId, bool>,      // handlers that threw; whether the policy was really asked
    holder: map<Lane, JobId>,        // `#busyLanes`, and who put each lane there
    finished: seq<JobId>,
    writes: map<nat, JobId>,         // `#writes`: the tokens outstanding, and whose they are
    nextTicket: nat,
    beats: map<nat, Beat>,
    nextBeat: nat,
    beatArmed: bool,
    wake: Option<int>,
    waiters: nat,
    paused: bool,
    closed: bool,
    recovered: bool)

  ghost predicate ValidConfig(cfg: Config) {
    && cfg.concurrency >= 1
    && (cfg.heartbeatMs.Some? || cfg.canAcquire || cfg.canAdopt ==> cfg.hasStore)
  }

  function Fresh(cfg: Config, paused: bool): Queue {
    Queue(cfg, map[], {}, [], {}, {}, map[], map[], [], map[], 0, map[], 0, false, None, 0, paused, false, false)
  }

  /** One whose claims expire and whose lanes are claimed in the store. */
  predicate Shared(cfg: Config) {
    cfg.heartbeatMs.Some? && cfg.canAcquire
  }

  predicate Idle(q: Queue) {
    q.queued == [] && q.starting == {} && q.active == {} && q.deciding == map[] && q.writes == map[]
  }

  // ---- Writing things down ----

  /** The entry as a row. */
  function Record(e: Entry): StoredJob {
    StoredJob(e.id, e.payload, e.lane, e.priority, e.state, e.attempt, e.enqueuedAt, e.notBefore, e.error)
  }

  /** A job with no store behind it, or whose row another worker now owns: nothing is written for it. */
  predicate Silent(e: Entry) {
    e.durability == Unstored || e.durability == Lost
  }

  /** Chain a write behind the job's own earlier ones, unless the row is not this process's to write. */
  function Persist(q: Queue, id: JobId, save: bool): (r: Queue)
    requires id in q.entries
    ensures r == q.(entries := r.entries, writes := r.writes, nextTicket := r.nextTicket)
  {
    var e := q.entries[id];
    if Silent(e) then q
    else
      var op := if save then Save(q.nextTicket, Record(e)) else Remove(q.nextTicket);
      q.(entries := q.entries[id := e.(chain := e.chain + [op])],
         writes := q.writes[q.nextTicket := id],
         nextTicket := q.nextTicket + 1)
  }

  function Evict(q: Queue): (r: Queue)
    ensures r == q.(finished := r.finished, known := r.known)
    decreases |q.finished|
  {
    if |q.finished| <= q.cfg.historyLimit then q
    else Evict(q.(finished := q.finished[1..], known := q.known - {q.finished[0]}))
  }

  function Remember(q: Queue, id: JobId): (r: Queue)
    ensures r.cfg == q.cfg
  {
    Evict(q.(finished := q.finished + [id]))
  }

  /** The one place a job ends. It takes a job that has not ended: nothing settles twice. */
  function Settle(q: Queue, id: JobId, outcome: JobState, error: Option<string>): (r: Queue)
    requires id in q.entries && !Terminal(q.entries[id].state) && Terminal(outcome)
    ensures r.cfg == q.cfg
  {
    var e := q.entries[id];
    var ended := e.(state := outcome, error := if outcome == Failed then error else e.error);
    Remember(Persist(q.(entries := q.entries[id := ended]), id, false), id)
  }

  function CheckIdle(q: Queue): (r: Queue)
    ensures r.cfg == q.cfg
  {
    if Idle(q) then q.(waiters := 0) else q
  }

  // ---- Choosing what runs ----

  predicate Eligible(q: Queue, now: int, id: JobId) {
    id in q.entries && CanStart(q.holder, q.entries[id], now)
  }

  predicate CanStart(holder: map<Lane, JobId>, e: Entry, now: int) {
    && e.durability != Pending
    && (e.lane.Some? ==> e.lane.value !in holder)
    && (e.dueAt.Some? ==> e.dueAt.value <= now)
  }

  /** Scan the first `n` queued jobs for the highest-priority eligible one; -1 when there is none. */
  function Best(q: Queue, now: int, n: nat): (best: int)
    requires n <= |q.queued|
    ensures -1 <= best < n
    ensures best >= 0 ==> Eligible(q, now, q.queued[best])
  {
    if n == 0 then -1
    else
      var best := Best(q, now, n - 1);
      if !Eligible(q, now, q.queued[n - 1]) then best
      else if best == -1 || q.entries[q.queued[n - 1]].priority > q.entries[q.queued[best]].priority then n - 1
      else best
  }

  /** The job has a lane, its row is `Stored`, and other workers may be running in that lane. */
  predicate SharesLanes(cfg: Config, e: Entry) {
    e.lane.Some? && e.durability == Stored && Shared(cfg)
  }

  function Begin(q: Queue, id: JobId, claimed: bool): (r: Queue)
    requires id in q.entries
    ensures r.cfg == q.cfg
  {
    var e := q.entries[id];
    var going := e.(state := Running, attempt := e.attempt + 1, notBefore := None, dueAt := None);
    var q' := q.(
      entries := q.entries[id := going],
      active := q.active + {id},
      holder := if e.lane.Some? then q.holder[e.lane.value := id] else q.holder);
    if claimed then q' else Persist(q', id, true)
  }

  /** The row a lane claim asks for: `Running`, one attempt on, with no next attempt. */
  function ClaimOf(e: Entry): StoredJob {
    Record(e).(state := Running, attempt := e.attempt + 1, nextAttemptAt := None)
  }

  function Ask(q: Queue, id: JobId): (r: Queue)
    requires id in q.entries && q.entries[id].lane.Some?
    ensures r.cfg == q.cfg
  {
    var e := q.entries[id];
    q.(entries := q.entries[id := e.(chain := e.chain + [Acquire(ClaimOf(e))])],
       starting := q.starting + {id},
       holder := q.holder[e.lane.value := id])
  }

  function Launch(q: Queue, k: nat): (r: Queue)
    requires k < |q.queued| && q.queued[k] in q.entries
    ensures r.cfg == q.cfg
  {
    var id := q.queued[k];
    var taken := q.(queued := DropAt(q.queued, k));
    if SharesLanes(q.cfg, q.entries[id]) then Ask(taken, id) else Begin(taken, id, false)
  }

  predicate SlotFree(q: Queue) {
    !q.paused && |q.active| + |q.starting| < q.cfg.concurrency
  }

  /** Start jobs until the slots are full or nothing queued may start. */
  function Fill(q: Queue, now: int): (r: Queue)
    ensures r.cfg == q.cfg
    decreases |q.queued|
  {
    var best := Best(q, now, |q.queued|);
    if !SlotFree(q) || best == -1 then q
    else
      Fill(Launch(q, best), now)
  }

  predicate Waiting(q: Queue, now: int, id: JobId) {
    id in q.entries && Delayed(q.entries[id], now)
  }

  predicate Delayed(e: Entry, now: int) {
    e.durability != Pending && e.dueAt.Some? && e.dueAt.value > now
  }

  function Earliest(q: Queue, now: int, n: nat): Option<int>
    requires n <= |q.queued|
  {
    if n == 0 then None
    else
      var sofar := Earliest(q, now, n - 1);
      if !Waiting(q, now, q.queued[n - 1]) then sofar
      else
        var due := q.entries[q.queued[n - 1]].dueAt.value;
        if sofar == None || due < sofar.value then Some(due) else sofar
  }

  function ScheduleWake(q: Queue, now: int): (r: Queue)
    ensures r.cfg == q.cfg
  {
    q.(wake := if q.paused || q.closed then None else Earliest(q, now, |q.queued|))
  }

  /** The unfinished jobs it remembers whose rows are `Stored`: the ones a beat renews. */
  function Held(q: Queue): set<JobId> {
    set id | id in q.known && id in q.entries
      && !Terminal(q.entries[id].state) && q.entries[id].durability == Stored
  }

  function ScheduleBeat(q: Queue): (r: Queue)
    ensures r.cfg == q.cfg
  {
    if q.beatArmed || q.cfg.heartbeatMs == None || q.closed then q
    else if Held(q) == {} && !(q.cfg.canAdopt && !q.paused) then q
    else q.(beatArmed := true)
  }

  /** Fills the slots, sets both timers and answers waiters, all at the one moment `now`. */
  function Pump(q: Queue, now: int): (r: Queue)
    ensures r.cfg == q.cfg
  {
    CheckIdle(ScheduleBeat(ScheduleWake(Fill(q, now), now)))
  }

  // ---- Atomic sections ----

  function NewEntry(cfg: Config, job: StoredJob): Entry {
    Entry(job.id, job.payload, job.lane, job.priority, job.enqueuedAt, job.attempt, Queued, job.attempt,
          job.nextAttemptAt, None, job.error, false, false, false,
          if cfg.hasStore then Pending else Unstored, [])
  }

  function Admit(q: Queue, e: Entry, now: int): (r: Queue)
    ensures r.cfg == q.cfg
  {
    Pump(AddQueued(q, e), now)
  }

  function AddQueued(q: Queue, e: Entry): (r: Queue)
    ensures r.cfg == q.cfg
  {
    q.(entries := q.entries[e.id := e], known := q.known + {e.id}, queued := q.queued + [e.id])
  }

  /** Chains an entry's `Create` and counts it; without a store the entry is left as it is. */
  function Created(q: Queue, e: Entry): (Queue, Entry) {
    if !q.cfg.hasStore then (q, e)
    else
      (q.(writes := q.writes[q.nextTicket := e.id], nextTicket := q.nextTicket + 1),
       e.(chain := [Create(q.nextTicket, Record(e))]))
  }

  function Enqueue(q: Queue, job: StoredJob, now: int): (r: Queue)
    ensures r.cfg == q.cfg
  {
    var (q', e) := Created(q, NewEntry(q.cfg, job));
    Admit(q', e, now)
  }

  /** Drop the write at the front of a job's chain, and its token with it. */
  function PopWrite(q: Queue, id: JobId): (r: Queue)
    ensures r.cfg == q.cfg
  {
    if id !in q.entries || q.entries[id].chain == [] then q else
    var e := q.entries[id];
    var head := e.chain[0];
    q.(entries := q.entries[id := e.(chain := e.chain[1..])],
       writes := if head.Acquire? then q.writes else q.writes - {head.ticket})
  }

  /** Take a job out of the line, if it is in it, and settle it. */
  function Withdraw(q: Queue, id: JobId, outcome: JobState, error: Option<string>): (r: Queue)
    requires id in q.entries && !Terminal(q.entries[id].state) && Terminal(outcome)
    ensures r.cfg == q.cfg
  {
    Settle(q.(queued := Without(q.queued, id)), id, outcome, error)
  }

  function CreateAnswered(q: Queue, id: JobId, landed: bool, cause: string, now: int): Queue
    requires id in q.entries
  {
    var e := q.entries[id];
    var told :=
      if landed then q.(entries := q.entries[id := e.(durability := Stored)])
      else if Terminal(e.state) then
            q.(queued := Without(q.queued, id))
      else Withdraw(q, id, Failed, Some(cause));
    Pump(PopWrite(told, id), now)
  }

  function LeaseLostMessage(id: JobId): string {
    "job " + id.text + " lost its lease and is now held by another worker"
  }

  /** Marks a job `Lost`: one in line ends failed, any other has its signal aborted. */
  function Lose(q: Queue, id: JobId): (r: Queue)
    ensures r.cfg == q.cfg
  {
    if id !in q.known || id !in q.entries || Terminal(q.entries[id].state) || q.entries[id].durability == Lost then q
    else MarkLost(q, id, q.entries[id].(durability := Lost, leaseLost := true))
  }

  function MarkLost(q: Queue, id: JobId, e: Entry): (r: Queue)
    requires !Terminal(e.state)
    ensures r.cfg == q.cfg
  {
    if e.state == Queued then
      Withdraw(q.(entries := q.entries[id := e]), id, Failed, Some(LeaseLostMessage(id)))
    else
      q.(entries := q.entries[id := e.(aborted := true)])
  }

  function LoseAll(q: Queue, ids: seq<JobId>): (r: Queue)
    ensures r.cfg == q.cfg
    decreases |ids|
  {
    if ids == [] then q else LoseAll(Lose(q, ids[0]), ids[1..])
  }

  function WriteAnswered(q: Queue, id: JobId, gone: bool): (r: Queue)
    ensures r.cfg == q.cfg
  {
    var told := if gone then Lose(q, id) else q;
    CheckIdle(PopWrite(told, id))
  }

  datatype Reply = Answered | Refused | LeaseGone | Broken

  /** Give back the slot and the lane an entry held while it was starting or running. */
  function Release(q: Queue, id: JobId): (r: Queue)
    ensures r.cfg == q.cfg && r.entries == q.entries
  {
    if id !in q.entries then q else
    var lane := q.entries[id].lane;
    q.(starting := q.starting - {id}, active := q.active - {id},
       holder := if lane.Some? then q.holder - {lane.value} else q.holder)
  }

  function AcquireAnswered(q: Queue, id: JobId, reply: Reply, now: int): Queue
    requires id in q.entries
  {
    var told := Release(PopWrite(if reply == LeaseGone then Lose(q, id) else q, id), id);
    if id !in told.entries || Terminal(told.entries[id].state) then Pump(told, now)
    else if reply == Answered then Begin(told, id, true)
    else
      var e := told.entries[id];
      var backoff := if q.cfg.heartbeatMs.Some? then q.cfg.heartbeatMs.value else 0;
      Pump(told.(entries := told.entries[id := e.(dueAt := Some(now + backoff))],
                 queued := told.queued + [id]), now)
  }

  /** How a job ends when its handler comes back, if it ends: a lost claim outranks a cancellation. */
  function Outcome(e: Entry, threw: bool): Option<JobState> {
    if e.leaseLost then Some(Failed)
    else if e.cancelRequested then Some(Cancelled)
    else if !threw then Some(Complete)
    else None
  }

  /** The slot and the lane go back before the policy is asked; nothing is pumped until it answers. */
  function HandlerReturned(q: Queue, id: JobId, threw: bool, now: int): Queue
    requires id in q.entries && !Terminal(q.entries[id].state)
  {
    match Outcome(q.entries[id], threw)
    case Some(outcome) => Pump(Settle(Release(q, id), id, outcome, Some(LeaseLostMessage(id))), now)
    case None => Release(q, id).(deciding := q.deciding[id := q.cfg.hasRetry && !q.closed])
  }

  /** Appends the job to the line, due `delayMs` from now, and chains a `Save` of it so. */
  function Again(q: Queue, id: JobId, cause: string, delayMs: nat, now: int): (r: Queue)
    requires id in q.entries
    ensures r.cfg == q.cfg
  {
    var e := q.entries[id];
    var waiting := e.(state := Queued, error := Some(cause), notBefore := Some(now + delayMs), dueAt := Some(now + delayMs));
    Persist(q.(entries := q.entries[id := waiting], queued := q.queued + [id]), id, true)
  }

  /** What the policy's answer amounts to: nothing from a policy that was never asked. */
  function Heard(q: Queue, id: JobId, delayMs: Option<nat>): Option<nat> {
    if id in q.deciding && q.deciding[id] then delayMs else None
  }

  function PolicyAnswered(q: Queue, id: JobId, delayMs: Option<nat>, cause: string, now: int): Queue
    requires id in q.entries && !Terminal(q.entries[id].state)
  {
    var decided :=
      if q.entries[id].cancelRequested then Settle(q, id, Cancelled, None)
      else if Heard(q, id, delayMs) == None then Settle(q, id, Failed, Some(cause))
      else Again(q, id, cause, Heard(q, id, delayMs).value, now);
    Pump(decided.(deciding := decided.deciding - {id}), now)
  }

  function Cancel(q: Queue, id: JobId, now: int): (r: Queue)
    ensures r.cfg == q.cfg
  {
    if id !in q.known || id !in q.entries || Terminal(q.entries[id].state) then q
    else if q.entries[id].state == Queued then Pump(Withdraw(q, id, Cancelled, None), now)
    else q.(entries := q.entries[id := q.entries[id].(cancelRequested := true, aborted := true)])
  }

  function CancelAll(q: Queue, ids: seq<JobId>, now: int): (r: Queue)
    ensures r.cfg == q.cfg
    decreases |ids|
  {
    if ids == [] then q else CancelAll(Cancel(q, ids[0], now), ids[1..], now)
  }

  function Drain(q: Queue): (r: Queue)
    ensures r.cfg == q.cfg
  {
    if Idle(q) then q else q.(waiters := q.waiters + 1)
  }

  /** `starting` and `active` are listed in whatever order they were joined. */
  function Close(q: Queue, starting: seq<JobId>, active: seq<JobId>, now: int): (r: Queue)
    ensures r.cfg == q.cfg
  {
    var shut := q.(closed := true, paused := true, wake := None, beatArmed := false);
    Drain(CancelAll(CancelAll(CancelAll(shut, q.queued, now), starting, now), active, now))
  }

  function Resume(q: Queue, now: int): (r: Queue)
    ensures r.cfg == q.cfg
  {
    Pump(q.(paused := false), now)
  }

  /** The second half of a beat: ask for abandoned work, unless this queue should not take any. */
  function ThenAdopt(q: Queue, beat: nat, now: int): (r: Queue)
    ensures r.cfg == q.cfg
  {
    if !q.cfg.canAdopt || q.cfg.heartbeatMs == None || q.paused || q.closed
    then Pump(q.(beats := q.beats - {beat}), now)
    else q.(beats := q.beats[beat := Adopting])
  }

  function BeatFires(q: Queue, now: int): (r: Queue)
    ensures r.cfg == q.cfg
  {
    var fired := q.(beatArmed := false, nextBeat := q.nextBeat + 1);
    if q.cfg.heartbeatMs.Some? && Held(q) != {}
    then fired.(beats := q.beats[q.nextBeat := Renewing(Held(q))])
    else ThenAdopt(fired, q.nextBeat, now)
  }

  function RenewAnswered(q: Queue, beat: nat, lost: seq<JobId>, now: int): (r: Queue)
    ensures r.cfg == q.cfg
  {
    ThenAdopt(LoseAll(q, lost), beat, now)
  }

  /** Admits a row the store handed over, unless its id has an entry. */
  function Restore(q: Queue, job: StoredJob, now: int): (r: Queue)
    ensures r.cfg == q.cfg
  {
    if job.id in q.entries then q else Admit(q, Restored(q.cfg, job, now), now)
  }

  function Restored(cfg: Config, job: StoredJob, now: int): Entry {
    NewEntry(cfg, job.(lane := cfg.reviveLane(job.payload, job.lane))).(
      durability := Stored,
      dueAt := if job.nextAttemptAt.Some? then Some(Max(now, job.nextAttemptAt.value)) else None)
  }

  function RestoreAll(q: Queue, jobs: seq<StoredJob>, now: int): (r: Queue)
    ensures r.cfg == q.cfg
    decreases |jobs|
  {
    if jobs == [] then q else RestoreAll(Restore(q, jobs[0], now), jobs[1..], now)
  }

  function AdoptAnswered(q: Queue, beat: nat, jobs: seq<StoredJob>, now: int): (r: Queue)
    ensures r.cfg == q.cfg
  {
    var took := RestoreAll(q, jobs, now);
    Pump(took.(beats := took.beats - {beat}), now)
  }

  function RecoverAnswered(q: Queue, jobs: seq<StoredJob>, now: int): (r: Queue)
    ensures r.cfg == q.cfg
  {
    ScheduleBeat(RestoreAll(q, jobs, now))
  }
}
