/**
 * Several workers, each a `QueueSpec` queue, sharing one lease store.
 *
 * A store call is made at one moment and answered at a later one; in between, anything else may happen.
 * A call may also fail, before the store hears it or after. A worker that crashes does nothing more, but what
 * it had asked of the store may still land.
 */
module Protocol {
  import opened Jobs
  import LeaseStore
  import LeaseLaws
  import opened QueueSpec
  import opened QueueRuns
  import opened QueueHistory

  type Store = LeaseStore.Store

  /** A write the store has answered, and the worker has not heard back about yet. */
  datatype Landed = Landed(op: StoreOp, answer: LeaseStore.Answer)

  datatype Worker = Worker(
    q: Queue,
    landed: map<JobId, Landed>,
    renewed: map<nat, seq<JobId>>,        // by beat: what the store said of a renewal
    adopted: map<nat, seq<StoredJob>>,    // by beat: what the store handed over
    loading: bool,
    loaded: Option<seq<StoredJob>>)

  datatype World = World(
    clock: int,
    leaseMs: int,
    store: Store,
    workers: map<Owner, Worker>,
    crashed: set<Owner>,       // the workers that have crashed; no later process takes their names
    written: set<JobId>,       // jobs whose `stored` has resolved
    settled: set<JobId>)       // jobs some worker has ended, other than by standing down from a lost claim

  datatype Move =
    | Tick(to: int)
    | Start(o: Owner, cfg: Config, paused: bool)
    | Local(o: Owner, ev: Event)
    | Call(o: Owner, id: JobId)                  // the write at the front of a job's chain reaches the store
    | Hear(o: Owner, id: JobId, ok: bool, cause: string)
    | CallRenew(o: Owner, beat: nat, ids: seq<JobId>)
    | HearRenew(o: Owner, beat: nat, ok: bool)
    | CallAdopt(o: Owner, beat: nat)
    | HearAdopt(o: Owner, beat: nat, ok: bool)
    | CallLoad(o: Owner)
    | HearLoad(o: Owner, ok: bool)
    | Crash(o: Owner)

  // ---- Moves ----

  function HandleOf(world: World, o: Owner): LeaseStore.Handle {
    LeaseStore.Handle(o, Some(world.leaseMs))
  }

  /** The store call a chained write amounts to. */
  function CallOf(op: StoreOp, id: JobId): LeaseLaws.Call {
    match op
    case Create(_, job) => LeaseLaws.CallSave(job)
    case Save(_, job) => LeaseLaws.CallSave(job)
    case Remove(_) => LeaseLaws.CallRemove(id)
    case Acquire(job) => LeaseLaws.CallAcquire(job)
  }

  function AnswerTo(st: Store, h: LeaseStore.Handle, now: int, op: StoreOp): LeaseStore.Answer {
    match op
    case Create(_, job) => LeaseStore.Save(st, h, now, job).1
    case Save(_, job) => LeaseStore.Save(st, h, now, job).1
    case Remove(_) => LeaseStore.Done
    case Acquire(job) => LeaseStore.Acquire(st, h, now, job).1
  }

  /** What the queue hears about a write: the store's answer, or that the call failed. */
  function ReplyEvent(id: JobId, op: StoreOp, answer: Option<LeaseStore.Answer>, cause: string, now: int): Event {
    match op
    case Create(_, _) => CreateReply(id, answer == Some(LeaseStore.Done), cause, now)
    case Acquire(_) =>
      AcquireReply(id,
                   if answer == None then Broken
                   else if answer == Some(LeaseStore.Done) then Answered
                   else if answer == Some(LeaseStore.Refused) then Refused
                   else LeaseGone, now)
    case _ => WriteReply(id, answer == Some(LeaseStore.LeaseLost))
  }

  /** The events a queue meets without the store's help, each at the one clock all workers read. */
  predicate IsLocal(ev: Event, now: int) {
    match ev
    case Enqueued(_, at) => at == now
    case HandlerDone(_, _, at) => at == now
    case PolicyReply(_, _, _, at) => at == now
    case CancelAsked(_, at) => at == now
    case Paused => true
    case Resumed(at) => at == now
    case DrainAsked => true
    case Closed(_, _, at) => at == now
    case WakeFired(at) => at == now
    case BeatFired(at) => at == now
    case _ => false
  }

  /** The jobs a queue has ended, other than by standing down from a lost claim. */
  function Ended(q: Queue): set<JobId> {
    set id | id in q.entries && Terminal(q.entries[id].state) && q.entries[id].durability != Lost
  }

  ghost function Advance(world: World, o: Owner, w: Worker, ev: Event): World {
    var q := Step(w.q, ev);
    world.(workers := world.workers[o := w.(q := q, landed := w.landed - Replied(ev).Keys)],
           settled := world.settled + Ended(q))
  }

  ghost predicate Can(world: World, m: Move) {
    match m
    case Tick(to) => to >= world.clock
    case Start(o, cfg, _) => o !in world.workers && ValidConfig(cfg) && Shared(cfg)
    case _ => m.o in world.workers && WorkerCan(world.workers[m.o], world.clock, m) && (m.o in world.crashed ==> Lands(m))
  }

  /** A call reaching the store, which is all that is left to happen of a worker that has crashed. */
  predicate Lands(m: Move) {
    m.Call? || m.CallRenew? || m.CallAdopt? || m.CallLoad?
  }

  ghost predicate WorkerCan(w: Worker, now: int, m: Move) {
    match m
    case Local(_, ev) => IsLocal(ev, now) && Enabled(w.q, ev)
    case Call(_, id) => id in w.q.entries && w.q.entries[id].chain != [] && id !in w.landed
    case Hear(_, id, ok, _) => id in w.q.entries && w.q.entries[id].chain != [] && (ok ==> id in w.landed)
    case CallRenew(_, beat, ids) =>
      beat in w.q.beats && w.q.beats[beat] == Renewing(set id | id in ids) && beat !in w.renewed
    case HearRenew(_, beat, ok) =>
      (ok ==> beat in w.renewed) && Enabled(w.q, RenewReply(beat, if ok then w.renewed[beat] else [], now))
    case CallAdopt(_, beat) => beat in w.q.beats && w.q.beats[beat] == Adopting && beat !in w.adopted
    case HearAdopt(_, beat, ok) => beat in w.q.beats && w.q.beats[beat] == Adopting && (ok ==> beat in w.adopted)
    case CallLoad(_) => !w.loading && !w.q.closed
    case HearLoad(_, ok) => w.q.cfg.hasStore && !w.q.recovered && (ok ==> w.loaded.Some?)
    case Crash(_) => true
    case _ => false
  }

  ghost function Do(world: World, m: Move): World
    requires Can(world, m)
  {
    match m
    case Tick(to) => world.(clock := to)
    case Start(o, cfg, paused) =>
      world.(workers := world.workers[o := Worker(Fresh(cfg, paused), map[], map[], map[], false, None)])
    case Crash(o) => world.(crashed := world.crashed + {o})
    case Local(o, ev) => Advance(world, o, world.workers[o], ev)
    case Call(o, id) =>
      var w, h := world.workers[o], HandleOf(world, o);
      var op := w.q.entries[id].chain[0];
      world.(store := LeaseLaws.After(world.store, h, world.clock, CallOf(op, id)),
             workers := world.workers[o := w.(landed := w.landed[id := Landed(op, AnswerTo(world.store, h, world.clock, op))])])
    case Hear(o, id, ok, cause) =>
      var w := world.workers[o];
      var answer := if ok then Some(w.landed[id].answer) else None;
      var ev := ReplyEvent(id, w.q.entries[id].chain[0], answer, cause, world.clock);
      Advance(world, o, w, ev).(written := if ev.CreateReply? && ev.landed then world.written + {id} else world.written)
    case CallRenew(o, beat, ids) =>
      var w, h := world.workers[o], HandleOf(world, o);
      var (st, lost) := LeaseStore.Renew(world.store, h, world.clock, ids);
      world.(store := st, workers := world.workers[o := w.(renewed := w.renewed[beat := lost])])
    case HearRenew(o, beat, ok) =>
      var w := world.workers[o];
      Advance(world, o, w.(renewed := w.renewed - {beat}), RenewReply(beat, if ok then w.renewed[beat] else [], world.clock))
    case CallAdopt(o, beat) =>
      var w, h := world.workers[o], HandleOf(world, o);
      var (st, jobs) := LeaseStore.Adopt(world.store, h, world.clock);
      world.(store := st, workers := world.workers[o := w.(adopted := w.adopted[beat := jobs])])
    case HearAdopt(o, beat, ok) =>
      var w := world.workers[o];
      Advance(world, o, w.(adopted := w.adopted - {beat}), AdoptReply(beat, if ok then w.adopted[beat] else [], world.clock))
    case CallLoad(o) =>
      var w, h := world.workers[o], HandleOf(world, o);
      var (st, jobs) := LeaseStore.Load(world.store, h, world.clock);
      world.(store := st, workers := world.workers[o := w.(loading := true, loaded := Some(jobs))])
    case HearLoad(o, ok) =>
      var w := world.workers[o];
      Advance(world, o, w.(loading := true, loaded := None),
              if ok then RecoverReply(w.loaded.value, world.clock) else RecoverFailed)
  }

  ghost function Play(world: World, moves: seq<Move>): World
    decreases |moves|
  {
    if moves == [] then world
    else Play(if Can(world, moves[0]) then Do(world, moves[0]) else world, moves[1..])
  }

  // ---- The documented assumption ----

  /** Beats outrun the lease: a renewal refreshes only claims that are the caller's own and have not lapsed. */
  ghost predicate Timely(world: World, m: Move) {
    m.CallRenew? ==> LeaseLaws.OnTime(world.store, HandleOf(world, m.o), world.clock, m.ids)
  }

  /** A lane the store has granted, to a worker that has not heard so yet. */
  ghost predicate Granted(w: Worker, id: JobId) {
    && id in w.landed && w.landed[id].op.Acquire? && w.landed[id].answer == LeaseStore.Done
    && id in w.q.entries && !Terminal(w.q.entries[id].state)
  }

  /** Under way in a lane: running there, lost but not over yet, or just granted it. */
  ghost predicate AtWork(w: Worker, id: JobId) {
    id in w.q.entries && (Sails(w.q.cfg, w.q.entries[id]) || Granted(w, id))
  }

  /** No job `o` is handed is one it has under way in a lane. */
  ghost predicate Unfamiliar(world: World, o: Owner, ids: seq<JobId>) {
    o in world.workers ==> forall id :: id in ids ==> !AtWork(world.workers[o], id)
  }

  /** Timely, and nobody is handed back a job it still has under way in a lane. */
  ghost predicate Punctual(world: World, m: Move) {
    && Timely(world, m)
    && match m
       case CallAdopt(o, _) => Unfamiliar(world, o, LeaseStore.Taken(world.store, HandleOf(world, o), world.clock))
       case CallLoad(o) => Unfamiliar(world, o, LeaseStore.Free(world.store, HandleOf(world, o), world.clock))
       case _ => true
  }

  ghost predicate AllPunctual(world: World, moves: seq<Move>)
    decreases |moves|
  {
    moves != [] ==>
      if Can(world, moves[0]) then Punctual(world, moves[0]) && AllPunctual(Do(world, moves[0]), moves[1..])
      else AllPunctual(world, moves[1..])
  }

  ghost predicate AllTimely(world: World, moves: seq<Move>)
    decreases |moves|
  {
    moves != [] ==>
      if Can(world, moves[0]) then Timely(world, moves[0]) && AllTimely(Do(world, moves[0]), moves[1..])
      else AllTimely(world, moves[1..])
  }

  function Empty(leaseMs: int, clock: int): World {
    World(clock, leaseMs, LeaseStore.Store([], map[], map[]), map[], {}, {}, {})
  }
}
