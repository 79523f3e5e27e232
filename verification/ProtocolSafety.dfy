/** What any number of workers on one store keep, over every run. */
module ProtocolSafety {
  import opened Jobs
  import LeaseStore
  import LeaseLaws
  import opened QueueSpec
  import opened QueueInvariant
  import opened QueueRuns
  import opened QueueHistory
  import opened Protocol

  // ---- The invariant ----

  /** If the claim on this row is in `o`'s name, then the row says what `o` wrote: running, in this lane. */
  predicate Rightful(st: Store, o: Owner, id: JobId, lane: Option<Lane>) {
    id in st.leases && st.leases[id].owner == o ==>
      id in st.rows && st.rows[id].state == Running && st.rows[id].lane == lane
  }

  /** The replies not yet heard are for the writes at the front of their chains. */
  ghost predicate Pending(w: Worker) {
    forall id :: id in w.landed ==>
      id in w.q.entries && w.q.entries[id].chain != [] && w.q.entries[id].chain[0] == w.landed[id].op
  }

  ghost predicate Lanes(st: Store, o: Owner, w: Worker) {
    && (forall id :: id in w.q.entries && Sails(w.q.cfg, w.q.entries[id]) ==> Rightful(st, o, id, w.q.entries[id].lane))
    && (forall id :: Granted(w, id) ==> Rightful(st, o, id, w.q.entries[id].lane))
  }

  ghost predicate Accounted(st: Store, settled: set<JobId>, w: Worker) {
    && (forall id :: id in Ended(w.q) ==> id in settled)
    && (forall id :: id in w.landed && w.landed[id].op.Create? && w.landed[id].answer == LeaseStore.Done ==>
         id in st.rows || id in settled)
  }

  ghost predicate WorkerOk(st: Store, settled: set<JobId>, o: Owner, w: Worker, prompt: bool) {
    var ok :=
      && Inv(w.q) && Shared(w.q.cfg) && Pending(w)
      && (prompt ==> Lanes(st, o, w)) && Accounted(st, settled, w);
    ok
  }

  ghost predicate WorldOk(world: World, prompt: bool) {
    var ok :=
      && LeaseStore.Valid(world.store)
      && (prompt ==> LeaseLaws.LaneExclusive(world.store, world.leaseMs, world.clock))
      && (forall o :: o in world.workers ==> WorkerOk(world.store, world.settled, o, world.workers[o], prompt))
      && (forall id :: id in world.written ==> id in world.store.rows || id in world.settled);
    ok
  }

  // ---- What a store call does to the rows it was not about ----

  /** Whatever a call leaves in another worker's name it left alone. */
  lemma NotInMyName(st: Store, h: LeaseStore.Handle, now: int, call: LeaseLaws.Call, id: JobId)
    ensures
      var after := LeaseLaws.After(st, h, now, call);
      id in after.leases && after.leases[id].owner != h.owner ==> LeaseLaws.SameAt(st, after, id)
  {
    match call
    case CallLoad => LeaseStore.RequeueEffect(st, h, now, LeaseStore.Free(st, h, now));
    case CallAcquire(job) =>
    case CallSave(job) =>
    case CallRemove(other) =>
    case CallRenew(ids) => LeaseStore.RenewEffect(st, h, now, ids);
    case CallAdopt => LeaseStore.RequeueEffect(st, h, now, LeaseStore.Taken(st, h, now));
  }

  /** Only a removal takes a row away, and only its own. */
  lemma OnlyRemoveRemoves(st: Store, h: LeaseStore.Handle, now: int, call: LeaseLaws.Call, id: JobId)
    requires id in st.rows && call != LeaseLaws.CallRemove(id)
    ensures id in LeaseLaws.After(st, h, now, call).rows
  {
    match call
    case CallLoad => LeaseStore.RequeueEffect(st, h, now, LeaseStore.Free(st, h, now));
    case CallAcquire(job) =>
    case CallSave(job) =>
    case CallRemove(other) =>
    case CallRenew(ids) => LeaseStore.RenewEffect(st, h, now, ids);
    case CallAdopt => LeaseStore.RequeueEffect(st, h, now, LeaseStore.Taken(st, h, now));
  }

  /** What a worker may do to its own row without spoiling it: leave it alone, or renew a claim already its own. */
  lemma OwnRowKept(st: Store, h: LeaseStore.Handle, now: int, call: LeaseLaws.Call, id: JobId, lane: Option<Lane>)
    requires Rightful(st, h.owner, id, lane)
    requires match call
      case CallLoad => id !in LeaseStore.Free(st, h, now)
      case CallAcquire(job) => job.id != id
      case CallSave(job) => job.id != id
      case CallRemove(other) => true
      case CallRenew(ids) => LeaseLaws.OnTime(st, h, now, ids)
      case CallAdopt => id !in LeaseStore.Taken(st, h, now)
    ensures Rightful(LeaseLaws.After(st, h, now, call), h.owner, id, lane)
  {
    match call
    case CallLoad => LeaseStore.RequeueEffect(st, h, now, LeaseStore.Free(st, h, now));
    case CallAcquire(job) =>
    case CallSave(job) =>
    case CallRemove(other) =>
    case CallRenew(ids) => LeaseStore.RenewEffect(st, h, now, ids);
    case CallAdopt => LeaseStore.RequeueEffect(st, h, now, LeaseStore.Taken(st, h, now));
  }

  // ---- A worker whose queue moves ----

  lemma QueueMoves(st: Store, settled: set<JobId>, o: Owner, w: Worker, ev: Event, prompt: bool)
    requires WorkerOk(st, settled, o, w, prompt) && Enabled(w.q, ev)
    requires ev.AcquireReply? && ev.reply == Answered ==>
      ev.id in w.landed && w.landed[ev.id].op.Acquire? && w.landed[ev.id].answer == LeaseStore.Done
    ensures
      var q := Step(w.q, ev);
      WorkerOk(st, settled + Ended(q), o, w.(q := q, landed := w.landed - Replied(ev).Keys), prompt)
  {
    hide Inv, Step, Grows, Ended, Rightful, Enabled;
    var q := Step(w.q, ev);
    StepInv(w.q, ev);
    StepGrows(w.q, ev);
    GrowsAges(w.q, q, Replied(ev));
    QueuePending(w, ev);
    RepliedHere(w.q, ev);
    if prompt { QueueLanes(st, o, w, ev); }
  }

  lemma RepliedHere(q: Queue, ev: Event)
    requires Enabled(q, ev)
    ensures forall id :: id in Replied(ev) ==> id in q.entries
  {
  }

  lemma QueuePending(w: Worker, ev: Event)
    requires Inv(w.q) && Pending(w) && Grows(w.q, Step(w.q, ev), Replied(ev))
    ensures Pending(w.(q := Step(w.q, ev), landed := w.landed - Replied(ev).Keys))
  {
    hide Inv, Step, Evolves, Sails;
    var q := Step(w.q, ev);
    forall id | id in w.landed && id !in Replied(ev)
      ensures id in q.entries && q.entries[id].chain != [] && q.entries[id].chain[0] == w.landed[id].op {
      assert w.q.entries[id].chain <= q.entries[id].chain;
    }
  }

  lemma QueueLanes(st: Store, o: Owner, w: Worker, ev: Event)
    requires Inv(w.q) && Pending(w) && Lanes(st, o, w) && Grows(w.q, Step(w.q, ev), Replied(ev))
    requires forall id :: id in Replied(ev) ==> id in w.q.entries
    requires ev.AcquireReply? && ev.reply == Answered ==>
      ev.id in w.landed && w.landed[ev.id].op.Acquire? && w.landed[ev.id].answer == LeaseStore.Done
    ensures Lanes(st, o, w.(q := Step(w.q, ev), landed := w.landed - Replied(ev).Keys))
  {
    hide Inv, Step, Rightful, Grows, Sails;
    var q := Step(w.q, ev);
    var w' := w.(q := q, landed := w.landed - Replied(ev).Keys);
    forall id | id in q.entries && Sails(q.cfg, q.entries[id]) ensures Rightful(st, o, id, q.entries[id].lane) {
      SailsSince(w.q, q, Replied(ev), id);
      if id in Replied(ev) && Replied(ev)[id] { assert Granted(w, id); }
    }
    forall id | Granted(w', id) ensures Rightful(st, o, id, q.entries[id].lane) {
      OpenSince(w.q, q, Replied(ev), id);
      assert Granted(w, id);
    }
  }

  /** A job that sails after a section sailed before it, unless the section granted it its lane. */
  lemma SailsSince(q: Queue, q': Queue, replied: map<JobId, bool>, id: JobId)
    requires Grows(q, q', replied) && id in q'.entries && Sails(q'.cfg, q'.entries[id])
    requires forall x :: x in replied ==> x in q.entries
    ensures id in q.entries && q'.entries[id].lane == q.entries[id].lane && !Terminal(q.entries[id].state)
    ensures !(id in replied && replied[id]) ==> Sails(q.cfg, q.entries[id])
  {
    hide Rest;
  }

  lemma OpenSince(q: Queue, q': Queue, replied: map<JobId, bool>, id: JobId)
    requires Grows(q, q', replied) && id in q.entries && id in q'.entries && !Terminal(q'.entries[id].state)
    ensures q'.entries[id].lane == q.entries[id].lane && !Terminal(q.entries[id].state)
  {
    hide Rest, FollowsBut, Sails;
  }

  // ---- A store call ----

  /** Another worker's call leaves this worker's account of things true. */
  lemma OthersCall(st: Store, settled: set<JobId>, o: Owner, w: Worker, h: LeaseStore.Handle, now: int, call: LeaseLaws.Call, prompt: bool)
    requires WorkerOk(st, settled, o, w, prompt) && h.owner != o
    requires call.CallRemove? ==> call.id in settled
    ensures WorkerOk(LeaseLaws.After(st, h, now, call), settled, o, w, prompt)
  {
    hide Inv, LeaseLaws.After, Sails, Ended;
    var after := LeaseLaws.After(st, h, now, call);
    forall id, lane | Rightful(st, o, id, lane) ensures Rightful(after, o, id, lane) { NotInMyName(st, h, now, call, id); }
    forall id | id in st.rows && id !in settled ensures id in after.rows { OnlyRemoveRemoves(st, h, now, call, id); }
  }

  /** Which of its own calls keep a worker's account true: the ones about no job it is running or has been granted. */
  ghost predicate Harmless(st: Store, w: Worker, h: LeaseStore.Handle, now: int, call: LeaseLaws.Call) {
    forall id :: AtWork(w, id) ==>
      match call
      case CallLoad => id !in LeaseStore.Free(st, h, now)
      case CallAcquire(job) => job.id != id
      case CallSave(job) => job.id != id
      case CallRemove(other) => true
      case CallRenew(ids) => LeaseLaws.OnTime(st, h, now, ids)
      case CallAdopt => id !in LeaseStore.Taken(st, h, now)
  }

  lemma OwnCall(st: Store, settled: set<JobId>, o: Owner, w: Worker, h: LeaseStore.Handle, now: int, call: LeaseLaws.Call, prompt: bool)
    requires WorkerOk(st, settled, o, w, prompt) && h.owner == o
    requires call.CallRemove? ==> call.id in settled
    requires prompt ==> Harmless(st, w, h, now, call)
    ensures WorkerOk(LeaseLaws.After(st, h, now, call), settled, o, w, prompt)
  {
    hide Inv, LeaseLaws.After, Sails, Ended, Rightful, LeaseLaws.OnTime;
    var after := LeaseLaws.After(st, h, now, call);
    forall id | prompt && AtWork(w, id)
      ensures Rightful(after, o, id, w.q.entries[id].lane) {
      OwnRowKept(st, h, now, call, id, w.q.entries[id].lane);
    }
    forall id | id in st.rows && id !in settled ensures id in after.rows { OnlyRemoveRemoves(st, h, now, call, id); }
  }

  // ---- Every move ----

  lemma MoreSettled(st: Store, settled: set<JobId>, more: set<JobId>, o: Owner, w: Worker, prompt: bool)
    requires WorkerOk(st, settled, o, w, prompt)
    ensures WorkerOk(st, settled + more, o, w, prompt)
  {
    hide Inv, Lanes, Pending, Ended;
  }

  lemma AdvanceOk(world: World, o: Owner, w: Worker, ev: Event, prompt: bool)
    requires WorldOk(world, prompt) && o in world.workers
    requires w.q == world.workers[o].q && w.landed == world.workers[o].landed && Enabled(w.q, ev)
    requires ev.AcquireReply? && ev.reply == Answered ==>
      ev.id in w.landed && w.landed[ev.id].op.Acquire? && w.landed[ev.id].answer == LeaseStore.Done
    ensures WorldOk(Advance(world, o, w, ev), prompt)
  {
    hide WorkerOk, Enabled, Step, Ended, LeaseStore.Valid, LeaseLaws.LaneExclusive, Replied;
    assert WorkerOk(world.store, world.settled, o, world.workers[o], prompt);
    SameWorker(world.store, world.settled, o, world.workers[o], w, prompt);
    QueueMoves(world.store, world.settled, o, w, ev, prompt);
    forall p | p in world.workers ensures WorkerOk(world.store, world.settled + Ended(Step(w.q, ev)), p, world.workers[p], prompt) {
      MoreSettled(world.store, world.settled, Ended(Step(w.q, ev)), p, world.workers[p], prompt);
    }
  }

  /** The beats and the load a worker is waiting to hear about are no part of its account. */
  lemma SameWorker(st: Store, settled: set<JobId>, o: Owner, w: Worker, w': Worker, prompt: bool)
    requires WorkerOk(st, settled, o, w, prompt) && w'.q == w.q && w'.landed == w.landed
    ensures WorkerOk(st, settled, o, w', prompt)
  {
    hide Inv, Sails, Rightful, Ended;
    assert forall id :: Granted(w', id) <==> Granted(w, id);
  }

  lemma WorkerHolds(world: World, o: Owner, prompt: bool)
    requires WorldOk(world, prompt) && o in world.workers
    ensures WorkerOk(world.store, world.settled, o, world.workers[o], prompt)
    ensures Inv(world.workers[o].q) && Pending(world.workers[o]) && Shared(world.workers[o].q.cfg)
    ensures Accounted(world.store, world.settled, world.workers[o])
  {
    hide Inv, Lanes, LeaseStore.Valid, LeaseLaws.LaneExclusive;
  }

  lemma HearOk(world: World, m: Move, prompt: bool)
    requires WorldOk(world, prompt) && Can(world, m) && m.Hear?
    ensures WorldOk(Do(world, m), prompt)
  {
    hide WorldOk, Inv, Step, Ended;
    var o, id, w := m.o, m.id, world.workers[m.o];
    WorkerHolds(world, o, prompt);
    var op := w.q.entries[id].chain[0];
    var answer := if m.ok then Some(w.landed[id].answer) else None;
    var ev := ReplyEvent(id, op, answer, m.cause, world.clock);
    ReplyEnabled(w.q, id, answer, m.cause, world.clock);
    AdvanceOk(world, o, w, ev, prompt);
    if ev.CreateReply? && ev.landed {
      assert id in world.store.rows || id in world.settled;
      WrittenOk(Advance(world, o, w, ev), id, prompt);
    }
  }

  lemma ReplyEnabled(q: Queue, id: JobId, answer: Option<LeaseStore.Answer>, cause: string, now: int)
    requires id in q.entries && q.entries[id].chain != []
    ensures Enabled(q, ReplyEvent(id, q.entries[id].chain[0], answer, cause, now))
  {
  }

  lemma WrittenOk(world: World, id: JobId, prompt: bool)
    requires WorldOk(world, prompt) && (id in world.store.rows || id in world.settled)
    ensures WorldOk(world.(written := world.written + {id}), prompt)
  {
    hide WorkerOk, LeaseStore.Valid, LeaseLaws.LaneExclusive;
  }

  /** A store call by `o`, of a kind its queue makes. */
  lemma StoreCallOk(world: World, o: Owner, call: LeaseLaws.Call, prompt: bool)
    requires WorldOk(world, prompt) && o in world.workers
    requires call.CallSave? ==> Discreet(call.job)
    requires prompt && call.CallRenew? ==> LeaseLaws.OnTime(world.store, HandleOf(world, o), world.clock, call.ids)
    requires call.CallRemove? ==> call.id in world.settled
    requires prompt ==> Harmless(world.store, world.workers[o], HandleOf(world, o), world.clock, call)
    ensures WorldOk(world.(store := LeaseLaws.After(world.store, HandleOf(world, o), world.clock, call)), prompt)
  {
    hide WorkerOk, LeaseStore.Valid, LeaseLaws.LaneExclusive, LeaseLaws.After, LeaseLaws.OnTime, Harmless;
    var h := HandleOf(world, o);
    LeaseLaws.AfterKeepsValid(world.store, h, world.clock, call);
    if prompt { LeaseLaws.CallKeepsLanes(world.store, h, world.leaseMs, world.clock, call); }
    var after := LeaseLaws.After(world.store, h, world.clock, call);
    forall p | p in world.workers ensures WorkerOk(after, world.settled, p, world.workers[p], prompt) {
      if p == o { OwnCall(world.store, world.settled, o, world.workers[o], h, world.clock, call, prompt); }
      else { OthersCall(world.store, world.settled, p, world.workers[p], h, world.clock, call, prompt); }
    }
    forall id | id in world.written && id !in world.settled ensures id in after.rows {
      OnlyRemoveRemoves(world.store, h, world.clock, call, id);
    }
  }

  lemma WorkerSwapped(world: World, o: Owner, w: Worker, prompt: bool)
    requires WorldOk(world, prompt) && o in world.workers && WorkerOk(world.store, world.settled, o, w, prompt)
    ensures WorldOk(world.(workers := world.workers[o := w]), prompt)
  {
    hide WorkerOk, LeaseStore.Valid, LeaseLaws.LaneExclusive;
  }

  /** What the invariant of its queue says about the write a worker is about to make. */
  lemma WriteIsFit(w: Worker, id: JobId)
    requires Inv(w.q) && Shared(w.q.cfg) && id in w.q.entries && w.q.entries[id].chain != []
    ensures
      var e, op := w.q.entries[id], w.q.entries[id].chain[0];
      && e.id == id && !Sails(w.q.cfg, e)
      && (CallOf(op, id).CallSave? ==> CallOf(op, id).job.id == id && Discreet(CallOf(op, id).job))
      && (op.Acquire? ==> op.job.id == id && op.job.state == Running && op.job.lane == e.lane)
      && (op.Remove? ==> id in Ended(w.q))
  {
    hide Inv;
    Here(w.q, id);
    assert OpOk(w.q.cfg, w.q.entries[id], w.q.entries[id].chain[0]);
  }

  lemma CallOk(world: World, o: Owner, id: JobId, prompt: bool)
    requires WorldOk(world, prompt) && Can(world, Call(o, id))
    ensures WorldOk(Do(world, Call(o, id)), prompt)
  {
    hide WorldOk, WorkerOk, Inv, Sails, LeaseLaws.After, LeaseStore.Save, LeaseStore.Acquire, Rightful;
    var w, h := world.workers[o], HandleOf(world, o);
    var op := w.q.entries[id].chain[0];
    var call := CallOf(op, id);
    WorkerHolds(world, o, prompt);
    WriteIsFit(w, id);
    assert Harmless(world.store, w, h, world.clock, call);
    StoreCallOk(world, o, call, prompt);
    var mid := world.(store := LeaseLaws.After(world.store, h, world.clock, call));
    WorkerHolds(mid, o, prompt);
    var w' := w.(landed := w.landed[id := Landed(op, AnswerTo(world.store, h, world.clock, op))]);
    LandedOk(world, o, id, prompt);
    WorkerSwapped(mid, o, w', prompt);
  }

  lemma LandedOk(world: World, o: Owner, id: JobId, prompt: bool)
    requires o in world.workers && id in world.workers[o].q.entries && world.workers[o].q.entries[id].chain != []
    requires id !in world.workers[o].landed
    requires
      var w := world.workers[o];
      var op := w.q.entries[id].chain[0];
      && (CallOf(op, id).CallSave? ==> CallOf(op, id).job.id == id)
      && (op.Acquire? ==> op.job.id == id && op.job.state == Running && op.job.lane == w.q.entries[id].lane)
      && WorkerOk(LeaseLaws.After(world.store, HandleOf(world, o), world.clock, CallOf(op, id)), world.settled, o, w, prompt)
    ensures
      var w, h := world.workers[o], HandleOf(world, o);
      var op := w.q.entries[id].chain[0];
      WorkerOk(LeaseLaws.After(world.store, h, world.clock, CallOf(op, id)), world.settled, o,
               w.(landed := w.landed[id := Landed(op, AnswerTo(world.store, h, world.clock, op))]), prompt)
  {
    hide Inv, Sails, LeaseLaws.LaneExclusive, Ended;
    var w, h := world.workers[o], HandleOf(world, o);
    var op := w.q.entries[id].chain[0];
    var after := LeaseLaws.After(world.store, h, world.clock, CallOf(op, id));
    var w' := w.(landed := w.landed[id := Landed(op, AnswerTo(world.store, h, world.clock, op))]);
    forall x | prompt && Granted(w', x) ensures Rightful(after, o, x, w.q.entries[x].lane) {
      if x != id { assert Granted(w, x); }
    }
  }

  lemma BeatCallOk(world: World, m: Move, prompt: bool)
    requires WorldOk(world, prompt) && Can(world, m) && (prompt ==> Punctual(world, m))
    requires m.CallRenew? || m.CallAdopt? || m.CallLoad?
    ensures WorldOk(Do(world, m), prompt)
  {
    hide WorldOk, WorkerOk, Inv, Sails, LeaseStore.Renew, LeaseStore.Adopt, LeaseStore.Load, LeaseLaws.OnTime;
    var o := m.o;
    var w := world.workers[o];
    var call := if m.CallRenew? then LeaseLaws.CallRenew(m.ids) else if m.CallAdopt? then LeaseLaws.CallAdopt else LeaseLaws.CallLoad;
    if prompt {
      WorkerHolds(world, o, prompt);
      assert Harmless(world.store, w, HandleOf(world, o), world.clock, call);
    }
    StoreCallOk(world, o, call, prompt);
    var mid := world.(store := LeaseLaws.After(world.store, HandleOf(world, o), world.clock, call));
    var w' := Do(world, m).workers[o];
    WorkerHolds(mid, o, prompt);
    SameWorker(mid.store, mid.settled, o, w, w', prompt);
    WorkerSwapped(mid, o, w', prompt);
  }

  lemma StartOk(world: World, o: Owner, cfg: Config, paused: bool, prompt: bool)
    requires WorldOk(world, prompt) && Can(world, Start(o, cfg, paused))
    ensures WorldOk(Do(world, Start(o, cfg, paused)), prompt)
  {
    hide Inv, LeaseStore.Valid, LeaseLaws.LaneExclusive;
    FreshInv(cfg, paused);
  }

  /** Every move keeps the invariant, so long as beats outrun the lease. */
  lemma MoveOk(world: World, m: Move, prompt: bool)
    requires WorldOk(world, prompt) && Can(world, m) && (prompt ==> Punctual(world, m))
    ensures WorldOk(Do(world, m), prompt)
  {
    hide WorldOk, WorkerOk, Inv, Step, Ended, Advance, LeaseStore.Renew, LeaseStore.Adopt, LeaseStore.Load;
    match m
    case Tick(to) => TickOk(world, to, prompt);
    case Start(o, cfg, paused) => StartOk(world, o, cfg, paused, prompt);
    case Crash(o) => CrashOk(world, o, prompt);
    case Local(o, ev) => LocalOk(world, o, ev, prompt);
    case Call(o, id) => CallOk(world, o, id, prompt);
    case Hear(_, _, _, _) => HearOk(world, m, prompt);
    case HearRenew(o, beat, ok) =>
      var w := world.workers[o];
      AdvanceOk(world, o, w.(renewed := w.renewed - {beat}), RenewReply(beat, if ok then w.renewed[beat] else [], world.clock), prompt);
    case HearAdopt(o, beat, ok) =>
      var w := world.workers[o];
      StoreHere(world, o, prompt);
      AdvanceOk(world, o, w.(adopted := w.adopted - {beat}), AdoptReply(beat, if ok then w.adopted[beat] else [], world.clock), prompt);
    case HearLoad(o, ok) =>
      var w := world.workers[o];
      StoreHere(world, o, prompt);
      AdvanceOk(world, o, w.(loading := true, loaded := None),
                if ok then RecoverReply(w.loaded.value, world.clock) else RecoverFailed, prompt);
    case _ => BeatCallOk(world, m, prompt);
  }

  lemma LocalOk(world: World, o: Owner, ev: Event, prompt: bool)
    requires WorldOk(world, prompt) && Can(world, Local(o, ev))
    ensures WorldOk(Do(world, Local(o, ev)), prompt)
  {
    hide WorldOk, Advance;
    AdvanceOk(world, o, world.workers[o], ev, prompt);
  }

  lemma StoreHere(world: World, o: Owner, prompt: bool)
    requires WorldOk(world, prompt) && o in world.workers
    ensures world.workers[o].q.cfg.hasStore
  {
    hide WorldOk;
    WorkerHolds(world, o, prompt);
    ConfigOf(world.workers[o].q);
  }

  lemma TickOk(world: World, to: int, prompt: bool)
    requires WorldOk(world, prompt) && world.clock <= to
    ensures WorldOk(world.(clock := to), prompt)
  {
    hide WorkerOk, LeaseStore.Valid, LeaseLaws.LaneExclusive;
    if prompt { LeaseLaws.TimePassing(world.store, world.leaseMs, world.clock, to); }
  }

  lemma CrashOk(world: World, o: Owner, prompt: bool)
    requires WorldOk(world, prompt)
    ensures WorldOk(world.(crashed := world.crashed + {o}), prompt)
  {
    hide WorkerOk, LeaseStore.Valid, LeaseLaws.LaneExclusive;
  }

  lemma EmptyOk(leaseMs: int, clock: int, prompt: bool)
    ensures WorldOk(Empty(leaseMs, clock), prompt)
  {
  }

  lemma {:induction false} PlayOk(world: World, moves: seq<Move>, prompt: bool)
    requires WorldOk(world, prompt) && (prompt ==> AllPunctual(world, moves))
    ensures WorldOk(Play(world, moves), prompt) && Play(world, moves).leaseMs == world.leaseMs
    decreases |moves|
  {
    hide WorldOk, Can, Do, Punctual;
    if moves != [] {
      if Can(world, moves[0]) {
        MoveOk(world, moves[0], prompt);
        SameLease(world, moves[0]);
        PlayOk(Do(world, moves[0]), moves[1..], prompt);
      } else { PlayOk(world, moves[1..], prompt); }
    }
  }

  lemma SameLease(world: World, m: Move)
    requires Can(world, m)
    ensures Do(world, m).leaseMs == world.leaseMs
  {
    hide Step, Ended, LeaseLaws.After, LeaseStore.Renew, LeaseStore.Adopt, LeaseStore.Load;
  }

  // ---- Cross-worker lane exclusion ----

  ghost predicate LiveClaim(world: World, o: Owner, id: JobId) {
    id in world.store.leases && world.store.leases[id].owner == o
    && LeaseStore.Live(world.store.leases[id], world.leaseMs, world.clock)
  }

  ghost predicate Handling(world: World, o: Owner, id: JobId, lane: Lane) {
    o in world.workers && id in world.workers[o].q.active
    && id in world.workers[o].q.entries && world.workers[o].q.entries[id].lane == Some(lane)
  }

  lemma RunningRow(world: World, o: Owner, id: JobId, lane: Lane)
    requires WorldOk(world, true) && Handling(world, o, id, lane) && LiveClaim(world, o, id)
    ensures LeaseLaws.RunsLive(world.store, world.leaseMs, world.clock, id)
    ensures world.store.rows[id].lane == Some(lane)
  {
    hide WorldOk, Inv;
    WorkerHolds(world, o, true);
    Here(world.workers[o].q, id);
    assert Sails(world.workers[o].q.cfg, world.workers[o].q.entries[id]);
    assert Rightful(world.store, o, id, Some(lane));
  }

  /** A move keeps each lane's live running rows in one owner's name, if it is not a late renewal. */
  lemma MoveKeepsRows(world: World, m: Move)
    requires WorldOk(world, false) && Can(world, m) && Timely(world, m)
    requires LeaseLaws.LaneExclusive(world.store, world.leaseMs, world.clock)
    ensures LeaseLaws.LaneExclusive(Do(world, m).store, Do(world, m).leaseMs, Do(world, m).clock)
  {
    hide WorldOk, Inv, Sails, Step, Ended, Advance, LeaseLaws.LaneExclusive, LeaseLaws.After, LeaseLaws.OnTime,
         LeaseStore.Renew, LeaseStore.Adopt, LeaseStore.Load;
    match m
    case Tick(to) => LeaseLaws.TimePassing(world.store, world.leaseMs, world.clock, to);
    case Call(o, id) =>
      var w := world.workers[o];
      WorkerHolds(world, o, false);
      WriteIsFit(w, id);
      LeaseLaws.CallKeepsLanes(world.store, HandleOf(world, o), world.leaseMs, world.clock, CallOf(w.q.entries[id].chain[0], id));
    case CallRenew(o, _, ids) => BeatKeepsRows(world, o, LeaseLaws.CallRenew(ids));
    case CallAdopt(o, _) => BeatKeepsRows(world, o, LeaseLaws.CallAdopt);
    case CallLoad(o) => BeatKeepsRows(world, o, LeaseLaws.CallLoad);
    case _ => AdvanceKeepsRows(world, m);
  }

  lemma BeatKeepsRows(world: World, o: Owner, call: LeaseLaws.Call)
    requires call.CallRenew? || call.CallAdopt? || call.CallLoad?
    requires LeaseLaws.LaneExclusive(world.store, world.leaseMs, world.clock)
    requires call.CallRenew? ==> LeaseLaws.OnTime(world.store, HandleOf(world, o), world.clock, call.ids)
    ensures call.CallRenew? ==>
      LeaseLaws.LaneExclusive(LeaseStore.Renew(world.store, HandleOf(world, o), world.clock, call.ids).0, world.leaseMs, world.clock)
    ensures call.CallAdopt? ==>
      LeaseLaws.LaneExclusive(LeaseStore.Adopt(world.store, HandleOf(world, o), world.clock).0, world.leaseMs, world.clock)
    ensures call.CallLoad? ==>
      LeaseLaws.LaneExclusive(LeaseStore.Load(world.store, HandleOf(world, o), world.clock).0, world.leaseMs, world.clock)
  {
    hide LeaseLaws.LaneExclusive, LeaseLaws.OnTime, LeaseStore.Renew, LeaseStore.Adopt, LeaseStore.Load;
    LeaseLaws.CallKeepsLanes(world.store, HandleOf(world, o), world.leaseMs, world.clock, call);
  }

  lemma AdvanceKeepsRows(world: World, m: Move)
    requires Can(world, m) && !m.Tick? && !Lands(m)
    ensures Do(world, m).store == world.store && Do(world, m).leaseMs == world.leaseMs && Do(world, m).clock == world.clock
  {
    hide Step, Ended, Enabled;
  }

  lemma {:induction false} PlayKeepsRows(world: World, moves: seq<Move>)
    requires WorldOk(world, false) && AllTimely(world, moves)
    requires LeaseLaws.LaneExclusive(world.store, world.leaseMs, world.clock)
    ensures var after := Play(world, moves); LeaseLaws.LaneExclusive(after.store, after.leaseMs, after.clock)
    decreases |moves|
  {
    hide WorldOk, Can, Do, Timely, LeaseLaws.LaneExclusive;
    if moves != [] {
      if Can(world, moves[0]) {
        MoveOk(world, moves[0], false);
        MoveKeepsRows(world, moves[0]);
        PlayKeepsRows(Do(world, moves[0]), moves[1..]);
      } else { PlayKeepsRows(world, moves[1..]); }
    }
  }

  /**
   * With any number of workers on one store, in every run where no renewal lands after its claim has lapsed, the
   * rows keep each lane to one owner: no two live running rows of a lane are in different names.
   */
  lemma RowsKeepLanes(leaseMs: int, clock: int, moves: seq<Move>)
    requires AllTimely(Empty(leaseMs, clock), moves)
    ensures
      var world := Play(Empty(leaseMs, clock), moves);
      LeaseLaws.LaneExclusive(world.store, leaseMs, world.clock)
  {
    hide WorldOk, Play, AllTimely;
    EmptyOk(leaseMs, clock, false);
    PlayOk(Empty(leaseMs, clock), moves, false);
    PlayKeepsRows(Empty(leaseMs, clock), moves);
  }

  /**
   * And in every such run in which no worker is handed back a job it still has under way in a lane, no two
   * workers with live claims run handlers in one lane.
   */
  lemma OneHandlerPerLane(leaseMs: int, clock: int, moves: seq<Move>, o: Owner, p: Owner, a: JobId, b: JobId, lane: Lane)
    requires AllPunctual(Empty(leaseMs, clock), moves)
    ensures
      var world := Play(Empty(leaseMs, clock), moves);
      Handling(world, o, a, lane) && LiveClaim(world, o, a) && Handling(world, p, b, lane) && LiveClaim(world, p, b) ==> o == p
  {
    hide WorldOk, Play, AllPunctual;
    EmptyOk(leaseMs, clock, true);
    PlayOk(Empty(leaseMs, clock), moves, true);
    var world := Play(Empty(leaseMs, clock), moves);
    RowsExclusive(world);
    if Handling(world, o, a, lane) && LiveClaim(world, o, a) && Handling(world, p, b, lane) && LiveClaim(world, p, b) {
      RunningRow(world, o, a, lane);
      RunningRow(world, p, b, lane);
    }
  }

  lemma RowsExclusive(world: World)
    requires WorldOk(world, true)
    ensures LeaseLaws.LaneExclusive(world.store, world.leaseMs, world.clock)
  {
    hide WorkerOk, LeaseStore.Valid, LeaseLaws.LaneExclusive;
  }

  // ---- No accepted job is lost ----

  /** From the moment `stored` resolves until some worker ends the job, its row is in the store, crashes or no. */
  lemma NoJobLost(leaseMs: int, clock: int, moves: seq<Move>, id: JobId)
    ensures
      var world := Play(Empty(leaseMs, clock), moves);
      id in world.written ==> id in world.store.rows || id in world.settled
  {
    hide WorldOk, Play;
    EmptyOk(leaseMs, clock, false);
    PlayOk(Empty(leaseMs, clock), moves, false);
    RowsKept(Play(Empty(leaseMs, clock), moves), id);
  }

  lemma RowsKept(world: World, id: JobId)
    requires WorldOk(world, false)
    ensures id in world.written ==> id in world.store.rows || id in world.settled
  {
    hide WorkerOk, LeaseStore.Valid, LeaseLaws.LaneExclusive;
  }

  /** Nothing `dead` had asked of the store lands in this run. */
  ghost predicate Settled(moves: seq<Move>, dead: Owner) {
    forall k :: 0 <= k < |moves| && Lands(moves[k]) ==> moves[k].o != dead
  }

  /** What a crashed worker held nobody else touches except by taking it over. */
  lemma MoveKeepsCrashed(world: World, m: Move, dead: Owner, id: JobId)
    requires Can(world, m) && dead in world.crashed && (Lands(m) ==> m.o != dead)
    ensures
      var after := Do(world, m);
      dead in after.crashed && LeftAlone(world.store, after.store, dead, id)
  {
    hide LeaseLaws.After, LeaseStore.Renew, LeaseStore.Adopt, LeaseStore.Load, Step, Ended, Enabled;
    match m {
      case Call(o, x) =>
        NotInMyName(world.store, HandleOf(world, o), world.clock, CallOf(world.workers[o].q.entries[x].chain[0], x), id);
      case CallRenew(o, beat, ids) => BeatNotInMyName(world.store, HandleOf(world, o), world.clock, ids, dead, id);
      case CallAdopt(o, beat) => BeatNotInMyName(world.store, HandleOf(world, o), world.clock, [], dead, id);
      case CallLoad(o) => BeatNotInMyName(world.store, HandleOf(world, o), world.clock, [], dead, id);
      case _ =>
    }
  }

  lemma BeatNotInMyName(st: Store, h: LeaseStore.Handle, now: int, ids: seq<JobId>, dead: Owner, id: JobId)
    requires h.owner != dead
    ensures LeftAlone(st, LeaseStore.Renew(st, h, now, ids).0, dead, id)
    ensures LeftAlone(st, LeaseStore.Adopt(st, h, now).0, dead, id)
    ensures LeftAlone(st, LeaseStore.Load(st, h, now).0, dead, id)
  {
    hide LeaseStore.Renew, LeaseStore.Adopt, LeaseStore.Load, LeaseLaws.SameAt;
    NotInMyName(st, h, now, LeaseLaws.CallRenew(ids), id);
    NotInMyName(st, h, now, LeaseLaws.CallAdopt, id);
    NotInMyName(st, h, now, LeaseLaws.CallLoad, id);
  }

  ghost predicate LeftAlone(st: Store, after: Store, dead: Owner, id: JobId) {
    id in after.leases && after.leases[id].owner == dead ==> LeaseLaws.SameAt(st, after, id)
  }

  /**
   * A crashed worker's job waits as it was left: over any moves in which none of the calls it had in flight
   * lands, for as long as the claim is in its name the row is the one that stood there, attempts included.
   */
  lemma {:induction false} CrashedRowWaits(world: World, moves: seq<Move>, dead: Owner, id: JobId)
    requires dead in world.crashed && Settled(moves, dead)
    ensures
      var after := Play(world, moves);
      LeftAlone(world.store, after.store, dead, id)
    decreases |moves|
  {
    hide Can, Do;
    if moves != [] {
      assert forall k :: 0 <= k < |moves[1..]| ==> moves[1..][k] == moves[k + 1];
      if Can(world, moves[0]) {
        MoveKeepsCrashed(world, moves[0], dead, id);
        CrashedRowWaits(Do(world, moves[0]), moves[1..], dead, id);
      } else { CrashedRowWaits(world, moves[1..], dead, id); }
    }
  }

  /** Once its claim has lapsed, such a job is every other worker's to load or adopt, and comes with its attempts. */
  lemma LapsedIsTaken(st: Store, h: LeaseStore.Handle, now: int, id: JobId)
    requires LeaseStore.Valid(st) && id in st.rows && id in st.leases && h.leaseMs.Some?
    requires st.leases[id].owner != h.owner && !LeaseStore.Live(st.leases[id], h.leaseMs.value, now)
    ensures id in LeaseStore.Free(st, h, now) && id in LeaseStore.Strays(st, h, now)
    ensures st.rows[id] in LeaseStore.Load(st, h, now).1
    ensures |LeaseStore.Strays(st, h, now)| <= LeaseStore.ADOPTION_BATCH ==>
      st.rows[id].(state := Queued) in LeaseStore.Adopt(st, h, now).1
  {
    var ids := LeaseStore.Free(st, h, now);
    assert id in ids;
    var k :| 0 <= k < |ids| && ids[k] == id;
    assert LeaseStore.Load(st, h, now).1[k] == st.rows[id];
    LeaseLaws.StraysListed(st, h, now);
    assert id in LeaseStore.Strays(st, h, now);
    if |LeaseStore.Strays(st, h, now)| <= LeaseStore.ADOPTION_BATCH {
      var taken := LeaseStore.Taken(st, h, now);
      var j :| 0 <= j < |taken| && taken[j] == id;
      LeaseLaws.AdoptWritesBack(st, h, now, j);
      LeaseStore.RequeueEffect(st, h, now, taken);
      assert LeaseStore.Adopt(st, h, now).1[j] == st.rows[id].(state := Queued);
    }
  }

  /**
   * So crashed work comes back. Whatever of its calls land after the crash, from the moment a claim in the dead
   * worker's name lapses every other worker may load the row or adopt it; and once no more of them land the row
   * keeps the attempt count it has.
   */
  lemma CrashedWorkComesBack(leaseMs: int, clock: int, before: seq<Move>, dead: Owner, landing: seq<Move>, after: seq<Move>,
                             id: JobId, o: Owner)
    requires Can(Play(Empty(leaseMs, clock), before), Crash(dead)) && o != dead && Settled(after, dead)
    ensures
      var landed := Play(Do(Play(Empty(leaseMs, clock), before), Crash(dead)), landing);
      var world := Play(landed, after);
      id in world.store.rows && id in world.store.leases && world.store.leases[id].owner == dead ==>
        && id in landed.store.rows && world.store.rows[id].attempt == landed.store.rows[id].attempt
        && (!LeaseStore.Live(world.store.leases[id], leaseMs, world.clock) ==>
             && id in LeaseStore.Free(world.store, HandleOf(world, o), world.clock)
             && id in LeaseStore.Strays(world.store, HandleOf(world, o), world.clock))
  {
    hide WorldOk, Play, Can, Settled, LeaseStore.Free, LeaseStore.Strays, LeaseStore.Valid;
    var start := Play(Empty(leaseMs, clock), before);
    EmptyOk(leaseMs, clock, false);
    PlayOk(Empty(leaseMs, clock), before, false);
    MoveOk(start, Crash(dead), false);
    var crashed := Do(start, Crash(dead));
    PlayOk(crashed, landing, false);
    var landed := Play(crashed, landing);
    PlayOk(landed, after, false);
    var world := Play(landed, after);
    StaysCrashed(crashed, landing, dead);
    CrashedRowWaits(landed, after, dead, id);
    StoreValid(world);
    if id in world.store.rows && id in world.store.leases && world.store.leases[id].owner == dead {
      if !LeaseStore.Live(world.store.leases[id], leaseMs, world.clock) {
        LapsedIsTaken(world.store, HandleOf(world, o), world.clock, id);
      }
    }
  }

  lemma {:induction false} StaysCrashed(world: World, moves: seq<Move>, dead: Owner)
    requires dead in world.crashed
    ensures dead in Play(world, moves).crashed
    decreases |moves|
  {
    hide Can, Do;
    if moves != [] {
      if Can(world, moves[0]) {
        MoveStaysCrashed(world, moves[0], dead);
        StaysCrashed(Do(world, moves[0]), moves[1..], dead);
      } else { StaysCrashed(world, moves[1..], dead); }
    }
  }

  lemma MoveStaysCrashed(world: World, m: Move, dead: Owner)
    requires Can(world, m) && dead in world.crashed
    ensures dead in Do(world, m).crashed
  {
    hide Step, Ended, Enabled, LeaseLaws.After, LeaseStore.Renew, LeaseStore.Adopt, LeaseStore.Load;
  }

  lemma StoreValid(world: World)
    requires WorldOk(world, false)
    ensures LeaseStore.Valid(world.store)
  {
    hide WorkerOk, LeaseStore.Valid;
  }
}
