/** A run of two workers on one store that shows why no worker may be handed back a job it still has under way. */
module ProtocolSurprises {
  import opened Jobs
  import opened Sequences
  import LeaseStore
  import LeaseLaws
  import opened QueueSpec
  import opened QueueInvariant
  import opened QueueRuns
  import opened QueueHistory
  import opened Protocol
  import opened ProtocolSafety

  /** A worker on a shared store: one slot, leases renewed, lanes claimed, and abandoned work adopted on every beat. */
  const SHARING := Config(1, 10, true, Some(1000), true, true, false, None, (payload: Payload, lane: Option<Lane>) => lane)

  function Laned(id: JobId, lane: Lane, now: int): StoredJob {
    StoredJob(id, Payload("{}"), Some(lane), 0, Queued, 0, now, None, None)
  }

  /** A queue that has been given nothing yet. */
  function Unused(beats: map<nat, Beat>, nextBeat: nat, armed: bool): Queue {
    Fresh(SHARING, false).(beats := beats, nextBeat := nextBeat, beatArmed := armed)
  }

  // ---- One queue is given one job, and runs it ----

  function Entered(job: StoredJob): Entry {
    NewEntry(SHARING, job).(chain := [Create(0, Record(NewEntry(SHARING, job)))])
  }

  function Claiming(job: StoredJob): Entry {
    NewEntry(SHARING, job).(durability := Stored, chain := [Acquire(ClaimOf(NewEntry(SHARING, job)))])
  }

  function Handled(job: StoredJob): Entry {
    NewEntry(SHARING, job).(durability := Stored, state := Running, attempt := job.attempt + 1)
  }

  function QueueEntered(q: Queue, job: StoredJob): Queue {
    q.(entries := map[job.id := Entered(job)], known := {job.id}, queued := [job.id], writes := map[0 := job.id], nextTicket := 1,
       beatArmed := true)
  }

  function QueueClaiming(q: Queue, job: StoredJob, lane: Lane): Queue {
    q.(entries := map[job.id := Claiming(job)], known := {job.id}, starting := {job.id}, holder := map[lane := job.id],
       nextTicket := 1, beatArmed := true)
  }

  function QueueHandling(q: Queue, job: StoredJob, lane: Lane): Queue {
    q.(entries := map[job.id := Handled(job)], known := {job.id}, active := {job.id}, holder := map[lane := job.id],
       nextTicket := 1, beatArmed := true)
  }

  lemma Enters(beats: map<nat, Beat>, nextBeat: nat, armed: bool, id: JobId, lane: Lane, now: int)
    ensures
      var q, job := Unused(beats, nextBeat, armed), Laned(id, lane, now);
      Step(q, Enqueued(job, now)) == QueueEntered(q, job)
  {
    hide Held, Record;
    var q, job := Unused(beats, nextBeat, armed), Laned(id, lane, now);
    var (q', e) := Created(q, NewEntry(SHARING, job));
    var q1 := AddQueued(q', e);
    assert q1 == q.(entries := map[id := e], known := {id}, queued := [id], writes := map[0 := id], nextTicket := 1);
    assert !Eligible(q1, now, id);
    assert Best(q1, now, 0) == -1 && Best(q1, now, 1) == -1;
    assert Fill(q1, now) == q1;
    assert Earliest(q1, now, 0) == None && Earliest(q1, now, 1) == None;
    assert Pump(q1, now) == q1.(beatArmed := true);
  }

  /** The queue once its job's first write has landed, before it pumps. */
  function QueueLanded(q: Queue, job: StoredJob): Queue {
    q.(entries := map[job.id := NewEntry(SHARING, job).(durability := Stored)], known := {job.id}, queued := [job.id],
       nextTicket := 1, beatArmed := true)
  }

  lemma FirstLands(beats: map<nat, Beat>, nextBeat: nat, armed: bool, id: JobId, lane: Lane, now: int)
    ensures
      var q, job := Unused(beats, nextBeat, armed), Laned(id, lane, now);
      var q0 := QueueEntered(q, job);
      PopWrite(q0.(entries := q0.entries[id := q0.entries[id].(durability := Stored)]), id) == QueueLanded(q, job)
  {
    hide Record;
    var q, job := Unused(beats, nextBeat, armed), Laned(id, lane, now);
    var q0 := QueueEntered(q, job);
    var told := q0.(entries := q0.entries[id := Entered(job).(durability := Stored)]);
    assert Entered(job).chain[1..] == [];
    assert map[0 := id] - {0} == map[];
    assert PopWrite(told, id).entries == map[id := NewEntry(SHARING, job).(durability := Stored)];
  }

  lemma Asks(beats: map<nat, Beat>, nextBeat: nat, armed: bool, id: JobId, lane: Lane, now: int)
    ensures
      var q, job := Unused(beats, nextBeat, armed), Laned(id, lane, now);
      Step(QueueEntered(q, job), CreateReply(id, true, "", now)) == QueueClaiming(q, job, lane)
  {
    hide Pump, PopWrite, ClaimOf;
    var q, job := Unused(beats, nextBeat, armed), Laned(id, lane, now);
    FirstLands(beats, nextBeat, armed, id, lane, now);
    var e := NewEntry(SHARING, job).(durability := Stored);
    AsksStarts(QueueLanded(q, job), id, lane, e, now);
    SameClaim(job);
  }

  lemma SameClaim(job: StoredJob)
    ensures ClaimOf(NewEntry(SHARING, job).(durability := Stored)) == ClaimOf(NewEntry(SHARING, job))
  {
  }

  lemma AsksStarts(q: Queue, id: JobId, lane: Lane, e: Entry, now: int)
    requires q.cfg == SHARING && q.entries == map[id := e] && q.queued == [id] && q.starting == {} && q.active == {}
    requires e.id == id && e.lane == Some(lane) && e.durability == Stored && e.dueAt == None && e.chain == [] && q.holder == map[]
    requires !q.paused && !q.closed && q.beatArmed && q.wake == None
    ensures Pump(q, now)
      == q.(queued := [], entries := map[id := e.(chain := [Acquire(ClaimOf(e))])], starting := {id}, holder := map[lane := id])
  {
    hide Held, ClaimOf;
    assert Best(q, now, 0) == -1 && Best(q, now, 1) == 0;
    assert DropAt([id], 0) == [];
    assert [] + [Acquire(ClaimOf(e))] == [Acquire(ClaimOf(e))];
    var r := q.(queued := [], entries := map[id := e.(chain := [Acquire(ClaimOf(e))])], starting := {id}, holder := map[lane := id]);
    assert {} + {id} == {id};
    assert Launch(q, 0) == r;
    assert Fill(r, now) == r;
  }

  lemma GrantFrees(beats: map<nat, Beat>, nextBeat: nat, armed: bool, id: JobId, lane: Lane, now: int)
    ensures
      var q, job := Unused(beats, nextBeat, armed), Laned(id, lane, now);
      Release(PopWrite(QueueClaiming(q, job, lane), id), id) == QueueLanded(q, job).(queued := [])
  {
    hide ClaimOf;
    var q, job := Unused(beats, nextBeat, armed), Laned(id, lane, now);
    assert Claiming(job).chain[1..] == [];
    assert {id} - {id} == {} && map[lane := id] - {lane} == map[];
  }

  lemma Runs(beats: map<nat, Beat>, nextBeat: nat, armed: bool, id: JobId, lane: Lane, now: int)
    ensures
      var q, job := Unused(beats, nextBeat, armed), Laned(id, lane, now);
      Step(QueueClaiming(q, job, lane), AcquireReply(id, Answered, now)) == QueueHandling(q, job, lane)
  {
    hide ClaimOf, Release, PopWrite;
    var q, job := Unused(beats, nextBeat, armed), Laned(id, lane, now);
    GrantFrees(beats, nextBeat, armed, id, lane, now);
    assert Begin(QueueLanded(q, job).(queued := []), id, true) == QueueHandling(q, job, lane);
  }

  // ---- The same in a world with a store ----

  /** A worker that has heard everything it has been told, with no beat answered. */
  function Idling(q: Queue): Worker {
    Worker(q, map[], map[], map[], false, None)
  }

  /** A move made, if it can be. */
  ghost function Next(world: World, m: Move): World {
    if Can(world, m) then Do(world, m) else world
  }

  lemma PlayOn(world: World, m: Move, rest: seq<Move>)
    ensures Play(world, [m] + rest) == Play(Next(world, m), rest)
  {
    assert ([m] + rest)[1..] == rest;
  }

  lemma {:induction false} PlayAll(world: World, a: seq<Move>, b: seq<Move>)
    ensures Play(world, a + b) == Play(Play(world, a), b)
    decreases |a|
  {
    hide Can, Do;
    if a == [] { assert a + b == b; }
    else {
      assert (a + b)[1..] == a[1..] + b;
      PlayAll(Next(world, a[0]), a[1..], b);
    }
  }

  function Swap(world: World, o: Owner, w: Worker): World {
    world.(workers := world.workers[o := w])
  }

  lemma Advances(world: World, o: Owner, w: Worker, ev: Event, q: Queue)
    requires Step(w.q, ev) == q && Ended(q) == {} && w.landed - Replied(ev).Keys == map[]
    ensures Advance(world, o, w, ev) == Swap(world, o, w.(q := q, landed := map[]))
  {
    hide Step, Ended;
  }

  /** A job given to a worker, written down, its lane claimed, and its handler called. */
  function Given(o: Owner, job: StoredJob, now: int): seq<Move> {
    [Local(o, Enqueued(job, now))] + ([Call(o, job.id)] + ([Hear(o, job.id, true, "")] + ([Call(o, job.id)] + ([Hear(o, job.id, true, "")] + []))))
  }

  /** The store once the job has been written and its lane granted. */
  function Running1(st: Store, o: Owner, job: StoredJob, now: int): Store {
    LeaseStore.Store(st.order + [job.id], st.rows[job.id := ClaimOf(NewEntry(SHARING, job))],
                     st.leases[job.id := LeaseStore.Lease(o, now)])
  }

  ghost predicate NothingEnded(q: Queue) {
    forall id :: id in q.entries ==> !Terminal(q.entries[id].state)
  }

  lemma NoneEnded(q: Queue)
    requires NothingEnded(q)
    ensures Ended(q) == {}
  {
  }

  /** A worker about to be given a job, in a store that has neither the job nor anyone running its lane. */
  ghost predicate Ready(world: World, o: Owner, w: Worker, beats: map<nat, Beat>, nextBeat: nat, armed: bool, job: StoredJob, lane: Lane) {
    && o in world.workers && o !in world.crashed && world.workers[o] == w
    && w.q == Unused(beats, nextBeat, armed) && w.landed == map[]
    && job == Laned(job.id, lane, world.clock) && job.id !in world.store.rows && job.id !in world.store.leases
    && (forall id :: id in world.store.rows && world.store.rows[id].lane == Some(lane) ==> world.store.rows[id].state != Running)
  }

  lemma GivenEnters(world: World, o: Owner, w: Worker, beats: map<nat, Beat>, nextBeat: nat, armed: bool, job: StoredJob, lane: Lane)
    requires Ready(world, o, w, beats, nextBeat, armed, job, lane)
    ensures
      var m := Local(o, Enqueued(job, world.clock));
      Next(world, m) == Swap(world, o, w.(q := QueueEntered(w.q, job)))
  {
    hide Step, Advance;
    Enters(beats, nextBeat, armed, job.id, lane, world.clock);
    NoneEnded(QueueEntered(w.q, job));
    Advances(world, o, w, Enqueued(job, world.clock), QueueEntered(w.q, job));
  }

  /** The store once the job has been written down. */
  function Written1(st: Store, o: Owner, job: StoredJob, now: int): Store {
    LeaseStore.Store(st.order + [job.id], st.rows[job.id := job], st.leases[job.id := LeaseStore.Lease(o, now)])
  }

  lemma GivenWrites(world: World, o: Owner, w: Worker, beats: map<nat, Beat>, nextBeat: nat, armed: bool, job: StoredJob, lane: Lane)
    requires Ready(world, o, w, beats, nextBeat, armed, job, lane)
    ensures
      var mid := Swap(world, o, w.(q := QueueEntered(w.q, job)));
      var op := Create(0, job);
      Next(mid, Call(o, job.id)) ==
           Swap(mid, o, w.(q := QueueEntered(w.q, job), landed := map[job.id := Landed(op, LeaseStore.Done)])).(
             store := Written1(world.store, o, job, world.clock))
  {
    assert Record(NewEntry(SHARING, job)) == job;
    assert LeaseStore.Save(world.store, HandleOf(world, o), world.clock, job)
      == (Written1(world.store, o, job, world.clock), LeaseStore.Done);
  }

  lemma GivenHears(world: World, o: Owner, w: Worker, beats: map<nat, Beat>, nextBeat: nat, armed: bool, job: StoredJob, lane: Lane,
                   st: Store)
    requires Ready(world, o, w, beats, nextBeat, armed, job, lane)
    ensures
      var op := Create(0, job);
      var mid := Swap(world, o, w.(q := QueueEntered(w.q, job), landed := map[job.id := Landed(op, LeaseStore.Done)])).(store := st);
      var m := Hear(o, job.id, true, "");
      Next(mid, m) == Swap(mid, o, w.(q := QueueClaiming(w.q, job, lane))).(written := world.written + {job.id})
  {
    hide Step, Advance, ClaimOf;
    var op := Create(0, job);
    var w1 := w.(q := QueueEntered(w.q, job), landed := map[job.id := Landed(op, LeaseStore.Done)]);
    var mid := Swap(world, o, w1).(store := st);
    Asks(beats, nextBeat, armed, job.id, lane, world.clock);
    NoneEnded(QueueClaiming(w.q, job, lane));
    assert Record(NewEntry(SHARING, job)) == job;
    assert w1.landed - {job.id} == map[];
    Advances(mid, o, w1, CreateReply(job.id, true, "", world.clock), QueueClaiming(w.q, job, lane));
    assert Swap(mid, o, w1.(q := QueueClaiming(w.q, job, lane), landed := map[])) == Swap(mid, o, w.(q := QueueClaiming(w.q, job, lane)));
  }

  lemma GivenClaims(world: World, o: Owner, w: Worker, beats: map<nat, Beat>, nextBeat: nat, armed: bool, job: StoredJob, lane: Lane)
    requires Ready(world, o, w, beats, nextBeat, armed, job, lane)
    ensures
      var mid := Swap(world, o, w.(q := QueueClaiming(w.q, job, lane))).(store := Written1(world.store, o, job, world.clock));
      var op := Acquire(ClaimOf(NewEntry(SHARING, job)));
      Next(mid, Call(o, job.id)) ==
           Swap(mid, o, w.(q := QueueClaiming(w.q, job, lane), landed := map[job.id := Landed(op, LeaseStore.Done)])).(
             store := Running1(world.store, o, job, world.clock))
  {
    var claim := ClaimOf(NewEntry(SHARING, job));
    var st := Written1(world.store, o, job, world.clock);
    var h := HandleOf(world, o);
    assert claim.id == job.id && claim.lane == Some(lane);
    assert !LeaseStore.LaneHeld(st, h, world.clock, claim) by {
      assert forall id :: id in st.rows && id != job.id ==> id in world.store.rows && st.rows[id] == world.store.rows[id];
    }
    ClaimLands(world.store, h, world.clock, job, claim);
    assert LeaseStore.Acquire(st, h, world.clock, claim) == (Running1(world.store, o, job, world.clock), LeaseStore.Done);
  }

  lemma ClaimLands(st: Store, h: LeaseStore.Handle, now: int, job: StoredJob, claim: StoredJob)
    requires job.id !in st.rows && job.id !in st.leases && claim.id == job.id && claim == ClaimOf(NewEntry(SHARING, job))
    ensures LeaseStore.Save(Written1(st, h.owner, job, now), h, now, claim) == (Running1(st, h.owner, job, now), LeaseStore.Done)
  {
    hide ClaimOf;
    assert st.rows[job.id := job][job.id := claim] == st.rows[job.id := claim];
    var lease := LeaseStore.Lease(h.owner, now);
    assert st.leases[job.id := lease][job.id := lease] == st.leases[job.id := lease];
  }

  lemma GivenStarts(world: World, o: Owner, w: Worker, beats: map<nat, Beat>, nextBeat: nat, armed: bool, job: StoredJob, lane: Lane,
                    st: Store)
    requires Ready(world, o, w, beats, nextBeat, armed, job, lane)
    ensures
      var op := Acquire(ClaimOf(NewEntry(SHARING, job)));
      var mid := Swap(world, o, w.(q := QueueClaiming(w.q, job, lane), landed := map[job.id := Landed(op, LeaseStore.Done)])).(store := st);
      var m := Hear(o, job.id, true, "");
      Next(mid, m) == Swap(mid, o, w.(q := QueueHandling(w.q, job, lane)))
  {
    hide Step, Advance, ClaimOf;
    var op := Acquire(ClaimOf(NewEntry(SHARING, job)));
    var w1 := w.(q := QueueClaiming(w.q, job, lane), landed := map[job.id := Landed(op, LeaseStore.Done)]);
    var mid := Swap(world, o, w1).(store := st);
    Runs(beats, nextBeat, armed, job.id, lane, world.clock);
    NoneEnded(QueueHandling(w.q, job, lane));
    assert w1.landed - {job.id} == map[];
    Advances(mid, o, w1, AcquireReply(job.id, Answered, world.clock), QueueHandling(w.q, job, lane));
    assert Swap(mid, o, w1.(q := QueueHandling(w.q, job, lane), landed := map[])) == Swap(mid, o, w.(q := QueueHandling(w.q, job, lane)));
  }

  lemma GivenRuns(world: World, o: Owner, w: Worker, beats: map<nat, Beat>, nextBeat: nat, armed: bool, job: StoredJob, lane: Lane)
    requires Ready(world, o, w, beats, nextBeat, armed, job, lane)
    ensures Play(world, Given(o, job, world.clock))
      == Swap(world, o, w.(q := QueueHandling(w.q, job, lane))).(
           store := Running1(world.store, o, job, world.clock), written := world.written + {job.id})
  {
    hide Next, Play, ClaimOf, Entered, Claiming, Handled, Laned, QueueEntered, QueueClaiming, QueueHandling, Unused, Step, Advance,
         Enabled, Ended, LeaseStore.Adopt, LeaseStore.Load, LeaseStore.Renew, LeaseStore.Save, LeaseStore.Acquire, LeaseLaws.After;
    var id, now := job.id, world.clock;
    var told, hear := world.(written := world.written + {id}), Hear(o, id, true, "");
    GivenEnters(world, o, w, beats, nextBeat, armed, job, lane);
    GivenWrites(world, o, w, beats, nextBeat, armed, job, lane);
    GivenHears(world, o, w, beats, nextBeat, armed, job, lane, Written1(world.store, o, job, now));
    assert Ready(told, o, w, beats, nextBeat, armed, job, lane);
    GivenClaims(told, o, w, beats, nextBeat, armed, job, lane);
    GivenStarts(told, o, w, beats, nextBeat, armed, job, lane, Running1(world.store, o, job, now));
    var w1 := Next(world, Local(o, Enqueued(job, now)));
    var w2 := Next(w1, Call(o, id));
    SwapAgain(world, o, w.(q := QueueEntered(w.q, job)), w.(q := QueueEntered(w.q, job), landed := map[id := Landed(Create(0, job), LeaseStore.Done)]));
    var w3 := Next(w2, hear);
    SwapAgain(world, o, w.(q := QueueEntered(w.q, job), landed := map[id := Landed(Create(0, job), LeaseStore.Done)]),
              w.(q := QueueClaiming(w.q, job, lane)));
    var w4 := Next(w3, Call(o, id));
    var op := Acquire(ClaimOf(NewEntry(SHARING, job)));
    SwapAgain(told, o, w.(q := QueueClaiming(w.q, job, lane)), w.(q := QueueClaiming(w.q, job, lane), landed := map[id := Landed(op, LeaseStore.Done)]));
    var w5 := Next(w4, hear);
    SwapAgain(told, o, w.(q := QueueClaiming(w.q, job, lane), landed := map[id := Landed(op, LeaseStore.Done)]), w.(q := QueueHandling(w.q, job, lane)));
    PlayOn(w4, hear, []);
    PlayOn(w3, Call(o, id), [hear] + []);
    PlayOn(w2, hear, [Call(o, id)] + ([hear] + []));
    PlayOn(w1, Call(o, id), [hear] + ([Call(o, id)] + ([hear] + [])));
    PlayOn(world, Local(o, Enqueued(job, now)), [Call(o, id)] + ([hear] + ([Call(o, id)] + ([hear] + []))));
    PlayNothing(w5);
  }

  lemma PlayNothing(world: World)
    ensures Play(world, []) == world
  {
  }

  lemma SwapAgain(world: World, o: Owner, w: Worker, w': Worker)
    ensures Swap(Swap(world, o, w), o, w') == Swap(world, o, w')
    ensures forall st: Store :: Swap(Swap(world, o, w).(store := st), o, w') == Swap(world, o, w').(store := st)
  {
    assert world.workers[o := w][o := w'] == world.workers[o := w'];
  }

  // ---- Two workers ----

  function Begun(leaseMs: int, one: Owner, two: Owner): World {
    Empty(leaseMs, 0).(workers := map[one := Idling(Unused(map[], 0, false)), two := Idling(Unused(map[], 0, false))])
  }

  lemma BothStart(leaseMs: int, one: Owner, two: Owner)
    requires one != two
    ensures Play(Empty(leaseMs, 0), [Start(one, SHARING, false)] + ([Start(two, SHARING, false)] + [])) == Begun(leaseMs, one, two)
  {
    hide Step, Advance, Enabled, Ended, LeaseStore.Adopt, LeaseStore.Load, LeaseStore.Renew, LeaseStore.Save, LeaseStore.Acquire, LeaseLaws.After;
    var world := Empty(leaseMs, 0);
    assert Fresh(SHARING, false) == Unused(map[], 0, false);
    var w1 := Next(world, Start(one, SHARING, false));
    PlayOn(world, Start(one, SHARING, false), [Start(two, SHARING, false)] + []);
    PlayOn(w1, Start(two, SHARING, false), []);
  }

  /** `one` is handling its job and has a renewal in flight; `two` is about to ask for abandoned work. */
  lemma BeatsFire(world: World, one: Owner, two: Owner, job: StoredJob, lane: Lane)
    requires one != two && one in world.workers && two in world.workers && world.crashed == {} && world.clock == 0
    requires job == Laned(job.id, lane, 0)
    requires world.workers[one] == Idling(QueueHandling(Unused(map[], 0, false), job, lane))
    requires world.workers[two] == Idling(Unused(map[], 0, false))
    ensures Play(world, [Local(one, BeatFired(0))] + ([Local(two, Resumed(0))] + ([Local(two, BeatFired(0))] + [])))
      == world.(workers := world.workers
           [one := Idling(QueueHandling(Unused(map[], 0, false), job, lane).(beatArmed := false, nextBeat := 1, beats := map[0 := Renewing({job.id})]))]
           [two := Idling(Unused(map[0 := Adopting], 1, false))])
  {
    hide Next, Play, Step, Advance, QueueHandling, Unused, Enabled, Ended, LeaseStore.Adopt, LeaseStore.Load, LeaseStore.Renew, LeaseStore.Save, LeaseStore.Acquire, LeaseLaws.After;
    var busy, idle := QueueHandling(Unused(map[], 0, false), job, lane), Unused(map[], 0, false);
    RenewalFires(job, lane);
    WatchFires();
    var renewing := busy.(beatArmed := false, nextBeat := 1, beats := map[0 := Renewing({job.id})]);
    var w1 := Swap(world, one, Idling(renewing));
    LocalMove(world, one, BeatFired(0), renewing);
    var w2 := Swap(w1, two, Idling(Unused(map[], 0, true)));
    LocalMove(w1, two, Resumed(0), Unused(map[], 0, true));
    var w3 := Swap(w2, two, Idling(Unused(map[0 := Adopting], 1, false)));
    LocalMove(w2, two, BeatFired(0), Unused(map[0 := Adopting], 1, false));
    SwapAgain(w1, two, Idling(Unused(map[], 0, true)), Idling(Unused(map[0 := Adopting], 1, false)));
    PlayOn(w2, Local(two, BeatFired(0)), []);
    PlayOn(w1, Local(two, Resumed(0)), [Local(two, BeatFired(0))] + []);
    PlayOn(world, Local(one, BeatFired(0)), [Local(two, Resumed(0))] + ([Local(two, BeatFired(0))] + []));
    PlayNothing(w3);
  }

  /** A worker with nothing unheard makes one of its own moves. */
  lemma LocalMove(world: World, o: Owner, ev: Event, q: Queue)
    requires o in world.workers && o !in world.crashed && world.workers[o] == Idling(world.workers[o].q)
    requires IsLocal(ev, world.clock) && Enabled(world.workers[o].q, ev) && Step(world.workers[o].q, ev) == q && NothingEnded(q)
    ensures Next(world, Local(o, ev)) == Swap(world, o, Idling(q))
  {
    hide Step, Advance, Enabled, NothingEnded;
    NoneEnded(q);
    assert world.workers[o].landed - Replied(ev).Keys == map[];
    Advances(world, o, world.workers[o], ev, q);
  }

  lemma RenewalFires(job: StoredJob, lane: Lane)
    requires job == Laned(job.id, lane, 0)
    ensures
      var q := QueueHandling(Unused(map[], 0, false), job, lane);
      var r := q.(beatArmed := false, nextBeat := 1, beats := map[0 := Renewing({job.id})]);
      Enabled(q, BeatFired(0)) && Step(q, BeatFired(0)) == r && NothingEnded(r)
  {
    var q := QueueHandling(Unused(map[], 0, false), job, lane);
    assert Held(q) == {job.id};
    assert map[][0 := Renewing({job.id})] == map[0 := Renewing({job.id})];
  }

  lemma WatchFires()
    ensures
      var q, armed, asking := Unused(map[], 0, false), Unused(map[], 0, true), Unused(map[0 := Adopting], 1, false);
      && Enabled(q, Resumed(0)) && Step(q, Resumed(0)) == armed && NothingEnded(armed)
      && Enabled(armed, BeatFired(0)) && Step(armed, BeatFired(0)) == asking && NothingEnded(asking)
  {
    var q, armed := Unused(map[], 0, false), Unused(map[], 0, true);
    assert q.(paused := false) == q;
    assert Fill(q, 0) == q;
    assert ScheduleWake(q, 0) == q;
    assert ScheduleBeat(q) == armed;
    assert Held(armed) == {};
    assert map[][0 := Adopting] == map[0 := Adopting];
  }

  // ---- A lapsed claim, taken over, and taken back ----

  /** The store with the one job in it queued, claimed by `o`. */
  function Requeued(st: Store, o: Owner, id: JobId, now: int): Store
    requires id in st.rows
  {
    LeaseStore.Store(st.order, st.rows[id := st.rows[id].(id := id, state := Queued)], st.leases[id := LeaseStore.Lease(o, now)])
  }

  /** A worker with an adoption in flight takes the store's one, lapsed, job. */
  lemma TakesOver(world: World, o: Owner, w: Worker, beat: nat, id: JobId)
    requires o in world.workers && world.workers[o] == w && w.q.beats == map[beat := Adopting] && w.adopted == map[]
    requires world.store.order == [id] && id in world.store.rows && id in world.store.leases
    requires LeaseStore.Abandoned(world.store, HandleOf(world, o), world.clock, id)
    ensures
      var m := CallAdopt(o, beat);
      var row := Requeued(world.store, o, id, world.clock).rows[id];
      Next(world, m) == Swap(world, o, w.(adopted := map[beat := [row]])).(store := Requeued(world.store, o, id, world.clock))
  {
    LeaseLaws.OnlyStray(world.store, HandleOf(world, o), world.clock, id);
    var after := LeaseStore.Adopt(world.store, HandleOf(world, o), world.clock).0;
    assert after == Requeued(world.store, o, id, world.clock);
    var jobs := LeaseStore.Adopt(world.store, HandleOf(world, o), world.clock).1;
    assert jobs == [after.rows[id]];
    assert w.adopted[beat := jobs] == map[beat := jobs];
  }

  /** A renewal that throws: the worker is told of nothing lost, and goes on to ask for abandoned work. */
  lemma RenewalThrows(world: World, o: Owner, job: StoredJob, lane: Lane)
    requires o in world.workers && o !in world.crashed && job == Laned(job.id, lane, 0)
    requires
      var q := QueueHandling(Unused(map[], 0, false), job, lane);
      world.workers[o] == Idling(q.(beatArmed := false, nextBeat := 1, beats := map[0 := Renewing({job.id})]))
    ensures
      var m := HearRenew(o, 0, false);
      var q := QueueHandling(Unused(map[], 0, false), job, lane);
      Next(world, m) == Swap(world, o, Idling(q.(beatArmed := false, nextBeat := 1, beats := map[0 := Adopting])))
  {
    var q := QueueHandling(Unused(map[], 0, false), job, lane).(beatArmed := false, nextBeat := 1, beats := map[0 := Renewing({job.id})]);
    var r := q.(beats := map[0 := Adopting]);
    assert map[0 := Renewing({job.id})][0 := Adopting] == map[0 := Adopting];
    assert LoseAll(q, []) == q;
    assert Step(q, RenewReply(0, [], world.clock)) == r;
    NoneEnded(r);
    var w := world.workers[o];
    assert w.renewed - {0} == map[];
    Advances(world, o, w.(renewed := w.renewed - {0}), RenewReply(0, [], world.clock), r);
  }

  function Takeover(leaseMs: int, one: Owner, two: Owner): seq<Move> {
    [Tick(leaseMs)] + ([CallAdopt(two, 0)] + ([Tick(2 * leaseMs)] + ([HearRenew(one, 0, false)] + ([CallAdopt(one, 0)] + []))))
  }

  /**
   * `one` is handling a job whose claim lapses; `two` takes it over, and lapses in turn; and `one`, whose renewal
   * threw, takes it back as abandoned. It is still handling it, and its row reads queued.
   */
  lemma TakenBack(world: World, leaseMs: int, one: Owner, two: Owner, job: StoredJob, lane: Lane)
    requires one != two && one in world.workers && two in world.workers && world.crashed == {} && world.clock == 0
    requires world.leaseMs == leaseMs && leaseMs > 0 && job == Laned(job.id, lane, 0)
    requires world.store == Running1(LeaseStore.Store([], map[], map[]), one, job, 0)
    requires
      var q := QueueHandling(Unused(map[], 0, false), job, lane);
      && world.workers[one] == Idling(q.(beatArmed := false, nextBeat := 1, beats := map[0 := Renewing({job.id})]))
      && world.workers[two] == Idling(Unused(map[0 := Adopting], 1, false))
    ensures
      var q := QueueHandling(Unused(map[], 0, false), job, lane);
      var after := Play(world, Takeover(leaseMs, one, two));
      && after.clock == 2 * leaseMs && after.leaseMs == leaseMs && after.crashed == {} && after.workers.Keys == world.workers.Keys
      && after.workers[one].q == q.(beatArmed := false, nextBeat := 1, beats := map[0 := Adopting])
      && after.workers[two].q == Unused(map[0 := Adopting], 1, false) && after.workers[two].landed == map[]
      && after.store == Requeued(world.store, one, job.id, 2 * leaseMs)
  {
    hide Next, Play, QueueHandling, Unused, ClaimOf;
    OneRow(job, one);
    var rest := [Tick(2 * leaseMs)] + ([HearRenew(one, 0, false)] + ([CallAdopt(one, 0)] + []));
    var w2 := Play(world, [Tick(leaseMs)] + ([CallAdopt(two, 0)] + []));
    FirstTakeover(world, leaseMs, one, two, job, lane);
    SecondTakeover(w2, leaseMs, one, two, job, lane);
    PlayAll(world, [Tick(leaseMs)] + ([CallAdopt(two, 0)] + []), rest);
    assert [Tick(leaseMs)] + ([CallAdopt(two, 0)] + []) + rest == Takeover(leaseMs, one, two);
    RequeuedTwice(world.store, two, one, job.id, leaseMs, 2 * leaseMs);
  }

  lemma FirstTakeover(world: World, leaseMs: int, one: Owner, two: Owner, job: StoredJob, lane: Lane)
    requires one != two && one in world.workers && two in world.workers && world.crashed == {} && world.clock == 0
    requires world.leaseMs == leaseMs && leaseMs > 0
    requires world.store == Running1(LeaseStore.Store([], map[], map[]), one, job, 0)
    requires world.workers[two] == Idling(Unused(map[0 := Adopting], 1, false))
    ensures job.id in world.store.rows
    ensures
      var w2 := Play(world, [Tick(leaseMs)] + ([CallAdopt(two, 0)] + []));
      && w2.clock == leaseMs && w2.leaseMs == leaseMs && w2.crashed == {} && w2.workers.Keys == world.workers.Keys
      && w2.workers[one] == world.workers[one] && w2.workers[two].q == world.workers[two].q && w2.workers[two].landed == map[]
      && w2.store == Requeued(world.store, two, job.id, leaseMs) && w2.written == world.written && w2.settled == world.settled
  {
    hide Next, Play, Unused, ClaimOf;
    var w1 := world.(clock := leaseMs);
    Ticks(world, leaseMs);
    OneRow(job, one);
    UnusedBeats();
    TakesOver(w1, two, w1.workers[two], 0, job.id);
    PlayOn(w1, CallAdopt(two, 0), []);
    PlayOn(world, Tick(leaseMs), [CallAdopt(two, 0)] + []);
    PlayNothing(Next(w1, CallAdopt(two, 0)));
  }

  lemma SecondTakeover(w2: World, leaseMs: int, one: Owner, two: Owner, job: StoredJob, lane: Lane)
    requires one != two && one in w2.workers && two in w2.workers && w2.crashed == {} && w2.clock == leaseMs
    requires w2.leaseMs == leaseMs && leaseMs > 0 && job == Laned(job.id, lane, 0)
    requires w2.store.order == [job.id] && job.id in w2.store.rows && job.id in w2.store.leases
    requires w2.store.leases[job.id] == LeaseStore.Lease(two, leaseMs)
    requires
      var q := QueueHandling(Unused(map[], 0, false), job, lane);
      w2.workers[one] == Idling(q.(beatArmed := false, nextBeat := 1, beats := map[0 := Renewing({job.id})]))
    ensures
      var q := QueueHandling(Unused(map[], 0, false), job, lane);
      var after := Play(w2, [Tick(2 * leaseMs)] + ([HearRenew(one, 0, false)] + ([CallAdopt(one, 0)] + [])));
      && after.clock == 2 * leaseMs && after.leaseMs == leaseMs && after.crashed == {} && after.workers.Keys == w2.workers.Keys
      && after.workers[one].q == q.(beatArmed := false, nextBeat := 1, beats := map[0 := Adopting])
      && after.workers[two] == w2.workers[two]
      && after.store == Requeued(w2.store, one, job.id, 2 * leaseMs)
  {
    hide Next, Play, QueueHandling, Unused, ClaimOf;
    var w3 := w2.(clock := 2 * leaseMs);
    Ticks(w2, 2 * leaseMs);
    RenewalThrows(w3, one, job, lane);
    var w4 := Next(w3, HearRenew(one, 0, false));
    TakesOver(w4, one, w4.workers[one], 0, job.id);
    var w5 := Next(w4, CallAdopt(one, 0));
    PlayOn(w4, CallAdopt(one, 0), []);
    PlayOn(w3, HearRenew(one, 0, false), [CallAdopt(one, 0)] + []);
    PlayOn(w2, Tick(2 * leaseMs), [HearRenew(one, 0, false)] + ([CallAdopt(one, 0)] + []));
    PlayNothing(w5);
  }

  lemma Ticks(world: World, to: int)
    requires world.clock <= to
    ensures Next(world, Tick(to)) == world.(clock := to)
  {
    hide Step, Advance, Enabled, LeaseStore.Adopt, LeaseStore.Load, LeaseStore.Renew, LeaseLaws.After;
  }

  lemma UnusedBeats()
    ensures Unused(map[0 := Adopting], 1, false).beats == map[0 := Adopting]
  {
  }

  lemma OneRow(job: StoredJob, o: Owner)
    ensures
      var st := Running1(LeaseStore.Store([], map[], map[]), o, job, 0);
      && st.order == [job.id] && job.id in st.rows && st.rows == map[job.id := ClaimOf(NewEntry(SHARING, job))]
      && st.leases == map[job.id := LeaseStore.Lease(o, 0)]
  {
    hide ClaimOf;
  }

  lemma RequeuedTwice(st: Store, o: Owner, p: Owner, id: JobId, earlier: int, now: int)
    requires id in st.rows
    ensures Requeued(Requeued(st, o, id, earlier), p, id, now) == Requeued(st, p, id, now)
  {
    var row := st.rows[id].(id := id, state := Queued);
    assert st.rows[id := row][id := row] == st.rows[id := row];
    assert st.leases[id := LeaseStore.Lease(o, earlier)][id := LeaseStore.Lease(p, now)] == st.leases[id := LeaseStore.Lease(p, now)];
  }

  lemma {:induction false} NoRenewalsTimely(world: World, moves: seq<Move>)
    requires forall k :: 0 <= k < |moves| ==> !moves[k].CallRenew?
    ensures AllTimely(world, moves)
    decreases |moves|
  {
    hide Can, Do;
    if moves != [] {
      assert forall k :: 0 <= k < |moves[1..]| ==> moves[1..][k] == moves[k + 1];
      NoRenewalsTimely(Next(world, moves[0]), moves[1..]);
    }
  }

  function WholeRun(leaseMs: int, one: Owner, two: Owner, a: JobId, b: JobId, lane: Lane): seq<Move> {
    ([Start(one, SHARING, false)] + ([Start(two, SHARING, false)] + []))
    + (Given(one, Laned(a, lane, 0), 0)
       + (([Local(one, BeatFired(0))] + ([Local(two, Resumed(0))] + ([Local(two, BeatFired(0))] + [])))
          + (Takeover(leaseMs, one, two) + Given(two, Laned(b, lane, 2 * leaseMs), 2 * leaseMs))))
  }

  /**
   * Why being handed back a job matters, for any lease. In this run no renewal is late, for none lands at all;
   * and it ends with two workers, each with a live claim, running handlers in one lane.
   */
  lemma HandedBackBreaksLanes(leaseMs: int, one: Owner, two: Owner, a: JobId, b: JobId, lane: Lane)
    requires one != two && a != b && leaseMs > 0
    ensures
      var moves := WholeRun(leaseMs, one, two, a, b, lane);
      var world := Play(Empty(leaseMs, 0), moves);
      && AllTimely(Empty(leaseMs, 0), moves)
      && Handling(world, one, a, lane) && LiveClaim(world, one, a)
      && Handling(world, two, b, lane) && LiveClaim(world, two, b)
  {
    hide Next, Play, AllTimely, ClaimOf, Given, Takeover;
    var ja, jb := Laned(a, lane, 0), Laned(b, lane, 2 * leaseMs);
    var start := Empty(leaseMs, 0);
    var m0 := [Start(one, SHARING, false)] + ([Start(two, SHARING, false)] + []);
    var m2 := [Local(one, BeatFired(0))] + ([Local(two, Resumed(0))] + ([Local(two, BeatFired(0))] + []));
    BothStart(leaseMs, one, two);
    var w1 := Begun(leaseMs, one, two);
    GivenRuns(w1, one, Idling(Unused(map[], 0, false)), map[], 0, false, ja, lane);
    var w2 := Play(w1, Given(one, ja, 0));
    BeatsFire(w2, one, two, ja, lane);
    var w3 := Play(w2, m2);
    TakenBack(w3, leaseMs, one, two, ja, lane);
    var w4 := Play(w3, Takeover(leaseMs, one, two));
    OneRow(ja, one);
    assert w4.store.rows[a].state == Queued;
    GivenRuns(w4, two, w4.workers[two], map[0 := Adopting], 1, false, jb, lane);
    var w5 := Play(w4, Given(two, jb, 2 * leaseMs));
    PlayAll(w3, Takeover(leaseMs, one, two), Given(two, jb, 2 * leaseMs));
    PlayAll(w2, m2, Takeover(leaseMs, one, two) + Given(two, jb, 2 * leaseMs));
    PlayAll(w1, Given(one, ja, 0), m2 + (Takeover(leaseMs, one, two) + Given(two, jb, 2 * leaseMs)));
    PlayAll(start, m0, Given(one, ja, 0) + (m2 + (Takeover(leaseMs, one, two) + Given(two, jb, 2 * leaseMs))));
    NoneRenews(leaseMs, one, two, a, b, lane);
    NoRenewalsTimely(start, WholeRun(leaseMs, one, two, a, b, lane));
    EndsBadly(w4, w5, leaseMs, one, two, ja, jb, lane);
  }

  lemma NoneRenews(leaseMs: int, one: Owner, two: Owner, a: JobId, b: JobId, lane: Lane)
    ensures
      var moves := WholeRun(leaseMs, one, two, a, b, lane);
      forall k :: 0 <= k < |moves| ==> !moves[k].CallRenew?
  {
    assert forall m :: m in Given(one, Laned(a, lane, 0), 0) ==> !m.CallRenew?;
    assert forall m :: m in Given(two, Laned(b, lane, 2 * leaseMs), 2 * leaseMs) ==> !m.CallRenew?;
    assert forall m :: m in Takeover(leaseMs, one, two) ==> !m.CallRenew?;
    var moves := WholeRun(leaseMs, one, two, a, b, lane);
    forall k | 0 <= k < |moves| ensures !moves[k].CallRenew? { assert moves[k] in moves; }
  }

  lemma EndsBadly(before: World, world: World, leaseMs: int, one: Owner, two: Owner, ja: StoredJob, jb: StoredJob, lane: Lane)
    requires one != two && ja.id != jb.id && leaseMs > 0 && before.leaseMs == leaseMs
    requires ja == Laned(ja.id, lane, 0) && jb == Laned(jb.id, lane, before.clock)
    requires one in before.workers && two in before.workers && ja.id in before.store.rows && ja.id in before.store.leases
    requires before.store.leases[ja.id] == LeaseStore.Lease(one, before.clock)
    requires before.workers[one].q ==
      QueueHandling(Unused(map[], 0, false), ja, lane).(beatArmed := false, nextBeat := 1, beats := map[0 := Adopting])
    requires before.workers[two].q == Unused(map[0 := Adopting], 1, false)
    requires world == Swap(before, two, before.workers[two].(q := QueueHandling(before.workers[two].q, jb, lane))).(
      store := Running1(before.store, two, jb, before.clock), written := before.written + {jb.id})
    ensures Handling(world, one, ja.id, lane) && LiveClaim(world, one, ja.id)
    ensures Handling(world, two, jb.id, lane) && LiveClaim(world, two, jb.id)
  {
  }

  // ---- A job handed back to a worker that remembers it ----

  /** The job as its worker has it once the store has said another holds it. */
  function Told(job: StoredJob): Entry {
    Handled(job).(durability := Lost, leaseLost := true, aborted := true)
  }

  function QueueTold(job: StoredJob, lane: Lane): Queue {
    QueueHandling(Unused(map[], 0, false), job, lane).(
      entries := map[job.id := Told(job)], beatArmed := false, nextBeat := 1, beats := map[0 := Adopting])
  }

  /** The queue once the handler has come back: the job is over here, and remembered. */
  function QueueOver(job: StoredJob, beats: map<nat, Beat>): Queue {
    Unused(beats, 1, true).(entries := map[job.id := Over(Told(job), Failed, Some(LeaseLostMessage(job.id)))],
                            known := {job.id}, finished := [job.id], nextTicket := 1)
  }

  lemma HearsLost(job: StoredJob, lane: Lane, now: int)
    requires job == Laned(job.id, lane, 0)
    ensures
      var q := QueueHandling(Unused(map[], 0, false), job, lane).(beatArmed := false, nextBeat := 1, beats := map[0 := Renewing({job.id})]);
      Enabled(q, RenewReply(0, [job.id], now)) && Step(q, RenewReply(0, [job.id], now)) == QueueTold(job, lane)
  {
    hide Pump;
    var id := job.id;
    var q := QueueHandling(Unused(map[], 0, false), job, lane).(beatArmed := false, nextBeat := 1, beats := map[0 := Renewing({id})]);
    var r := q.(entries := map[id := Told(job)]);
    assert [id][1..] == [];
    assert Lose(q, id) == r;
    assert LoseAll(q, [id]) == LoseAll(r, []) == r;
    assert map[0 := Renewing({id})][0 := Adopting] == map[0 := Adopting];
  }

  lemma ComesBackLost(job: StoredJob, lane: Lane, now: int)
    requires job == Laned(job.id, lane, 0)
    ensures
      var q := QueueTold(job, lane);
      Enabled(q, HandlerDone(job.id, false, now)) && Step(q, HandlerDone(job.id, false, now)) == QueueOver(job, map[0 := Adopting])
  {
    hide Pump;
    var id := job.id;
    var q, r := QueueTold(job, lane), QueueOver(job, map[0 := Adopting]).(beatArmed := false);
    assert {id} - {id} == {} && map[lane := id] - {lane} == map[];
    assert [] + [id] == [id];
    assert Release(q, id) == q.(active := {}, holder := map[]);
    assert Settle(Release(q, id), id, Failed, Some(LeaseLostMessage(id))) == r;
    NothingToStart(job, map[0 := Adopting], now);
  }

  /** With nothing in line and nothing held, a pump sets the timer to watch for abandoned work, and that is all. */
  lemma NothingToStart(job: StoredJob, beats: map<nat, Beat>, now: int)
    ensures Pump(QueueOver(job, beats).(beatArmed := false), now) == QueueOver(job, beats)
    ensures Pump(QueueOver(job, beats), now) == QueueOver(job, beats)
  {
    hide LeaseLostMessage;
    var q := QueueOver(job, beats);
    assert Held(q) == {};
    assert Fill(q, now) == q && ScheduleWake(q, now) == q && ScheduleBeat(q) == q;
    var p := q.(beatArmed := false);
    assert Held(p) == {};
    assert Fill(p, now) == p && ScheduleWake(p, now) == p && ScheduleBeat(p) == q;
  }

  lemma DropsIt(job: StoredJob, row: StoredJob, now: int)
    requires row.id == job.id
    ensures
      var q := QueueOver(job, map[0 := Adopting]);
      Enabled(q, AdoptReply(0, [row], now)) && Step(q, AdoptReply(0, [row], now)) == QueueOver(job, map[])
  {
    hide Pump, LeaseLostMessage;
    var q := QueueOver(job, map[0 := Adopting]);
    assert [row][1..] == [];
    assert Restore(q, row, now) == q;
    assert RestoreAll(q, [row], now) == RestoreAll(q, [], now) == q;
    assert map[0 := Adopting] - {0} == map[];
    NothingToStart(job, map[], now);
  }

  /** A renewal asked for after the claim has gone to another names the job lost, and changes nothing. */
  lemma RenewFinds(world: World, o: Owner, q: Queue, p: Owner, id: JobId)
    requires o in world.workers && world.workers[o] == Idling(q) && q.beats == map[0 := Renewing({id})]
    requires o != p && id in world.store.rows && id in world.store.leases && world.leaseMs > 0
    requires world.store.leases[id] == LeaseStore.Lease(p, world.clock)
    ensures
      var m := CallRenew(o, 0, [id]);
      Next(world, m) == Swap(world, o, Idling(q).(renewed := map[0 := [id]]))
  {
    var h := HandleOf(world, o);
    assert LeaseStore.HeldByAnother(world.store, h, world.clock, id);
    assert [id][1..] == [];
    assert LeaseStore.Renew(world.store, h, world.clock, []) == (world.store, []);
    assert LeaseStore.Renew(world.store, h, world.clock, [id]) == (world.store, [id] + []);
    assert (set x | x in [id]) == {id};
    assert map[][0 := [id]] == map[0 := [id]];
    assert [id] + [] == [id];
  }

  lemma LostNotEnded(q: Queue)
    requires forall id :: id in q.entries ==> q.entries[id].durability == Lost
    ensures Ended(q) == {}
  {
  }

  lemma RenewTold(world: World, o: Owner, job: StoredJob, lane: Lane)
    requires o in world.workers && o !in world.crashed && job == Laned(job.id, lane, 0)
    requires
      var q := QueueHandling(Unused(map[], 0, false), job, lane).(beatArmed := false, nextBeat := 1, beats := map[0 := Renewing({job.id})]);
      world.workers[o] == Idling(q).(renewed := map[0 := [job.id]])
    ensures
      var m := HearRenew(o, 0, true);
      Next(world, m) == Swap(world, o, Idling(QueueTold(job, lane)))
  {
    hide Step, Advance, Enabled;
    var w := world.workers[o];
    HearsLost(job, lane, world.clock);
    LostNotEnded(QueueTold(job, lane));
    assert w.renewed - {0} == map[];
    assert w.landed - Replied(RenewReply(0, [job.id], world.clock)).Keys == map[];
    Advances(world, o, w.(renewed := w.renewed - {0}), RenewReply(0, [job.id], world.clock), QueueTold(job, lane));
  }

  lemma HandlerLost(world: World, o: Owner, job: StoredJob, lane: Lane)
    requires o in world.workers && o !in world.crashed && job == Laned(job.id, lane, 0)
    requires world.workers[o] == Idling(QueueTold(job, lane))
    ensures
      var m := Local(o, HandlerDone(job.id, false, world.clock));
      Next(world, m) == Swap(world, o, Idling(QueueOver(job, map[0 := Adopting])))
  {
    hide Step, Advance, Enabled, LeaseLostMessage;
    ComesBackLost(job, lane, world.clock);
    LostNotEnded(QueueOver(job, map[0 := Adopting]));
    assert world.workers[o].landed - Replied(HandlerDone(job.id, false, world.clock)).Keys == map[];
    Advances(world, o, world.workers[o], HandlerDone(job.id, false, world.clock), QueueOver(job, map[0 := Adopting]));
  }

  lemma AdoptDropped(world: World, o: Owner, job: StoredJob, row: StoredJob)
    requires o in world.workers && o !in world.crashed && row.id == job.id
    requires world.workers[o] == Idling(QueueOver(job, map[0 := Adopting])).(adopted := map[0 := [row]])
    ensures
      var m := HearAdopt(o, 0, true);
      Next(world, m) == Swap(world, o, Idling(QueueOver(job, map[])))
  {
    hide Step, Advance, Enabled, LeaseLostMessage;
    var w := world.workers[o];
    DropsIt(job, row, world.clock);
    LostNotEnded(QueueOver(job, map[]));
    assert w.adopted - {0} == map[];
    assert w.landed - Replied(AdoptReply(0, [row], world.clock)).Keys == map[];
    Advances(world, o, w.(adopted := w.adopted - {0}), AdoptReply(0, [row], world.clock), QueueOver(job, map[]));
  }

  lemma Dropped(world: World, leaseMs: int, one: Owner, two: Owner, job: StoredJob, lane: Lane)
    requires one != two && one in world.workers && two in world.workers && world.crashed == {} && world.clock == leaseMs
    requires world.leaseMs == leaseMs && leaseMs > 0 && job == Laned(job.id, lane, 0)
    requires world.store.order == [job.id] && job.id in world.store.rows && job.id in world.store.leases
    requires world.store.leases[job.id] == LeaseStore.Lease(two, leaseMs)
    requires
      var q := QueueHandling(Unused(map[], 0, false), job, lane).(beatArmed := false, nextBeat := 1, beats := map[0 := Renewing({job.id})]);
      world.workers[one] == Idling(q)
    ensures
      var after := Play(world, Dropping(leaseMs, one, two, job.id));
      && after.clock == 2 * leaseMs && after.leaseMs == leaseMs && one in after.workers
      && after.workers[one] == Idling(QueueOver(job, map[])) && after.store == Requeued(world.store, one, job.id, 2 * leaseMs)
      && after.written == world.written && after.settled == world.settled
  {
    hide Next, Play, QueueHandling, QueueTold, QueueOver, Unused, Step, Advance, Enabled, Ended, LeaseStore.Adopt, LeaseStore.Load, LeaseStore.Renew, LeaseStore.Save, LeaseStore.Acquire, LeaseLaws.After;
    var id := job.id;
    assert world.workers[one].q.beats == map[0 := Renewing({id})];
    RenewFinds(world, one, world.workers[one].q, two, id);
    var w1 := Next(world, CallRenew(one, 0, [id]));
    RenewTold(w1, one, job, lane);
    var w2 := Next(w1, HearRenew(one, 0, true));
    HandlerLost(w2, one, job, lane);
    var done := Local(one, HandlerDone(id, false, leaseMs));
    var w3 := Next(w2, done);
    Crashes(w3, two);
    var w4 := w3.(crashed := {two});
    Ticks(w4, 2 * leaseMs);
    var w5 := w4.(clock := 2 * leaseMs);
    OverBeats(job);
    TakesOver(w5, one, w5.workers[one], 0, id);
    var w6 := Next(w5, CallAdopt(one, 0));
    AdoptDropped(w6, one, job, w6.store.rows[id]);
    var w7 := Next(w6, HearAdopt(one, 0, true));
    var e7 := [HearAdopt(one, 0, true)] + [];
    var e6 := [CallAdopt(one, 0)] + e7;
    var e5 := [Tick(2 * leaseMs)] + e6;
    var e4 := [Crash(two)] + e5;
    var e3 := [done] + e4;
    PlayOn(w6, HearAdopt(one, 0, true), []);
    PlayOn(w5, CallAdopt(one, 0), e7);
    PlayOn(w4, Tick(2 * leaseMs), e6);
    PlayOn(w3, Crash(two), e5);
    PlayOn(w2, done, e4);
    PlayOn(w1, HearRenew(one, 0, true), e3);
    PlayOn(world, CallRenew(one, 0, [id]), [HearRenew(one, 0, true)] + e3);
    PlayNothing(w7);
  }

  function Dropping(leaseMs: int, one: Owner, two: Owner, id: JobId): seq<Move> {
    [CallRenew(one, 0, [id])] + ([HearRenew(one, 0, true)] + ([Local(one, HandlerDone(id, false, leaseMs))] + ([Crash(two)]
      + ([Tick(2 * leaseMs)] + ([CallAdopt(one, 0)] + ([HearAdopt(one, 0, true)] + []))))))
  }

  lemma Crashes(world: World, o: Owner)
    requires o in world.workers && world.crashed == {}
    ensures Next(world, Crash(o)) == world.(crashed := {o})
  {
    hide Step, Advance, Enabled, Ended, LeaseStore.Adopt, LeaseStore.Load, LeaseStore.Renew, LeaseStore.Save, LeaseStore.Acquire, LeaseLaws.After;
    assert {} + {o} == {o};
  }

  lemma OverBeats(job: StoredJob)
    ensures QueueOver(job, map[0 := Adopting]).beats == map[0 := Adopting]
  {
  }

  /**
   * A job handed back to a worker that remembers it is stranded. `one` loses its claim to `two` and its handler
   * comes back; `two` dies, and the store hands the job to `one`, whose queue drops it as one it knows. The row
   * is queued in `one`'s name, yet `one` neither has it in line nor will renew it, and adopting from the store as
   * it stands does not give `one` the job, however late.
   */
  lemma HandedBackAndDropped(leaseMs: int, one: Owner, two: Owner, a: JobId, lane: Lane)
    requires one != two && leaseMs > 0
    ensures
      var ja := Laned(a, lane, 0);
      var moves := ([Start(one, SHARING, false)] + ([Start(two, SHARING, false)] + []))
        + (Given(one, ja, 0)
           + (([Local(one, BeatFired(0))] + ([Local(two, Resumed(0))] + ([Local(two, BeatFired(0))] + [])))
              + (([Tick(leaseMs)] + ([CallAdopt(two, 0)] + [])) + Dropping(leaseMs, one, two, a))));
      var world := Play(Empty(leaseMs, 0), moves);
      && a in world.written && a !in world.settled && one in world.workers
      && a in world.store.rows && world.store.rows[a].state == Queued
      && a in world.store.leases && world.store.leases[a] == LeaseStore.Lease(one, world.clock)
      && a !in world.workers[one].q.queued && a !in world.workers[one].q.active && a !in world.workers[one].q.starting
      && a !in Held(world.workers[one].q)
      && (forall later: int :: a !in LeaseStore.Strays(world.store, HandleOf(world, one), later))
  {
    hide Next, Play, ClaimOf, Given, Dropping;
    var ja := Laned(a, lane, 0);
    var start := Empty(leaseMs, 0);
    var m0 := [Start(one, SHARING, false)] + ([Start(two, SHARING, false)] + []);
    var m2 := [Local(one, BeatFired(0))] + ([Local(two, Resumed(0))] + ([Local(two, BeatFired(0))] + []));
    var m3 := [Tick(leaseMs)] + ([CallAdopt(two, 0)] + []);
    BothStart(leaseMs, one, two);
    var w1 := Begun(leaseMs, one, two);
    GivenRuns(w1, one, Idling(Unused(map[], 0, false)), map[], 0, false, ja, lane);
    var w2 := Play(w1, Given(one, ja, 0));
    BeatsFire(w2, one, two, ja, lane);
    var w3 := Play(w2, m2);
    FirstTakeover(w3, leaseMs, one, two, ja, lane);
    var w4 := Play(w3, m3);
    OneRow(ja, one);
    Dropped(w4, leaseMs, one, two, ja, lane);
    PlayAll(w3, m3, Dropping(leaseMs, one, two, a));
    PlayAll(w2, m2, m3 + Dropping(leaseMs, one, two, a));
    PlayAll(w1, Given(one, ja, 0), m2 + (m3 + Dropping(leaseMs, one, two, a)));
    PlayAll(start, m0, Given(one, ja, 0) + (m2 + (m3 + Dropping(leaseMs, one, two, a))));
    OverDropped(ja);
  }

  lemma OverDropped(job: StoredJob)
    ensures
      var q := QueueOver(job, map[]);
      job.id !in q.queued && job.id !in q.active && job.id !in q.starting && job.id !in Held(q)
  {
  }
}
