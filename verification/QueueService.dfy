/** That the queue attends to its line: what starts next, what may be left waiting, and who is told when it is idle. */
module QueueService {
  import opened Jobs
  import opened Sequences
  import opened QueueSpec
  import opened QueueInvariant
  import opened QueueRuns
  import opened QueueHistory
  import opened QueueTheorems

  // ---- What starts next ----

  /** `k` is the highest-priority job that may start, and the first in line among equals. */
  ghost predicate First(q: Queue, now: int, k: nat) {
    && k < |q.queued| && Eligible(q, now, q.queued[k])
    && forall j :: 0 <= j < |q.queued| && j != k && Eligible(q, now, q.queued[j]) ==>
         var mine, other := q.entries[q.queued[k]].priority, q.entries[q.queued[j]].priority;
         other < mine || (other == mine && k < j)
  }

  lemma {:induction false} BestSoFar(q: Queue, now: int, n: nat)
    requires n <= |q.queued|
    ensures Best(q, now, n) == -1 ==> forall j :: 0 <= j < n ==> !Eligible(q, now, q.queued[j])
    ensures Best(q, now, n) >= 0 ==>
      var k := Best(q, now, n);
      forall j :: 0 <= j < n && j != k && Eligible(q, now, q.queued[j]) ==>
        var mine, other := q.entries[q.queued[k]].priority, q.entries[q.queued[j]].priority;
        other < mine || (other == mine && k < j)
  {
    if n > 0 { BestSoFar(q, now, n - 1); }
  }

  /** The scan finds the first job exactly when there is one, and says so exactly when there is none. */
  lemma TakesFirst(q: Queue, now: int, k: nat)
    ensures First(q, now, k) <==> Best(q, now, |q.queued|) == k
    ensures Best(q, now, |q.queued|) == -1 <==> forall j :: 0 <= j < |q.queued| ==> !Eligible(q, now, q.queued[j])
  {
    BestSoFar(q, now, |q.queued|);
  }

  // ---- No stranded job ----

  /** A reason for a queued job not to be running: its first write, its lane, or its delay with a timer set for it. */
  predicate Excused(q: Queue, id: JobId) {
    id in q.entries &&
    var e := q.entries[id];
    || e.durability == Pending
    || (e.lane.Some? && e.lane.value in q.holder)
    || (e.dueAt.Some? && q.wake.Some? && q.wake.value <= e.dueAt.value)
  }

  ghost predicate Served(q: Queue) {
    var ok :=
      || |q.active| + |q.starting| >= q.cfg.concurrency
      || forall id :: id in q.queued ==> Excused(q, id);
    ok
  }

  lemma {:induction false} FillStops(q: Queue, now: int)
    ensures
      var r := Fill(q, now);
      && r.paused == q.paused && r.closed == q.closed && r.deciding == q.deciding
      && (SlotFree(r) ==> Best(r, now, |r.queued|) == -1)
    decreases |q.queued|
  {
    hide Launch;
    var best := Best(q, now, |q.queued|);
    if SlotFree(q) && best != -1 {
      LaunchSwitches(q, best);
      FillStops(Launch(q, best), now);
    }
  }

  lemma LaunchSwitches(q: Queue, k: nat)
    requires k < |q.queued| && q.queued[k] in q.entries
    ensures
      var r := Launch(q, k);
      r.paused == q.paused && r.closed == q.closed && r.deciding == q.deciding && |r.queued| < |q.queued|
  {
  }

  lemma {:induction false} WakesEarliest(q: Queue, now: int, n: nat)
    requires n <= |q.queued|
    ensures
      var wake := Earliest(q, now, n);
      && (wake.Some? ==> wake.value > now)
      && (forall k :: 0 <= k < n && Waiting(q, now, q.queued[k]) ==>
           wake.Some? && wake.value <= q.entries[q.queued[k]].dueAt.value)
  {
    if n > 0 { WakesEarliest(q, now, n - 1); }
  }

  /**
   * After a pump of an open queue that is not paused, either the slots are full, or each job left in line
   * is still being written, or its lane is held by a job starting or running, or it is due after the one
   * clock reading the pump made, with the timer set after that reading and no later than it is due.
   */
  lemma PumpStrandsNothing(q: Queue, now: int, id: JobId)
    requires Inv(Pump(q, now)) && !q.paused && !q.closed
    ensures
      var r := Pump(q, now);
      && r.paused == q.paused && r.closed == q.closed && r.deciding == q.deciding
      && (id in r.queued ==>
           || |r.active| + |r.starting| == r.cfg.concurrency
           || r.entries[id].durability == Pending
           || (r.entries[id].lane.Some? && exists x :: Busy(r, x) && x != id && r.entries[x].lane == r.entries[id].lane)
           || (r.entries[id].dueAt.Some? && r.wake.Some? && now < r.wake.value <= r.entries[id].dueAt.value))
  {
    hide Inv, Fill, Pump, ScheduleWake;
    var r := Pump(q, now);
    PumpShape(q, now);
    FillStops(q, now);
    if id in r.queued && |r.active| + |r.starting| < r.cfg.concurrency {
      LineKnown(r, id);
      LeftInLine(Fill(q, now), now, id);
      if r.entries[id].lane.Some? && r.entries[id].lane.value in r.holder { HolderBusy(r, id); }
    }
    SlotsBounded(r);
  }

  lemma SlotsBounded(q: Queue)
    requires Inv(q)
    ensures |q.active| + |q.starting| <= q.cfg.concurrency
  {
  }

  lemma LineOk(q: Queue)
    requires Inv(q)
    ensures NoDup(q.queued) && forall id :: id in q.queued ==> id in q.entries
  {
    hide Lanes, History, Records, Tickets, BeatsOk;
  }

  lemma LineKnown(q: Queue, id: JobId)
    requires Inv(q) && id in q.queued
    ensures id in q.entries && q.entries[id].id == id
  {
    hide Lanes, History, Records, Tickets, BeatsOk;
  }

  lemma HolderBusy(q: Queue, id: JobId)
    requires Inv(q) && id in q.queued && id in q.entries && q.entries[id].lane.Some? && q.entries[id].lane.value in q.holder
    ensures exists x :: Busy(q, x) && x != id && q.entries[x].lane == q.entries[id].lane
  {
    hide Places, History, Records, Tickets, BeatsOk;
    var x := q.holder[q.entries[id].lane.value];
    Here(q, id);
    assert Busy(q, x) && x != id && q.entries[x].lane == q.entries[id].lane;
  }

  lemma LeftInLine(q: Queue, now: int, id: JobId)
    requires id in q.queued && id in q.entries && SlotFree(q) && !q.closed
    requires Best(q, now, |q.queued|) == -1
    ensures
      var e := q.entries[id];
      var wake := ScheduleWake(q, now).wake;
      || e.durability == Pending
      || (e.lane.Some? && e.lane.value in q.holder)
      || (e.dueAt.Some? && wake.Some? && now < wake.value <= e.dueAt.value)
  {
    var k :| 0 <= k < |q.queued| && q.queued[k] == id;
    TakesFirst(q, now, k);
    WakesEarliest(q, now, |q.queued|);
  }

  /**
   * What holds between sections too: while the queue is open, not paused, and not awaiting a retry decision,
   * no job in line is stranded.
   */
  ghost predicate Attended(q: Queue) {
    var ok := !q.paused && !q.closed && q.deciding == map[] ==> Served(q);
    ok
  }

  /** A pump is a fill, and then the timers and the waiters. */
  lemma PumpShape(q: Queue, now: int)
    ensures
      var full, r := Fill(q, now), Pump(q, now);
      SameWork(full, r) && r.wake == ScheduleWake(full, now).wake && r.paused == full.paused
  {
    hide Fill, ScheduleBeat, ScheduleWake, CheckIdle;
    var full := Fill(q, now);
    var timed := ScheduleWake(full, now);
    WakeShape(full, now);
    BeatShape(timed);
    IdleShape(ScheduleBeat(timed));
  }

  /** Two queues alike in their jobs, their slots and their lanes, if not in their timers and waiters. */
  ghost predicate SameWork(q: Queue, r: Queue) {
    && r.cfg == q.cfg && r.entries == q.entries && r.queued == q.queued && r.active == q.active
    && r.starting == q.starting && r.holder == q.holder && r.deciding == q.deciding && r.closed == q.closed
  }

  lemma WakeShape(q: Queue, now: int)
    ensures SameWork(q, ScheduleWake(q, now)) && ScheduleWake(q, now).paused == q.paused
  {
    hide Earliest;
  }

  lemma BeatShape(q: Queue)
    ensures SameWork(q, ScheduleBeat(q)) && ScheduleBeat(q).paused == q.paused && ScheduleBeat(q).wake == q.wake
  {
    hide Held;
  }

  lemma IdleShape(q: Queue)
    ensures SameWork(q, CheckIdle(q)) && CheckIdle(q).paused == q.paused && CheckIdle(q).wake == q.wake
  {
    hide Idle;
  }

  lemma PumpAttended(q: Queue, now: int)
    requires Inv(Pump(q, now))
    ensures Attended(Pump(q, now))
  {
    hide Inv, Fill, Pump, ScheduleWake;
    var r := Pump(q, now);
    PumpShape(q, now);
    FillStops(q, now);
    if !q.paused && !q.closed && |r.active| + |r.starting| < r.cfg.concurrency {
      forall id | id in r.queued ensures Excused(r, id) {
        LineKnown(r, id);
        LeftInLine(Fill(q, now), now, id);
      }
    }
  }

  /** A section that gives back no slot and no lane, adds nothing to the line, and leaves the timer alone. */
  ghost predicate Undisturbed(q: Queue, r: Queue) {
    var ok :=
      && r.cfg == q.cfg && r.paused == q.paused && r.closed == q.closed && r.wake == q.wake && r.deciding == q.deciding
      && |r.active| + |r.starting| == |q.active| + |q.starting|
      && (forall lane :: lane in q.holder ==> lane in r.holder)
      && (forall id :: id in r.queued ==> id in q.queued && id in q.entries && id in r.entries)
      && (forall id :: id in r.queued ==>
           var e, e' := q.entries[id], r.entries[id];
           e'.durability == e.durability && e'.lane == e.lane && e'.dueAt == e.dueAt);
    ok
  }

  lemma UndisturbedAttended(q: Queue, r: Queue)
    requires Attended(q) && Undisturbed(q, r)
    ensures Attended(r)
  {
    if !r.paused && !r.closed && r.deciding == map[] && |q.active| + |q.starting| < q.cfg.concurrency {
      forall id | id in r.queued ensures Excused(r, id) { assert Excused(q, id); }
    }
  }

  lemma UndisturbedTrans(q: Queue, r: Queue, s: Queue)
    requires Undisturbed(q, r) && Undisturbed(r, s)
    ensures Undisturbed(q, s)
  {
  }

  lemma UndisturbedSelf(q: Queue)
    requires Inv(q)
    ensures Undisturbed(q, q)
  {
    hide Lanes, History, Records, Tickets, BeatsOk;
  }

  lemma LoseUndisturbed(q: Queue, id: JobId)
    requires Inv(q)
    ensures Undisturbed(q, Lose(q, id))
  {
    hide Inv, Withdraw, Undisturbed;
    UndisturbedSelf(q);
    if id in q.known && id in q.entries && !Terminal(q.entries[id].state) && q.entries[id].durability != Lost {
      Here(q, id);
      var e := q.entries[id].(durability := Lost, leaseLost := true);
      if e.state == Queued {
        WithdrawUndisturbed(q, e);
      } else {
        OutOfLineUndisturbed(q, e.(aborted := true));
      }
    }
  }

  lemma OutOfLineUndisturbed(q: Queue, e: Entry)
    requires Inv(q) && e.id in q.entries && e.id !in q.queued
    ensures Undisturbed(q, q.(entries := q.entries[e.id := e]))
  {
    hide Lanes, History, Records, Tickets, BeatsOk;
  }

  lemma WithdrawUndisturbed(q: Queue, e: Entry)
    requires Inv(q) && e.id in q.entries && !Terminal(e.state)
    ensures Undisturbed(q, Withdraw(q.(entries := q.entries[e.id := e]), e.id, Failed, Some(LeaseLostMessage(e.id))))
  {
    hide Inv, Settle, Without, NoDup, LeaseLostMessage;
    var id := e.id;
    LineOk(q);
    WithoutNoDup(q.queued, id);
    var q1 := q.(entries := q.entries[id := e], queued := Without(q.queued, id));
    SettleFrame(q1, id, Failed, Some(LeaseLostMessage(id)));
  }

  lemma SettleFrame(q: Queue, id: JobId, outcome: JobState, error: Option<string>)
    requires id in q.entries && !Terminal(q.entries[id].state) && Terminal(outcome)
    ensures
      var r := Settle(q, id, outcome, error);
      && r.cfg == q.cfg && r.paused == q.paused && r.closed == q.closed && r.wake == q.wake && r.deciding == q.deciding
      && r.active == q.active && r.starting == q.starting && r.holder == q.holder && r.queued == q.queued
      && r.waiters == q.waiters && r.beats == q.beats
      && (forall x :: x in r.entries <==> x in q.entries)
      && (forall x :: x in q.entries && x != id ==> r.entries[x] == q.entries[x])
  {
    hide Evict, Record, Persist;
    PersistFrame(q.(entries := q.entries[id := Over(q.entries[id], outcome, error)]), id);
  }

  lemma PersistFrame(q: Queue, id: JobId)
    requires id in q.entries
    ensures
      var r := Persist(q, id, false);
      && (forall x :: x in r.entries <==> x in q.entries)
      && (forall x :: x in q.entries && x != id ==> r.entries[x] == q.entries[x])
  {
  }

  lemma {:induction false} LoseAllUndisturbed(q: Queue, ids: seq<JobId>)
    requires Inv(q) && Accepted(q, ids)
    ensures Undisturbed(q, LoseAll(q, ids))
    decreases |ids|
  {
    hide Inv, Lose, Undisturbed;
    if ids == [] { UndisturbedSelf(q); }
    else {
      assert ids[0] in ids;
      assert forall id :: id in ids[1..] ==> id in ids;
      LoseInv(q, ids[0]);
      LoseKeepsAccepted(q, ids[0], ids);
      LoseUndisturbed(q, ids[0]);
      LoseAllUndisturbed(Lose(q, ids[0]), ids[1..]);
      UndisturbedTrans(q, Lose(q, ids[0]), LoseAll(q, ids));
    }
  }

  /** A job's chain and flags may change, and a running job stays out of line whatever changes. */
  lemma SwapUndisturbed(q: Queue, e: Entry, writes: map<nat, JobId>)
    requires Inv(q) && e.id in q.entries
    requires
      var e0 := q.entries[e.id];
      e.id !in q.queued || (e.durability == e0.durability && e.lane == e0.lane && e.dueAt == e0.dueAt)
    ensures Undisturbed(q, q.(entries := q.entries[e.id := e], writes := writes))
  {
    hide Inv;
    LineOk(q);
  }

  lemma PopUndisturbed(q: Queue, id: JobId)
    requires Inv(q)
    ensures Undisturbed(q, PopWrite(q, id))
  {
    hide Inv, Undisturbed;
    UndisturbedSelf(q);
    if id in q.entries && q.entries[id].chain != [] {
      IdOf(q, id);
      SwapUndisturbed(q, q.entries[id].(chain := q.entries[id].chain[1..]), PopWrite(q, id).writes);
    }
  }

  // ---- Section by section ----

  lemma {:induction false} RestoreAllAttended(q: Queue, jobs: seq<StoredJob>, now: int)
    requires Inv(q) && q.cfg.hasStore && Attended(q)
    ensures Attended(RestoreAll(q, jobs, now))
    decreases |jobs|
  {
    hide Inv, Attended, Pump;
    if jobs != [] {
      RestoreInv(q, jobs[0], now);
      if jobs[0].id !in q.entries { PumpAttended(AddQueued(q, Restored(q.cfg, jobs[0], now)), now); }
      RestoreAllAttended(Restore(q, jobs[0], now), jobs[1..], now);
    }
  }

  /** The sections that end in a pump leave the line attended to, whatever they did before it. */
  lemma PumpingAttended(q: Queue, ev: Event)
    requires Inv(q) && Inv(Step(q, ev)) && Enabled(q, ev)
    requires ev.Enqueued? || ev.CreateReply? || ev.PolicyReply? || ev.Resumed? || ev.WakeFired? || ev.AdoptReply?
    ensures Attended(Step(q, ev))
  {
    hide Inv, Attended, Pump, RestoreAll, Settle, Again, PopWrite, Withdraw, AddQueued, Created;
    match ev {
      case Enqueued(job, now) =>
        var (q', e) := Created(q, NewEntry(q.cfg, job));
        PumpAttended(AddQueued(q', e), now);
      case CreateReply(id, landed, cause, now) =>
        var e := q.entries[id];
        var told := if landed then q.(entries := q.entries[id := e.(durability := Stored)])
          else if Terminal(e.state) then q.(queued := Without(q.queued, id)) else Withdraw(q, id, Failed, Some(cause));
        PumpAttended(PopWrite(told, id), now);
      case PolicyReply(id, delayMs, cause, now) =>
        var decided := if q.entries[id].cancelRequested then Settle(q, id, Cancelled, None)
          else if Heard(q, id, delayMs) == None then Settle(q, id, Failed, Some(cause))
          else Again(q, id, cause, Heard(q, id, delayMs).value, now);
        PumpAttended(decided.(deciding := decided.deciding - {id}), now);
      case Resumed(now) => PumpAttended(q.(paused := false), now);
      case WakeFired(now) => PumpAttended(q.(wake := None), now);
      case AdoptReply(beat, jobs, now) =>
        var took := RestoreAll(q, jobs, now);
        PumpAttended(took.(beats := took.beats - {beat}), now);
    }
  }

  lemma AcquireAttended(q: Queue, id: JobId, reply: Reply, now: int)
    requires Inv(q) && Awaits(q, id, false, true) && Attended(q)
    requires Inv(AcquireAnswered(q, id, reply, now))
    ensures Attended(AcquireAnswered(q, id, reply, now))
  {
    hide Inv, Attended, Pump, Release, PopWrite, Lose, Begin;
    var told := Release(PopWrite(if reply == LeaseGone then Lose(q, id) else q, id), id);
    if id !in told.entries || Terminal(told.entries[id].state) { PumpAttended(told, now); }
    else if reply != Answered {
      var e := told.entries[id];
      var backoff := if q.cfg.heartbeatMs.Some? then q.cfg.heartbeatMs.value else 0;
      PumpAttended(told.(entries := told.entries[id := e.(dueAt := Some(now + backoff))], queued := told.queued + [id]), now);
    } else {
      GrantedUndisturbed(q, id);
      UndisturbedAttended(q, Begin(told, id, true));
    }
  }

  lemma GrantedUndisturbed(q: Queue, id: JobId)
    requires Inv(q) && Awaits(q, id, false, true)
    requires !Terminal(Release(PopWrite(q, id), id).entries[id].state)
    ensures Undisturbed(q, Begin(Release(PopWrite(q, id), id), id, true))
  {
    hide Inv, Begin, Release, PopWrite, Undisturbed, EntryOk;
    AskingPlace(q, id);
    AnsweredShape(q, id);
    Here(q, id);
    var e := q.entries[id];
    if e.lane.Some? { HoldsLane(q, id); }
    GrantedShape(q, id);
    HandedOverUndisturbed(q, Going(e.(chain := e.chain[1..])));
  }

  /** Handing the slot a job was asking for over to its run disturbs nothing in line. */
  lemma HandedOverUndisturbed(q: Queue, e: Entry)
    requires Inv(q) && e.id in q.entries && e.id in q.starting && e.id !in q.active && e.id !in q.queued
    ensures Undisturbed(q, q.(entries := q.entries[e.id := e], starting := q.starting - {e.id}, active := q.active - {e.id} + {e.id}))
  {
    hide Inv, Undisturbed;
    SwapUndisturbed(q, e, q.writes);
    LineOk(q);
    var r := q.(entries := q.entries[e.id := e]);
    MoveUndisturbed(r, q.starting - {e.id}, q.active - {e.id} + {e.id});
    UndisturbedTrans(q, r, r.(starting := q.starting - {e.id}, active := q.active - {e.id} + {e.id}));
  }

  lemma MoveUndisturbed(q: Queue, starting: set<JobId>, active: set<JobId>)
    requires forall id :: id in q.queued ==> id in q.entries
    requires |starting| + |active| == |q.starting| + |q.active|
    ensures Undisturbed(q, q.(starting := starting, active := active))
  {
  }

  lemma HandlerAttended(q: Queue, id: JobId, threw: bool, now: int)
    requires id in q.entries && !Terminal(q.entries[id].state)
    requires Inv(HandlerReturned(q, id, threw, now))
    ensures Attended(HandlerReturned(q, id, threw, now))
  {
    hide Inv, Pump, Release, Settle, Served;
    match Outcome(q.entries[id], threw)
    case Some(outcome) => PumpAttended(Settle(Release(q, id), id, outcome, Some(LeaseLostMessage(id))), now);
    case None => assert id in HandlerReturned(q, id, threw, now).deciding;
  }

  lemma CancelAttended(q: Queue, id: JobId, now: int)
    requires Inv(q) && Inv(Cancel(q, id, now)) && Attended(q)
    ensures Attended(Cancel(q, id, now))
  {
    hide Inv, Pump, Withdraw, Attended, Undisturbed;
    if id in q.known && id in q.entries && !Terminal(q.entries[id].state) {
      if q.entries[id].state == Queued { PumpAttended(Withdraw(q, id, Cancelled, None), now); }
      else {
        Here(q, id);
        SwapUndisturbed(q, q.entries[id].(cancelRequested := true, aborted := true), q.writes);
        UndisturbedAttended(q, Cancel(q, id, now));
      }
    }
  }

  lemma WriteAttended(q: Queue, id: JobId, gone: bool)
    requires Inv(q) && Awaits(q, id, false, false) && Attended(q)
    ensures Attended(WriteAnswered(q, id, gone))
  {
    hide Inv, PopWrite, Lose, Attended, Undisturbed;
    var told := if gone then Lose(q, id) else q;
    WritingOk(q, id);
    UndisturbedSelf(q);
    if gone { LoseUndisturbed(q, id); LoseInv(q, id); }
    PopUndisturbed(told, id);
    UndisturbedTrans(q, told, PopWrite(told, id));
    UndisturbedAttended(q, PopWrite(told, id));
    SwitchAttended(PopWrite(told, id), WriteAnswered(q, id, gone));
  }

  /** Attendance does not depend on waiters, beats or the heartbeat timer, and asks nothing of a paused queue. */
  lemma SwitchAttended(q: Queue, r: Queue)
    requires Attended(q)
    requires SameWork(q, r) && r.wake == q.wake && (r.paused || r.paused == q.paused)
    ensures Attended(r)
  {
    if !r.paused && !r.closed && r.deciding == map[] && |q.active| + |q.starting| < q.cfg.concurrency {
      forall id | id in r.queued ensures Excused(r, id) { assert Excused(q, id); }
    }
  }

  lemma ThenAdoptAttended(q: Queue, beat: nat, now: int)
    requires Attended(q) && Inv(ThenAdopt(q, beat, now))
    ensures Attended(ThenAdopt(q, beat, now))
  {
    hide Inv, Pump, Attended;
    if !q.cfg.canAdopt || q.cfg.heartbeatMs == None || q.paused || q.closed {
      PumpAttended(q.(beats := q.beats - {beat}), now);
    } else {
      SwitchAttended(q, ThenAdopt(q, beat, now));
    }
  }

  lemma BeatAttended(q: Queue, ev: Event)
    requires Inv(q) && Enabled(q, ev) && Attended(q) && Inv(Step(q, ev))
    requires ev.BeatFired? || ev.RenewReply?
    ensures Attended(Step(q, ev))
  {
    hide Inv, Attended, Undisturbed, ThenAdopt, LoseAll, Held;
    match ev {
      case BeatFired(now) =>
        var fired := q.(beatArmed := false, nextBeat := q.nextBeat + 1);
        SwitchAttended(q, fired);
        if q.cfg.heartbeatMs.Some? && Held(q) != {} { SwitchAttended(q, BeatFires(q, now)); }
        else { ThenAdoptAttended(fired, q.nextBeat, now); }
      case RenewReply(beat, lost, now) =>
        RenewedAccepted(q, beat, lost);
        LoseAllUndisturbed(q, lost);
        UndisturbedAttended(q, LoseAll(q, lost));
        ThenAdoptAttended(LoseAll(q, lost), beat, now);
    }
  }

  lemma RecoverAttended(q: Queue, jobs: seq<StoredJob>, now: int)
    requires Inv(q) && Enabled(q, RecoverReply(jobs, now)) && Attended(q)
    ensures Attended(Step(q, RecoverReply(jobs, now)))
  {
    hide Inv, Attended, RestoreAll, Held;
    SwitchInv(q, q.beatArmed, q.wake, q.waiters, q.paused, q.closed, true, q.nextBeat);
    SwitchAttended(q, q.(recovered := true));
    RestoreAllAttended(q.(recovered := true), jobs, now);
    SwitchAttended(RestoreAll(q.(recovered := true), jobs, now), Step(q, RecoverReply(jobs, now)));
  }

  lemma StepAttended(q: Queue, ev: Event)
    requires Inv(q) && Attended(q)
    ensures Attended(Step(q, ev))
  {
    hide Inv, Attended, Enqueue, CreateAnswered, WriteAnswered, AcquireAnswered, HandlerReturned, PolicyAnswered, Cancel, Close,
         BeatFires, RenewAnswered, AdoptAnswered, Pump, RestoreAll, ScheduleBeat, Drain, Resume, RecoverAnswered;
    StepInv(q, ev);
    if Enabled(q, ev) {
      match ev
      case WriteReply(id, gone) => WriteAttended(q, id, gone);
      case AcquireReply(id, reply, now) => AcquireAttended(q, id, reply, now);
      case HandlerDone(id, threw, now) => HandlerAttended(q, id, threw, now);
      case CancelAsked(id, now) => CancelAttended(q, id, now);
      case Closed(starting, active, now) => ClosedAttended(q, starting, active, now);
      case Paused => SwitchAttended(q, q.(paused := true));
      case RecoverFailed => SwitchAttended(q, q.(recovered := true));
      case DrainAsked => DrainAttended(q);
      case BeatFired(_) => BeatAttended(q, ev);
      case RenewReply(_, _, _) => BeatAttended(q, ev);
      case RecoverReply(jobs, now) => RecoverAttended(q, jobs, now);
      case _ => PumpingAttended(q, ev);
    }
  }

  lemma DrainAttended(q: Queue)
    requires Attended(q)
    ensures Attended(Drain(q))
  {
    hide Attended, Drain;
    DrainShape(q);
    SwitchAttended(q, Drain(q));
  }

  lemma DrainShape(q: Queue)
    ensures SameWork(q, Drain(q)) && Drain(q).wake == q.wake && Drain(q).paused == q.paused
  {
    hide Idle;
    assert Drain(q) == q || Drain(q) == q.(waiters := q.waiters + 1);
  }

  lemma ClosedAttended(q: Queue, starting: seq<JobId>, active: seq<JobId>, now: int)
    requires Inv(q)
    ensures Attended(Close(q, starting, active, now))
  {
    hide Inv, Close, Served;
    CloseGrows(q, starting, active, now, map[]);
  }

  lemma {:induction false} RunAttended(q: Queue, evs: seq<Event>)
    requires Inv(q) && Attended(q)
    ensures Attended(Run(q, evs))
    decreases |evs|
  {
    hide Inv, Attended, Step;
    if evs != [] {
      StepInv(q, evs[0]);
      StepAttended(q, evs[0]);
      RunAttended(Step(q, evs[0]), evs[1..]);
    }
  }

  /** In every reachable open, unpaused state with no retry decision outstanding, no job in line is stranded. */
  lemma NoneStranded(cfg: Config, paused: bool, evs: seq<Event>, id: JobId)
    requires ValidConfig(cfg)
    ensures
      var q := Reached(cfg, paused, evs);
      !q.paused && !q.closed && q.deciding == map[] && |q.active| + |q.starting| < cfg.concurrency && id in q.queued ==>
        Excused(q, id)
  {
    hide Inv, Reached;
    ReachedInv(cfg, paused, evs);
    FreshInv(cfg, paused);
    FreshAttended(cfg, paused);
    RunIsReached(cfg, paused, evs);
    RunAttended(Fresh(cfg, paused), evs);
  }

  lemma RunIsReached(cfg: Config, paused: bool, evs: seq<Event>)
    ensures Reached(cfg, paused, evs) == Run(Fresh(cfg, paused), evs)
  {
  }

  lemma FreshAttended(cfg: Config, paused: bool)
    ensures Attended(Fresh(cfg, paused))
  {
  }

  /** A job the queue could start at once, if only it looked. */
  predicate Startable(q: Queue, now: int, id: JobId) {
    id in q.queued && SlotFree(q) && Eligible(q, now, id)
  }

  /**
   * Why the retry decision matters: a handler that throws gives back its slot and lane without a pump. The
   * section leaves a job stranded exactly when one was waiting for nothing but that slot and that lane.
   */
  lemma ThrowStrands(q: Queue, id: JobId, now: int, x: JobId)
    requires Inv(q) && id in q.active && id in q.entries && q.entries[id].state == Running
    requires Outcome(q.entries[id], true) == None && x in q.queued && !q.paused
    ensures
      var r := HandlerReturned(q, id, true, now);
      var e := q.entries[x];
      x in q.entries &&
      (Startable(r, now, x) <==>
        && e.durability != Pending && !(e.dueAt.Some? && e.dueAt.value > now)
        && (e.lane.Some? && e.lane.value in q.holder ==> e.lane == q.entries[id].lane))
  {
    hide History, Records, Tickets, BeatsOk;
    LineKnown(q, x);
    var r := HandlerReturned(q, id, true, now);
    assert |r.active| + |r.starting| < q.cfg.concurrency by { FreesSlot(q, id); }
  }

  lemma FreesSlot(q: Queue, id: JobId)
    requires Inv(q) && id in q.active && id in q.entries
    ensures |Release(q, id).active| + |Release(q, id).starting| < q.cfg.concurrency
  {
    hide Lanes, History, Records, Tickets, BeatsOk, Places;
    Here(q, id);
    assert q.starting - {id} == q.starting;
  }
}
