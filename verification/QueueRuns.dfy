/** Runs of one queue: any sequence of its atomic sections, with whatever its surroundings answer. */
module QueueRuns {
  import opened Jobs
  import opened Sequences
  import opened QueueSpec
  import opened QueueInvariant

  datatype Event =
    | Enqueued(job: StoredJob, now: int)
    | CreateReply(id: JobId, landed: bool, cause: string, now: int)
    | WriteReply(id: JobId, gone: bool)
    | AcquireReply(id: JobId, reply: Reply, now: int)
    | HandlerDone(id: JobId, threw: bool, now: int)
    | PolicyReply(id: JobId, delayMs: Option<nat>, cause: string, now: int)
    | CancelAsked(id: JobId, now: int)
    | Paused
    | Resumed(now: int)
    | DrainAsked
    | Closed(starting: seq<JobId>, active: seq<JobId>, now: int)
    | WakeFired(now: int)
    | BeatFired(now: int)
    | RenewReply(beat: nat, lost: seq<JobId>, now: int)   // a renewal that throws loses nothing
    | AdoptReply(beat: nat, jobs: seq<StoredJob>, now: int)
    | RecoverReply(jobs: seq<StoredJob>, now: int)
    | RecoverFailed                                      // the load threw: nothing came back, and it is not asked again

  /** A job as `enqueue` makes it: never run, not delayed. */
  predicate Newborn(job: StoredJob) {
    job.state == Queued && job.attempt == 0 && job.nextAttemptAt == None && job.error == None
  }

  /** The reply a job's next store write is waiting for, if it is waiting for one. */
  predicate Awaits(q: Queue, id: JobId, create: bool, acquire: bool) {
    && id in q.entries && q.entries[id].chain != []
    && q.entries[id].chain[0].Create? == create && q.entries[id].chain[0].Acquire? == acquire
  }

  /** Which events can happen. Ids are not reused: one that has had an entry here does not enter again. */
  ghost predicate Enabled(q: Queue, ev: Event) {
    match ev
    case Enqueued(job, _) => !q.closed && job.id !in q.entries && Newborn(job)
    case CreateReply(id, _, _, _) => Awaits(q, id, true, false)
    case WriteReply(id, _) => Awaits(q, id, false, false)
    case AcquireReply(id, _, _) => Awaits(q, id, false, true)
    case HandlerDone(id, _, _) => id in q.active && id in q.entries && q.entries[id].state == Running
    case PolicyReply(id, delayMs, _, _) =>
      id in q.deciding && id in q.entries && q.entries[id].state == Running && (delayMs.Some? ==> Allowed(q, id))
    case CancelAsked(_, _) => true
    case Paused => true
    case Resumed(_) => !q.closed
    case DrainAsked => true
    case Closed(starting, active, _) =>
      (forall id :: id in starting <==> id in q.starting) && (forall id :: id in active <==> id in q.active)
    case WakeFired(_) => q.wake.Some?
    case BeatFired(_) => q.beatArmed
    case RenewReply(beat, lost, _) =>
      beat in q.beats && q.beats[beat].Renewing? && forall id :: id in lost ==> id in q.beats[beat].ids
    case AdoptReply(beat, jobs, _) => beat in q.beats && q.beats[beat] == Adopting && q.cfg.hasStore
    case RecoverReply(_, _) => q.cfg.hasStore && !q.recovered
    case RecoverFailed => q.cfg.hasStore && !q.recovered
  }

  function Apply(q: Queue, ev: Event): Queue {
    match ev
    case Enqueued(job, now) => Enqueue(q, job, now)
    case CreateReply(id, landed, cause, now) => if id in q.entries then CreateAnswered(q, id, landed, cause, now) else q
    case WriteReply(id, gone) => WriteAnswered(q, id, gone)
    case AcquireReply(id, reply, now) => if id in q.entries then AcquireAnswered(q, id, reply, now) else q
    case HandlerDone(id, threw, now) =>
      if id in q.entries && !Terminal(q.entries[id].state) then HandlerReturned(q, id, threw, now) else q
    case PolicyReply(id, delayMs, cause, now) =>
      if id in q.entries && !Terminal(q.entries[id].state) then PolicyAnswered(q, id, delayMs, cause, now) else q
    case CancelAsked(id, now) => Cancel(q, id, now)
    case Paused => q.(paused := true)
    case Resumed(now) => Resume(q, now)
    case DrainAsked => Drain(q)
    case Closed(starting, active, now) => Close(q, starting, active, now)
    case WakeFired(now) => Pump(q.(wake := None), now)
    case BeatFired(now) => BeatFires(q, now)
    case RenewReply(beat, lost, now) => RenewAnswered(q, beat, lost, now)
    case AdoptReply(beat, jobs, now) => AdoptAnswered(q, beat, jobs, now)
    case RecoverReply(jobs, now) => RecoverAnswered(q.(recovered := true), jobs, now)
    case RecoverFailed => q.(recovered := true)
  }

  ghost function Step(q: Queue, ev: Event): Queue {
    if Enabled(q, ev) then Apply(q, ev) else q
  }

  ghost function Run(q: Queue, evs: seq<Event>): Queue
    decreases |evs|
  {
    if evs == [] then q else Run(Step(q, evs[0]), evs[1..])
  }

  // ---- The invariant, section by section ----

  lemma WithdrawQueuedInv(q: Queue, id: JobId, outcome: JobState, error: Option<string>)
    requires Inv(q) && id in q.entries && q.entries[id].state == Queued && Terminal(outcome)
    ensures Inv(Withdraw(q, id, outcome, error))
  {
    hide Inv, Withdraw;
    Here(q, id);
    assert q.entries[id := q.entries[id]] == q.entries;
    assert q.(entries := q.entries[id := q.entries[id]]) == q;
    WithdrawInv(q, q.entries[id], outcome, error);
  }

  lemma LoseInv(q: Queue, id: JobId)
    requires Inv(q)
    requires id in q.entries && !Terminal(q.entries[id].state) ==>
      q.entries[id].durability != Pending && q.entries[id].durability != Unstored
    ensures Inv(Lose(q, id))
  {
    hide Inv, Withdraw;
    if id in q.known && id in q.entries && !Terminal(q.entries[id].state) && q.entries[id].durability != Lost {
      Here(q, id);
      var e := q.entries[id];
      if e.state == Queued {
        LoseQueuedInv(q, id);
      } else {
        SignalInv(q, id, e.(durability := Lost, leaseLost := true).(aborted := true));
      }
    }
  }

  lemma LoseQueuedInv(q: Queue, id: JobId)
    requires Inv(q) && id in q.entries && q.entries[id].state == Queued && q.entries[id].durability == Stored
    ensures Inv(MarkLost(q, id, q.entries[id].(durability := Lost, leaseLost := true)))
  {
    hide Inv, Withdraw;
    Here(q, id);
    var e := q.entries[id].(durability := Lost, leaseLost := true);
    LostChainOk(q.cfg, q.entries[id], id in q.starting);
    WithdrawInv(q, e, Failed, Some(LeaseLostMessage(id)));
  }

  lemma LostChainOk(cfg: Config, e: Entry, starting: bool)
    requires EntryOk(cfg, e, starting) && e.durability == Stored && !Terminal(e.state)
    ensures
      var e' := e.(durability := Lost, leaseLost := true);
      ChainOk(cfg, e', starting) && BaseFlags(cfg, e', starting) && InBudget(cfg, e')
  {
    var e' := e.(durability := Lost, leaseLost := true);
    assert ClaimOf(e') == ClaimOf(e);
  }

  /** The store has accepted each of these jobs, so losing one is possible. */
  ghost predicate Accepted(q: Queue, ids: seq<JobId>) {
    forall id :: id in ids && id in q.entries ==>
      q.entries[id].durability != Pending && q.entries[id].durability != Unstored
  }

  /** Losing a job changes its own entry and nothing about where any job is, except that it leaves the line. */
  lemma MarkLostEntries(q: Queue, id: JobId, e: Entry)
    requires !Terminal(e.state) && e.id == id && e.durability == Lost
    ensures
      var r := MarkLost(q, id, e);
      && r.starting == q.starting
      && exists e' :: r.entries == q.entries[id := e'] && e'.durability == Lost && e'.chain == e.chain
           && (e.state == Queued ==> Terminal(e'.state))
  {
    hide Settle;
    if e.state == Queued {
      var q1 := q.(entries := q.entries[id := e], queued := Without(q.queued, id));
      SettleEntries(q1, id, Failed, Some(LeaseLostMessage(id)));
      SettleStarting(q1, id, Failed, Some(LeaseLostMessage(id)));
      var e' := Over(e, Failed, Some(LeaseLostMessage(id)));
      Overwritten(q.entries, id, e, e');
      assert MarkLost(q, id, e).entries == q.entries[id := e'];
    } else {
      assert MarkLost(q, id, e).entries == q.entries[id := e.(aborted := true)];
    }
  }

  lemma SettleStarting(q: Queue, id: JobId, outcome: JobState, error: Option<string>)
    requires id in q.entries && !Terminal(q.entries[id].state) && Terminal(outcome)
    ensures Settle(q, id, outcome, error).starting == q.starting
  {
  }

  lemma LoseKeepsAccepted(q: Queue, id: JobId, ids: seq<JobId>)
    requires Inv(q) && Accepted(q, ids)
    ensures Accepted(Lose(q, id), ids)
  {
    hide Inv, MarkLost;
    if id in q.known && id in q.entries && !Terminal(q.entries[id].state) && q.entries[id].durability != Lost {
      Here(q, id);
      MarkLostEntries(q, id, q.entries[id].(durability := Lost, leaseLost := true));
    }
  }

  lemma {:induction false} LoseAllInv(q: Queue, ids: seq<JobId>)
    requires Inv(q) && Accepted(q, ids)
    ensures Inv(LoseAll(q, ids))
    decreases |ids|
  {
    hide Inv, Lose;
    if ids != [] {
      assert ids[0] in ids;
      LoseInv(q, ids[0]);
      LoseKeepsAccepted(q, ids[0], ids);
      assert forall id :: id in ids[1..] ==> id in ids;
      LoseAllInv(Lose(q, ids[0]), ids[1..]);
    }
  }

  lemma CancelInv(q: Queue, id: JobId, now: int)
    requires Inv(q)
    ensures Inv(Cancel(q, id, now))
  {
    hide Inv, Withdraw, Pump;
    if id in q.known && id in q.entries && !Terminal(q.entries[id].state) {
      Here(q, id);
      if q.entries[id].state == Queued {
        WithdrawQueuedInv(q, id, Cancelled, None);
        PumpInv(Withdraw(q, id, Cancelled, None), now);
      } else {
        SignalInv(q, id, q.entries[id].(cancelRequested := true, aborted := true));
      }
    }
  }

  lemma {:induction false} CancelAllInv(q: Queue, ids: seq<JobId>, now: int)
    requires Inv(q)
    ensures Inv(CancelAll(q, ids, now))
    decreases |ids|
  {
    hide Inv, Cancel;
    if ids != [] {
      CancelInv(q, ids[0], now);
      CancelAllInv(Cancel(q, ids[0], now), ids[1..], now);
    }
  }

  /** Fields outside the invariant: the timers, the waiters, and the switches. */
  lemma SwitchInv(q: Queue, armed: bool, wake: Option<int>, waiters: nat, paused: bool, closed: bool, recovered: bool, next: nat)
    requires Inv(q)
    ensures Inv(q.(beatArmed := armed, wake := wake, waiters := waiters, paused := paused, closed := closed,
                   recovered := recovered, nextBeat := next))
  {
    hide Places, Lanes, History, Records, Tickets, BeatsOk;
  }

  lemma BeatInv(q: Queue, beats: map<nat, Beat>)
    requires Inv(q) && BeatsOk(q.entries, beats)
    ensures Inv(q.(beats := beats))
  {
    hide Places, Lanes, History, Records, Tickets, BeatsOk;
  }

  lemma ThenAdoptInv(q: Queue, beat: nat, now: int)
    requires Inv(q)
    ensures Inv(ThenAdopt(q, beat, now))
  {
    hide Inv, Pump;
    BeatsDropped(q, beat);
    if !q.cfg.canAdopt || q.cfg.heartbeatMs == None || q.paused || q.closed {
      BeatInv(q, q.beats - {beat});
      PumpInv(q.(beats := q.beats - {beat}), now);
    } else {
      BeatInv(q, q.beats[beat := Adopting]);
    }
  }

  lemma BeatsDropped(q: Queue, beat: nat)
    requires Inv(q)
    ensures BeatsOk(q.entries, q.beats - {beat}) && BeatsOk(q.entries, q.beats[beat := Adopting])
    ensures ValidConfig(q.cfg) && q.cfg.heartbeatMs.Some? ==> BeatsOk(q.entries, q.beats[q.nextBeat := Renewing(Held(q))])
  {
    hide Places, Lanes, History, Records, Tickets;
  }

  lemma BeatFiresInv(q: Queue, now: int)
    requires Inv(q)
    ensures Inv(BeatFires(q, now))
  {
    hide Inv, ThenAdopt, Held;
    var fired := q.(beatArmed := false, nextBeat := q.nextBeat + 1);
    SwitchInv(q, false, q.wake, q.waiters, q.paused, q.closed, q.recovered, q.nextBeat + 1);
    if q.cfg.heartbeatMs.Some? && Held(q) != {} {
      BeatsDropped(q, q.nextBeat);
      ConfigOf(q);
      BeatInv(fired, q.beats[q.nextBeat := Renewing(Held(q))]);
    } else {
      ThenAdoptInv(fired, q.nextBeat, now);
    }
  }

  lemma ConfigOf(q: Queue)
    requires Inv(q)
    ensures ValidConfig(q.cfg)
  {
  }

  lemma RestoreInv(q: Queue, job: StoredJob, now: int)
    requires Inv(q) && q.cfg.hasStore
    ensures Inv(Restore(q, job, now))
  {
    hide Inv, Pump, AddQueued;
    if job.id !in q.entries {
      var e := Restored(q.cfg, job, now);
      AddQueuedInv(q, e);
      PumpInv(AddQueued(q, e), now);
    }
  }

  lemma {:induction false} RestoreAllInv(q: Queue, jobs: seq<StoredJob>, now: int)
    requires Inv(q) && q.cfg.hasStore
    ensures Inv(RestoreAll(q, jobs, now))
    decreases |jobs|
  {
    hide Inv, Restore;
    if jobs != [] {
      RestoreInv(q, jobs[0], now);
      RestoreAllInv(Restore(q, jobs[0], now), jobs[1..], now);
    }
  }

  lemma CreateAnsweredInv(q: Queue, id: JobId, landed: bool, cause: string, now: int)
    requires Inv(q) && Awaits(q, id, true, false)
    ensures Inv(CreateAnswered(q, id, landed, cause, now))
  {
    hide Inv, Pump, PopWrite, Withdraw, EntryOk;
    CreatingPlace(q, id);
    var e := q.entries[id];
    if landed {
      LandedInv(q, id);
      PumpInv(PopWrite(q.(entries := q.entries[id := e.(durability := Stored)]), id), now);
    } else if Terminal(e.state) {
      NotInLine(q, id);
      PopInv(q, id);
      PumpInv(PopWrite(q, id), now);
    } else {
      WithdrawQueuedInv(q, id, Failed, Some(cause));
      WithdrawnHead(q, id, Failed, Some(cause));
      PopInv(Withdraw(q, id, Failed, Some(cause)), id);
      PumpInv(PopWrite(Withdraw(q, id, Failed, Some(cause)), id), now);
    }
  }

  /** A job whose first write has not been answered is not asking for its lane, and has not started. */
  lemma CreatingPlace(q: Queue, id: JobId)
    requires Inv(q) && Awaits(q, id, true, false)
    ensures Terminal(q.entries[id].state) || (q.entries[id].state == Queued && id !in q.starting)
    ensures id !in q.starting
  {
    Here(q, id);
  }

  lemma {:induction false} WithoutAbsent(s: seq<JobId>, x: JobId)
    requires x !in s
    ensures Without(s, x) == s
  {
    if s != [] { WithoutAbsent(s[1..], x); }
  }

  lemma NotInLine(q: Queue, id: JobId)
    requires Inv(q) && id in q.entries && Terminal(q.entries[id].state)
    ensures q.(queued := Without(q.queued, id)) == q
  {
    Here(q, id);
    WithoutAbsent(q.queued, id);
  }

  lemma WithdrawnHead(q: Queue, id: JobId, outcome: JobState, error: Option<string>)
    requires Inv(q) && id in q.entries && !Terminal(q.entries[id].state) && Terminal(outcome)
    requires q.entries[id].chain != []
    ensures
      var r := Withdraw(q, id, outcome, error);
      && id in r.entries && r.entries[id].chain != [] && r.entries[id].chain[0] == q.entries[id].chain[0]
      && Terminal(r.entries[id].state)
  {
    hide Inv, Settle;
    Here(q, id);
    SettleEntries(q.(queued := Without(q.queued, id)), id, outcome, error);
  }

  lemma WriteAnsweredInv(q: Queue, id: JobId, gone: bool)
    requires Inv(q) && Awaits(q, id, false, false)
    ensures Inv(WriteAnswered(q, id, gone))
  {
    hide Inv, PopWrite, Lose;
    var told := if gone then Lose(q, id) else q;
    WritingOk(q, id);
    if gone {
      LoseInv(q, id);
      LoseHead(q, id);
    }
    PopInv(told, id);
    CheckIdleInv(PopWrite(told, id));
  }

  lemma CheckIdleInv(q: Queue)
    requires Inv(q)
    ensures Inv(CheckIdle(q))
  {
    hide Inv;
    SwitchInv(q, q.beatArmed, q.wake, 0, q.paused, q.closed, q.recovered, q.nextBeat);
  }

  lemma WritingOk(q: Queue, id: JobId)
    requires Inv(q) && id in q.entries && q.entries[id].chain != [] && !q.entries[id].chain[0].Create?
    ensures !Terminal(q.entries[id].state) ==>
      q.entries[id].durability != Pending && q.entries[id].durability != Unstored
  {
    Here(q, id);
  }

  lemma LoseHead(q: Queue, id: JobId)
    requires Inv(q) && id in q.entries
    ensures
      var r := Lose(q, id);
      && id in r.entries && r.entries[id].chain == q.entries[id].chain && r.starting == q.starting
      && (q.entries[id].state == Queued && q.entries[id].durability != Lost ==> Terminal(r.entries[id].state))
  {
    hide Inv, MarkLost;
    Here(q, id);
    if id in q.known && !Terminal(q.entries[id].state) && q.entries[id].durability != Lost {
      MarkLostEntries(q, id, q.entries[id].(durability := Lost, leaseLost := true));
    }
  }

  lemma LoseTerminal(q: Queue, id: JobId)
    requires id in q.entries && Terminal(q.entries[id].state)
    ensures Lose(q, id) == q
  {
  }

  /** A job asking for its lane is known, stored, and not otherwise placed. */
  lemma AskingPlace(q: Queue, id: JobId)
    requires Inv(q) && Awaits(q, id, false, true)
    ensures id in q.starting
    ensures Terminal(q.entries[id].state) || (q.entries[id].state == Queued && q.entries[id].durability != Lost)
  {
    Here(q, id);
  }

  lemma AnsweredSame(q: Queue, id: JobId)
    requires Inv(q) && id in q.starting && Awaits(q, id, false, true) && Terminal(q.entries[id].state)
    ensures Inv(Release(PopWrite(q, id), id))
  {
    hide Inv, PopWrite, Release;
    AnsweredInv(q, id, q.entries[id].dueAt, q.queued);
    AnsweredShape(q, id);
    var e := q.entries[id];
    assert e.(chain := e.chain[1..], dueAt := e.dueAt) == e.(chain := e.chain[1..]);
  }

  lemma AnsweredTerminalInv(q: Queue, id: JobId, now: int)
    requires Inv(q) && id in q.starting && Awaits(q, id, false, true) && Terminal(q.entries[id].state)
    ensures
      var told := Release(PopWrite(q, id), id);
      && id in told.entries && Terminal(told.entries[id].state) && Inv(Pump(told, now))
  {
    hide Inv, PopWrite, Release, Pump;
    AnsweredSame(q, id);
    AnsweredShape(q, id);
    PumpInv(Release(PopWrite(q, id), id), now);
  }

  lemma AnsweredAgainInv(q: Queue, id: JobId, due: int, now: int)
    requires Inv(q) && id in q.starting && Awaits(q, id, false, true) && !Terminal(q.entries[id].state)
    ensures
      var told := Release(PopWrite(q, id), id);
      && id in told.entries && !Terminal(told.entries[id].state)
      && Inv(Pump(told.(entries := told.entries[id := told.entries[id].(dueAt := Some(due))],
                        queued := told.queued + [id]), now))
  {
    hide Inv, PopWrite, Release, Pump;
    AnsweredInv(q, id, Some(due), q.queued + [id]);
    AnsweredShape(q, id);
    var e := q.entries[id];
    var told := Release(PopWrite(q, id), id);
    Overwritten(q.entries, id, e.(chain := e.chain[1..]), e.(chain := e.chain[1..], dueAt := Some(due)));
    PumpInv(told.(entries := told.entries[id := told.entries[id].(dueAt := Some(due))], queued := told.queued + [id]), now);
  }

  lemma AcquireAnsweredInv(q: Queue, id: JobId, reply: Reply, now: int)
    requires Inv(q) && Awaits(q, id, false, true)
    ensures Inv(AcquireAnswered(q, id, reply, now))
  {
    hide Inv, PopWrite, Release, Pump, Lose, Begin;
    AskingPlace(q, id);
    var asked := if reply == LeaseGone then Lose(q, id) else q;
    if reply == LeaseGone {
      WritingOk(q, id);
      LoseInv(q, id);
      LoseHead(q, id);
    }
    if reply == LeaseGone || Terminal(q.entries[id].state) {
      if Terminal(q.entries[id].state) { LoseTerminal(q, id); }
      AnsweredTerminalInv(asked, id, now);
    } else {
      var backoff := if q.cfg.heartbeatMs.Some? then q.cfg.heartbeatMs.value else 0;
      AnsweredAgainInv(q, id, now + backoff, now);
      GrantedInv(q, id);
    }
  }

  lemma HandlerReturnedInv(q: Queue, id: JobId, threw: bool, now: int)
    requires Inv(q) && id in q.active && id in q.entries && q.entries[id].state == Running
    ensures Inv(HandlerReturned(q, id, threw, now))
  {
    hide Inv, Release, Pump, Settle;
    match Outcome(q.entries[id], threw)
    case Some(outcome) =>
      FinishInv(q, id, outcome, Some(LeaseLostMessage(id)));
      PumpInv(Settle(Release(q, id), id, outcome, Some(LeaseLostMessage(id))), now);
    case None =>
      DecideInv(q, id, q.cfg.hasRetry && !q.closed);
  }

  lemma PolicyAnsweredInv(q: Queue, id: JobId, delayMs: Option<nat>, cause: string, now: int)
    requires Inv(q) && id in q.deciding && id in q.entries && q.entries[id].state == Running
    requires delayMs.Some? ==> Allowed(q, id)
    ensures Inv(PolicyAnswered(q, id, delayMs, cause, now))
  {
    hide Inv, Pump, Settle, Again;
    if q.entries[id].cancelRequested {
      GiveUpInv(q, id, Cancelled, None);
      var r := Settle(q, id, Cancelled, None);
      PumpInv(r.(deciding := r.deciding - {id}), now);
    } else if Heard(q, id, delayMs) == None {
      GiveUpInv(q, id, Failed, Some(cause));
      var r := Settle(q, id, Failed, Some(cause));
      PumpInv(r.(deciding := r.deciding - {id}), now);
    } else {
      AgainInv(q, id, cause, Heard(q, id, delayMs).value, now);
      var r := Again(q, id, cause, Heard(q, id, delayMs).value, now);
      PumpInv(r.(deciding := r.deciding - {id}), now);
    }
  }

  lemma CloseInv(q: Queue, starting: seq<JobId>, active: seq<JobId>, now: int)
    requires Inv(q)
    ensures Inv(Close(q, starting, active, now))
  {
    hide Inv, CancelAll;
    var shut := q.(closed := true, paused := true, wake := None, beatArmed := false);
    SwitchInv(q, false, None, q.waiters, true, true, q.recovered, q.nextBeat);
    CancelAllInv(shut, q.queued, now);
    CancelAllInv(CancelAll(shut, q.queued, now), starting, now);
    CancelAllInv(CancelAll(CancelAll(shut, q.queued, now), starting, now), active, now);
    DrainInv(CancelAll(CancelAll(CancelAll(shut, q.queued, now), starting, now), active, now));
  }

  lemma DrainInv(q: Queue)
    requires Inv(q)
    ensures Inv(Drain(q))
  {
    hide Inv;
    SwitchInv(q, q.beatArmed, q.wake, q.waiters + 1, q.paused, q.closed, q.recovered, q.nextBeat);
  }

  lemma RenewAnsweredInv(q: Queue, beat: nat, lost: seq<JobId>, now: int)
    requires Inv(q) && Enabled(q, RenewReply(beat, lost, now))
    ensures Inv(RenewAnswered(q, beat, lost, now))
  {
    hide Inv, LoseAll, ThenAdopt;
    RenewedAccepted(q, beat, lost);
    LoseAllInv(q, lost);
    ThenAdoptInv(LoseAll(q, lost), beat, now);
  }

  lemma RenewedAccepted(q: Queue, beat: nat, lost: seq<JobId>)
    requires Inv(q) && beat in q.beats && q.beats[beat].Renewing? && forall id :: id in lost ==> id in q.beats[beat].ids
    ensures Accepted(q, lost)
  {
    hide Places, Lanes, History, Records, Tickets;
  }

  lemma AdoptAnsweredInv(q: Queue, beat: nat, jobs: seq<StoredJob>, now: int)
    requires Inv(q) && q.cfg.hasStore
    ensures Inv(AdoptAnswered(q, beat, jobs, now))
  {
    hide Inv, RestoreAll, Pump;
    var took := RestoreAll(q, jobs, now);
    RestoreAllInv(q, jobs, now);
    BeatsDropped(took, beat);
    BeatInv(took, took.beats - {beat});
    PumpInv(took.(beats := took.beats - {beat}), now);
  }

  lemma ScheduleBeatInv(q: Queue)
    requires Inv(q)
    ensures Inv(ScheduleBeat(q))
  {
    hide Inv, Held;
    SwitchInv(q, true, q.wake, q.waiters, q.paused, q.closed, q.recovered, q.nextBeat);
  }

  lemma TimerInv(q: Queue, ev: Event)
    requires Inv(q) && Enabled(q, ev)
    requires ev.Paused? || ev.Resumed? || ev.WakeFired? || ev.RecoverReply? || ev.RecoverFailed? || ev.DrainAsked?
    ensures Inv(Apply(q, ev))
  {
    hide Inv, Pump, RestoreAll, ScheduleBeat, Drain;
    match ev {
      case Paused => SwitchInv(q, q.beatArmed, q.wake, q.waiters, true, q.closed, q.recovered, q.nextBeat);
      case Resumed(now) =>
        SwitchInv(q, q.beatArmed, q.wake, q.waiters, false, q.closed, q.recovered, q.nextBeat);
        PumpInv(q.(paused := false), now);
      case WakeFired(now) =>
        SwitchInv(q, q.beatArmed, None, q.waiters, q.paused, q.closed, q.recovered, q.nextBeat);
        PumpInv(q.(wake := None), now);
      case RecoverReply(jobs, now) =>
        SwitchInv(q, q.beatArmed, q.wake, q.waiters, q.paused, q.closed, true, q.nextBeat);
        RestoreAllInv(q.(recovered := true), jobs, now);
        ScheduleBeatInv(RestoreAll(q.(recovered := true), jobs, now));
      case RecoverFailed => SwitchInv(q, q.beatArmed, q.wake, q.waiters, q.paused, q.closed, true, q.nextBeat);
      case DrainAsked => DrainInv(q);
    }
  }

  lemma EnqueueInv(q: Queue, job: StoredJob, now: int)
    requires Inv(q) && job.id !in q.entries
    ensures Inv(Enqueue(q, job, now))
  {
    hide Inv, Pump, AddQueued, Created;
    var (q', e) := Created(q, NewEntry(q.cfg, job));
    CreateInv(q, job);
    PumpInv(AddQueued(q', e), now);
  }

  /** Every section keeps the invariant. */
  lemma StepInv(q: Queue, ev: Event)
    requires Inv(q)
    ensures Inv(Step(q, ev))
  {
    hide Inv, Enqueue, CreateAnswered, WriteAnswered, AcquireAnswered, HandlerReturned, PolicyAnswered, Cancel, Close,
         BeatFires, RenewAnswered, AdoptAnswered, Pump, RestoreAll, ScheduleBeat, Drain, Resume, RecoverAnswered;
    if Enabled(q, ev) {
      match ev
      case Enqueued(job, now) => EnqueueInv(q, job, now);
      case CreateReply(id, landed, cause, now) => CreateAnsweredInv(q, id, landed, cause, now);
      case WriteReply(id, gone) => WriteAnsweredInv(q, id, gone);
      case AcquireReply(id, reply, now) => AcquireAnsweredInv(q, id, reply, now);
      case HandlerDone(id, threw, now) => HandlerReturnedInv(q, id, threw, now);
      case PolicyReply(id, delayMs, cause, now) => PolicyAnsweredInv(q, id, delayMs, cause, now);
      case CancelAsked(id, now) => CancelInv(q, id, now);
      case Closed(starting, active, now) => CloseInv(q, starting, active, now);
      case BeatFired(now) => BeatFiresInv(q, now);
      case RenewReply(beat, lost, now) => RenewAnsweredInv(q, beat, lost, now);
      case AdoptReply(beat, jobs, now) => AdoptAnsweredInv(q, beat, jobs, now);
      case _ => TimerInv(q, ev);
    }
  }

  /** Every reachable queue satisfies the invariant. */
  lemma {:induction false} RunInv(q: Queue, evs: seq<Event>)
    requires Inv(q)
    ensures Inv(Run(q, evs))
    decreases |evs|
  {
    hide Inv, Step;
    if evs != [] {
      StepInv(q, evs[0]);
      RunInv(Step(q, evs[0]), evs[1..]);
    }
  }
}
