/** What a closed queue does: it starts nothing, and what it can still be left holding. */
module QueueClose {
  import opened Jobs
  import opened Sequences
  import opened QueueSpec
  import opened QueueInvariant
  import opened QueueRuns
  import opened QueueHistory
  import opened QueueTheorems
  import opened QueueService

  /** A closed queue, none of whose questions to the store is still wanted. */
  ghost predicate Shut(q: Queue) {
    var ok := q.closed && q.paused && forall id :: id in q.starting && id in q.entries ==> Terminal(q.entries[id].state);
    ok
  }

  /** Nothing more started, and no handler more called. */
  ghost predicate Rests(q: Queue, r: Queue) {
    var ok :=
      && r.starting <= q.starting && r.active <= q.active && (q.closed ==> r.closed) && (q.paused ==> r.paused)
      && forall id :: id in q.entries ==> id in r.entries && r.entries[id].attempt == q.entries[id].attempt;
    ok
  }

  lemma RestsTrans(a: Queue, b: Queue, c: Queue)
    requires Rests(a, b) && Rests(b, c)
    ensures Rests(a, c)
  {
  }

  lemma RestsSame(q: Queue, r: Queue)
    requires SameWork(q, r) && (q.paused ==> r.paused)
    ensures Rests(q, r)
  {
  }

  lemma RestsOne(q: Queue, r: Queue, id: JobId, e: Entry)
    requires r.starting <= q.starting && r.active <= q.active && r.closed == q.closed && r.paused == q.paused
    requires r.entries == q.entries[id := e] && (id in q.entries ==> e.attempt == q.entries[id].attempt)
    ensures Rests(q, r)
  {
  }

  lemma {:induction false} PausedPump(q: Queue, now: int)
    requires q.paused
    ensures SameWork(q, Pump(q, now)) && Pump(q, now).paused
  {
    hide Pump, ScheduleWake;
    PumpShape(q, now);
    assert Fill(q, now) == q;
  }

  lemma ThenPumpRests(q: Queue, mid: Queue, now: int)
    requires Rests(q, mid) && q.paused
    ensures Rests(q, Pump(mid, now)) && Pump(mid, now).queued == mid.queued
  {
    hide Pump;
    assert mid.paused;
    PausedPump(mid, now);
    RestsSame(mid, Pump(mid, now));
    RestsTrans(q, mid, Pump(mid, now));
  }

  lemma SettleRests(q: Queue, id: JobId, outcome: JobState, error: Option<string>)
    requires id in q.entries && q.entries[id].id == id && !Terminal(q.entries[id].state) && Terminal(outcome)
    ensures Rests(q, Settle(q, id, outcome, error)) && Settle(q, id, outcome, error).queued == q.queued
  {
    hide Settle, Rests;
    SettleEntries(q, id, outcome, error);
    SettleDeciding(q, id, outcome, error);
    RestsOne(q, Settle(q, id, outcome, error), id, Written(Over(q.entries[id], outcome, error), q.nextTicket, false));
  }

  lemma WithdrawRests(q: Queue, id: JobId, outcome: JobState, error: Option<string>)
    requires id in q.entries && q.entries[id].id == id && !Terminal(q.entries[id].state) && Terminal(outcome)
    ensures Rests(q, Withdraw(q, id, outcome, error)) && Withdraw(q, id, outcome, error).queued == Without(q.queued, id)
  {
    hide Settle;
    SettleRests(q.(queued := Without(q.queued, id)), id, outcome, error);
  }

  lemma PopRests(q: Queue, id: JobId)
    ensures Rests(q, PopWrite(q, id)) && PopWrite(q, id).queued == q.queued
  {
    hide Rests;
    if id in q.entries && q.entries[id].chain != [] {
      RestsOne(q, PopWrite(q, id), id, q.entries[id].(chain := q.entries[id].chain[1..]));
    } else { RestsSame(q, q); }
  }

  lemma LoseRests(q: Queue, id: JobId)
    requires Inv(q)
    ensures Rests(q, Lose(q, id))
    ensures Lose(q, id).queued == q.queued || Lose(q, id).queued == Without(q.queued, id)
  {
    hide Inv, Rests, MarkLost;
    RestsSame(q, q);
    if id in q.known && id in q.entries && !Terminal(q.entries[id].state) && q.entries[id].durability != Lost {
      IdOf(q, id);
      MarkLostRests(q, id, q.entries[id].(durability := Lost, leaseLost := true));
    }
  }

  lemma MarkLostRests(q: Queue, id: JobId, e: Entry)
    requires id in q.entries && e.id == id && !Terminal(e.state) && e.attempt == q.entries[id].attempt
    ensures
      var r := MarkLost(q, id, e);
      Rests(q, r) && (r.queued == q.queued || r.queued == Without(q.queued, id))
  {
    hide Rests, Withdraw, Without;
    if e.state == Queued {
      var q1 := q.(entries := q.entries[id := e]);
      RestsOne(q, q1, id, e);
      WithdrawRests(q1, id, Failed, Some(LeaseLostMessage(id)));
      RestsTrans(q, q1, MarkLost(q, id, e));
    } else {
      RestsOne(q, MarkLost(q, id, e), id, e.(aborted := true));
    }
  }

  lemma {:induction false} LoseAllRests(q: Queue, ids: seq<JobId>)
    requires Inv(q) && Accepted(q, ids)
    ensures Rests(q, LoseAll(q, ids)) && (q.queued == [] ==> LoseAll(q, ids).queued == [])
    decreases |ids|
  {
    hide Inv, Lose, Rests;
    if ids == [] { RestsSame(q, q); }
    else {
      assert ids[0] in ids;
      assert forall id :: id in ids[1..] ==> id in ids;
      LoseInv(q, ids[0]);
      LoseKeepsAccepted(q, ids[0], ids);
      LoseRests(q, ids[0]);
      LoseAllRests(Lose(q, ids[0]), ids[1..]);
      RestsTrans(q, Lose(q, ids[0]), LoseAll(q, ids));
    }
  }

  lemma CancelRests(q: Queue, id: JobId, now: int)
    requires Inv(q) && q.paused
    ensures Rests(q, Cancel(q, id, now)) && Cancel(q, id, now).paused && (q.queued == [] ==> Cancel(q, id, now).queued == [])
  {
    hide Inv, Rests, Withdraw, Pump;
    RestsSame(q, q);
    if id in q.known && id in q.entries && !Terminal(q.entries[id].state) {
      IdOf(q, id);
      if q.entries[id].state == Queued {
        WithdrawRests(q, id, Cancelled, None);
        ThenPumpRests(q, Withdraw(q, id, Cancelled, None), now);
        StaysPaused(q, Cancel(q, id, now));
      } else { RestsOne(q, Cancel(q, id, now), id, q.entries[id].(cancelRequested := true, aborted := true)); }
    }
  }

  lemma StaysPaused(q: Queue, r: Queue)
    requires Rests(q, r) && q.paused
    ensures r.paused
  {
  }

  lemma {:induction false} CancelAllRests(q: Queue, ids: seq<JobId>, now: int)
    requires Inv(q) && q.paused
    ensures Rests(q, CancelAll(q, ids, now)) && CancelAll(q, ids, now).paused
    ensures q.queued == [] ==> CancelAll(q, ids, now).queued == []
    decreases |ids|
  {
    hide Inv, Cancel, Rests;
    if ids == [] { RestsSame(q, q); }
    else {
      CancelInv(q, ids[0], now);
      CancelRests(q, ids[0], now);
      CancelAllRests(Cancel(q, ids[0], now), ids[1..], now);
      RestsTrans(q, Cancel(q, ids[0], now), CancelAll(q, ids, now));
    }
  }

  lemma {:induction false} RestoreAllRests(q: Queue, jobs: seq<StoredJob>, now: int)
    requires Inv(q) && q.cfg.hasStore && q.paused
    ensures Rests(q, RestoreAll(q, jobs, now))
    ensures q.queued == [] ==>
      (RestoreAll(q, jobs, now).queued == [] <==> forall k :: 0 <= k < |jobs| ==> jobs[k].id in q.entries)
    ensures q.queued != [] ==> RestoreAll(q, jobs, now).queued != []
    decreases |jobs|
  {
    hide Inv, Rests, Restore;
    RestsSame(q, q);
    if jobs != [] {
      var q1 := Restore(q, jobs[0], now);
      RestoreInv(q, jobs[0], now);
      RestoreRests(q, jobs[0], now);
      RestoreAllRests(q1, jobs[1..], now);
      RestsTrans(q, q1, RestoreAll(q, jobs, now));
      if jobs[0].id in q.entries {
        assert forall k :: 0 < k < |jobs| ==> jobs[k] == jobs[1..][k - 1];
        assert forall k :: 0 <= k < |jobs[1..]| ==> jobs[1..][k] == jobs[k + 1];
      }
    }
  }

  lemma RestoreRests(q: Queue, job: StoredJob, now: int)
    requires q.paused
    ensures
      var r := Restore(q, job, now);
      && Rests(q, r) && r.paused && r.cfg == q.cfg
      && (if job.id in q.entries then r == q else r.queued == q.queued + [job.id])
  {
    hide Rests, Pump;
    RestsSame(q, q);
    if job.id !in q.entries {
      var e := Restored(q.cfg, job, now);
      RestsOne(q, AddQueued(q, e), e.id, e);
      ThenPumpRests(q, AddQueued(q, e), now);
      StaysPaused(q, Restore(q, job, now));
    }
  }

  // ---- Section by section, on a closed queue ----

  lemma ReleaseRests(q: Queue, id: JobId)
    ensures Rests(q, Release(q, id)) && Release(q, id).queued == q.queued
  {
  }

  /** The answer to a lane question no longer wanted: the slot goes back, and that is all. */
  lemma AcquireRests(q: Queue, id: JobId, reply: Reply, now: int)
    requires Inv(q) && Shut(q) && Awaits(q, id, false, true)
    ensures Rests(q, AcquireAnswered(q, id, reply, now)) && AcquireAnswered(q, id, reply, now).queued == q.queued
  {
    hide Inv, Rests, PopWrite, Release, Pump, Lose;
    AskingPlace(q, id);
    LoseTerminal(q, id);
    var popped := PopWrite(q, id);
    var told := Release(popped, id);
    PopRests(q, id);
    PopKeeps(q, id);
    ReleaseRests(popped, id);
    RestsTrans(q, popped, told);
    ThenPumpRests(q, told, now);
  }

  lemma CreateRests(q: Queue, id: JobId, landed: bool, cause: string, now: int)
    requires Inv(q) && q.paused && Awaits(q, id, true, false)
    ensures Rests(q, CreateAnswered(q, id, landed, cause, now))
    ensures q.queued == [] ==> CreateAnswered(q, id, landed, cause, now).queued == []
  {
    hide Inv, Rests, PopWrite, Withdraw, Pump;
    IdOf(q, id);
    var e := q.entries[id];
    var told := if landed then q.(entries := q.entries[id := e.(durability := Stored)])
      else if Terminal(e.state) then q.(queued := Without(q.queued, id)) else Withdraw(q, id, Failed, Some(cause));
    if landed { RestsOne(q, told, id, e.(durability := Stored)); }
    else if Terminal(e.state) { RestsOne(q, told, id, e); assert q.entries[id := e] == q.entries; }
    else { WithdrawRests(q, id, Failed, Some(cause)); }
    PopRests(told, id);
    RestsTrans(q, told, PopWrite(told, id));
    ThenPumpRests(q, PopWrite(told, id), now);
  }

  lemma WriteRests(q: Queue, id: JobId, gone: bool)
    requires Inv(q)
    ensures Rests(q, WriteAnswered(q, id, gone)) && (q.queued == [] ==> WriteAnswered(q, id, gone).queued == [])
  {
    hide Inv, Rests, PopWrite, Lose, CheckIdle;
    RestsSame(q, q);
    var told := if gone then Lose(q, id) else q;
    if gone { LoseRests(q, id); }
    PopRests(told, id);
    RestsTrans(q, told, PopWrite(told, id));
    IdleShape(PopWrite(told, id));
    RestsSame(PopWrite(told, id), CheckIdle(PopWrite(told, id)));
    RestsTrans(q, PopWrite(told, id), WriteAnswered(q, id, gone));
  }

  lemma HandlerRests(q: Queue, id: JobId, threw: bool, now: int)
    requires Inv(q) && q.paused && id in q.entries && !Terminal(q.entries[id].state)
    ensures Rests(q, HandlerReturned(q, id, threw, now)) && HandlerReturned(q, id, threw, now).queued == q.queued
  {
    hide Inv, Rests, Release, Settle, Pump;
    IdOf(q, id);
    var freed := Release(q, id);
    ReleaseRests(q, id);
    match Outcome(q.entries[id], threw)
    case Some(outcome) =>
      var ended := Settle(freed, id, outcome, Some(LeaseLostMessage(id)));
      SettleRests(freed, id, outcome, Some(LeaseLostMessage(id)));
      RestsTrans(q, freed, ended);
      ThenPumpRests(q, ended, now);
    case None =>
      RestsAlike(q, freed, HandlerReturned(q, id, threw, now));
  }

  /** Which retry decisions are outstanding does not matter here. */
  lemma RestsAlike(q: Queue, r: Queue, s: Queue)
    requires Rests(q, r) && s.starting == r.starting && s.active == r.active && s.closed == r.closed && s.paused == r.paused
    requires s.entries == r.entries
    ensures Rests(q, s)
  {
  }

  lemma PolicyRests(q: Queue, id: JobId, delayMs: Option<nat>, cause: string, now: int)
    requires Inv(q) && q.paused && id in q.entries && !Terminal(q.entries[id].state)
    ensures
      var r := PolicyAnswered(q, id, delayMs, cause, now);
      && Rests(q, r)
      && (q.queued == [] ==> (r.queued != [] <==> !q.entries[id].cancelRequested && Heard(q, id, delayMs).Some?))
  {
    hide Inv, Rests, Settle, Again, Pump;
    IdOf(q, id);
    var heard := Heard(q, id, delayMs);
    var decided := if q.entries[id].cancelRequested then Settle(q, id, Cancelled, None)
      else if heard == None then Settle(q, id, Failed, Some(cause)) else Again(q, id, cause, heard.value, now);
    if q.entries[id].cancelRequested { SettleRests(q, id, Cancelled, None); }
    else if heard == None { SettleRests(q, id, Failed, Some(cause)); }
    else { AgainRests(q, id, cause, heard.value, now); }
    var forgot := decided.(deciding := decided.deciding - {id});
    RestsAlike(q, decided, forgot);
    ThenPumpRests(q, forgot, now);
  }

  lemma AgainRests(q: Queue, id: JobId, cause: string, delayMs: nat, now: int)
    requires id in q.entries && q.entries[id].id == id
    ensures Rests(q, Again(q, id, cause, delayMs, now)) && Again(q, id, cause, delayMs, now).queued == q.queued + [id]
  {
    hide Rests, Persist, Written;
    var waits := Waits(q.entries[id], cause, delayMs, now);
    var q1 := q.(queued := q.queued + [id]);
    PersistShape(q1, waits, true);
    assert Again(q, id, cause, delayMs, now) == Persist(q1.(entries := q1.entries[id := waits]), id, true);
    RestsOne(q, Again(q, id, cause, delayMs, now), id, Written(waits, q.nextTicket, true));
  }

  lemma BeatRests(q: Queue, beat: nat, beats: map<nat, Beat>, now: int)
    requires Inv(q) && q.paused
    ensures Rests(q, ThenAdopt(q, beat, now)) && ThenAdopt(q, beat, now).queued == q.queued
  {
    hide Inv, Rests, Pump;
    RestsSame(q, q);
    RestsAlike(q, q, q.(beats := q.beats - {beat}));
    ThenPumpRests(q, q.(beats := q.beats - {beat}), now);
  }

  /** What leaves a job in line on a closed queue: a retry, or stored jobs handed over, decided on before it closed. */
  ghost predicate LeavesBehind(q: Queue, ev: Event) {
    match ev
    case PolicyReply(id, delayMs, _, _) => id in q.entries && !q.entries[id].cancelRequested && Heard(q, id, delayMs).Some?
    case AdoptReply(_, jobs, _) => exists k :: 0 <= k < |jobs| && jobs[k].id !in q.entries
    case RecoverReply(jobs, _) => exists k :: 0 <= k < |jobs| && jobs[k].id !in q.entries
    case _ => false
  }

  lemma StoreRests(q: Queue, ev: Event)
    requires Inv(q) && Shut(q) && Enabled(q, ev)
    requires ev.RenewReply? || ev.AdoptReply? || ev.RecoverReply? || ev.BeatFired?
    ensures Rests(q, Step(q, ev)) && (q.queued == [] ==> (Step(q, ev).queued != [] <==> LeavesBehind(q, ev)))
  {
    hide Inv, Rests, LoseAll, RestoreAll, ThenAdopt, Pump, Held;
    RestsSame(q, q);
    match ev {
      case RenewReply(beat, lost, now) =>
        RenewedAccepted(q, beat, lost);
        LoseAllInv(q, lost);
        LoseAllRests(q, lost);
        var after := LoseAll(q, lost);
        StaysPaused(q, after);
        BeatRests(after, beat, after.beats, now);
        RestsTrans(q, after, Step(q, ev));
      case AdoptReply(beat, jobs, now) =>
        var took := RestoreAll(q, jobs, now);
        RestoreAllRests(q, jobs, now);
        RestsAlike(q, took, took.(beats := took.beats - {beat}));
        ThenPumpRests(q, took.(beats := took.beats - {beat}), now);
      case RecoverReply(jobs, now) =>
        var q1 := q.(recovered := true);
        SwitchInv(q, q.beatArmed, q.wake, q.waiters, q.paused, q.closed, true, q.nextBeat);
        RestsAlike(q, q, q1);
        RestoreAllRests(q1, jobs, now);
        var q2 := RestoreAll(q1, jobs, now);
        RestsTrans(q, q1, q2);
        BeatShape(q2);
        RestsSame(q2, ScheduleBeat(q2));
        RestsTrans(q, q2, Step(q, ev));
      case BeatFired(now) =>
        var fired := q.(beatArmed := false, nextBeat := q.nextBeat + 1);
        SwitchInv(q, false, q.wake, q.waiters, q.paused, q.closed, q.recovered, q.nextBeat + 1);
        RestsAlike(q, q, fired);
        BeatRests(fired, q.nextBeat, fired.beats, now);
        RestsTrans(q, fired, ThenAdopt(fired, q.nextBeat, now));
        RestsAlike(q, q, fired.(beats := q.beats[q.nextBeat := Renewing(Held(q))]));
    }
  }

  lemma CloseAgainRests(q: Queue, starting: seq<JobId>, active: seq<JobId>, now: int)
    requires Inv(q)
    ensures Rests(q, Close(q, starting, active, now)) && (q.queued == [] ==> Close(q, starting, active, now).queued == [])
  {
    hide Inv, Rests, CancelAll, Drain;
    RestsSame(q, q);
    var q1 := q.(closed := true, paused := true, wake := None, beatArmed := false);
    SwitchInv(q, false, None, q.waiters, true, true, q.recovered, q.nextBeat);
    ShutRests(q);
    var q2, q3, q4 := CancelAll(q1, q.queued, now), CancelAll(CancelAll(q1, q.queued, now), starting, now),
                      CancelAll(CancelAll(CancelAll(q1, q.queued, now), starting, now), active, now);
    CancelAllInv(q1, q.queued, now);
    CancelAllRests(q1, q.queued, now);
    CancelAllInv(q2, starting, now);
    CancelAllRests(q2, starting, now);
    CancelAllRests(q3, active, now);
    RestsTrans(q, q1, q2);
    RestsTrans(q, q2, q3);
    RestsTrans(q, q3, q4);
    DrainShape(q4);
    RestsSame(q4, Drain(q4));
    RestsTrans(q, q4, Drain(q4));
  }

  lemma ShutRests(q: Queue)
    ensures Rests(q, q.(closed := true, paused := true, wake := None, beatArmed := false))
  {
  }

  /**
   * A section of a closed queue starts nothing and calls no handler; and it puts a job back in an empty line
   * exactly when it hears of a retry, or of stored jobs, that was asked for before the close.
   */
  lemma StepRests(q: Queue, ev: Event)
    requires Inv(q) && Shut(q) && Enabled(q, ev)
    ensures Rests(q, Step(q, ev))
    ensures q.queued == [] ==> (Step(q, ev).queued != [] <==> LeavesBehind(q, ev))
  {
    hide Inv, Rests, Enqueue, CreateAnswered, WriteAnswered, AcquireAnswered, HandlerReturned, PolicyAnswered, Cancel, Close,
         BeatFires, RenewAnswered, AdoptAnswered, Pump, RestoreAll, ScheduleBeat, Drain, Resume, RecoverAnswered;
    RestsSame(q, q);
    match ev
    case CreateReply(id, landed, cause, now) => CreateRests(q, id, landed, cause, now);
    case WriteReply(id, gone) => WriteRests(q, id, gone);
    case AcquireReply(id, reply, now) => AcquireRests(q, id, reply, now);
    case HandlerDone(id, threw, now) => HandlerRests(q, id, threw, now);
    case PolicyReply(id, delayMs, cause, now) => PolicyRests(q, id, delayMs, cause, now);
    case CancelAsked(id, now) => CancelRests(q, id, now);
    case Paused => RestsAlike(q, q, q.(paused := true));
    case RecoverFailed => RestsAlike(q, q, q.(recovered := true));
    case DrainAsked => DrainShape(q); RestsSame(q, Drain(q));
    case Closed(starting, active, now) => CloseAgainRests(q, starting, active, now);
    case WakeFired(now) => RestsAlike(q, q, q.(wake := None)); ThenPumpRests(q, q.(wake := None), now);
    case _ => StoreRests(q, ev);
  }

  lemma ShutStays(q: Queue, ev: Event)
    requires Inv(q) && Shut(q)
    ensures Shut(Step(q, ev))
  {
    hide Inv, Step, Grows;
    if Enabled(q, ev) {
      StepRests(q, ev);
      StepGrows(q, ev);
      GrowsAges(q, Step(q, ev), Replied(ev));
      StartingKnown(q);
      TerminalStays(q, Step(q, ev));
    } else { NotEnabled(q, ev); }
  }

  lemma NotEnabled(q: Queue, ev: Event)
    requires !Enabled(q, ev)
    ensures Step(q, ev) == q
  {
  }

  lemma StartingKnown(q: Queue)
    requires Inv(q)
    ensures forall id :: id in q.starting ==> id in q.entries
  {
    hide Lanes, History, Records, Tickets, BeatsOk;
  }

  lemma TerminalStays(q: Queue, r: Queue)
    requires Ages(q, r)
    ensures forall id :: id in q.entries && Terminal(q.entries[id].state) ==> id in r.entries && Terminal(r.entries[id].state)
  {
  }

  lemma {:induction false} RunRests(q: Queue, evs: seq<Event>)
    requires Inv(q) && Shut(q)
    ensures Rests(q, Run(q, evs)) && Shut(Run(q, evs))
    decreases |evs|
  {
    hide Inv, Shut, Rests, Step;
    if evs == [] { RestsSame(q, q); }
    else {
      StepInv(q, evs[0]);
      ShutStays(q, evs[0]);
      if Enabled(q, evs[0]) { StepRests(q, evs[0]); } else { NotEnabled(q, evs[0]); RestsSame(q, q); }
      RunRests(Step(q, evs[0]), evs[1..]);
      RestsTrans(q, Step(q, evs[0]), Run(q, evs));
    }
  }

  // ---- Closing ----

  lemma CancelKeepsAsking(q: Queue, id: JobId, now: int)
    requires Inv(q) && q.paused
    ensures Cancel(q, id, now).starting == q.starting
  {
    hide Inv, Pump, Settle;
    if id in q.known && id in q.entries && !Terminal(q.entries[id].state) && q.entries[id].state == Queued {
      SettleDeciding(q.(queued := Without(q.queued, id)), id, Cancelled, None);
      PausedPump(Withdraw(q, id, Cancelled, None), now);
    }
  }

  /** Cancelling a job that is asking for its lane ends it. */
  lemma CancelEnds(q: Queue, id: JobId, now: int)
    requires Inv(q) && q.paused && id in q.starting && id in q.entries
    ensures id in Cancel(q, id, now).entries && Terminal(Cancel(q, id, now).entries[id].state)
  {
    hide Inv, Pump, Settle;
    Here(q, id);
    if !Terminal(q.entries[id].state) {
      SettleEntries(q.(queued := Without(q.queued, id)), id, Cancelled, None);
      SettleDeciding(q.(queued := Without(q.queued, id)), id, Cancelled, None);
      PausedPump(Withdraw(q, id, Cancelled, None), now);
    }
  }

  lemma {:induction false} CancelAllEnds(q: Queue, ids: seq<JobId>, now: int)
    requires Inv(q) && q.paused
    ensures
      var r := CancelAll(q, ids, now);
      && r.starting == q.starting
      && forall id :: id in ids && id in q.starting && id in q.entries ==> id in r.entries && Terminal(r.entries[id].state)
    decreases |ids|
  {
    hide Inv, Cancel, Rests, Ages;
    if ids != [] {
      var q1 := Cancel(q, ids[0], now);
      CancelInv(q, ids[0], now);
      CancelRests(q, ids[0], now);
      CancelKeepsAsking(q, ids[0], now);
      CancelAllEnds(q1, ids[1..], now);
      CancelAllGrows(q1, ids[1..], now, map[]);
      GrowsAges(q1, CancelAll(q, ids, now), map[]);
      TerminalStays(q1, CancelAll(q, ids, now));
      CancelGrows(q, ids[0], now, map[]);
      GrowsAges(q, q1, map[]);
      AgesFrame(q, q1);
      if ids[0] in q.starting && ids[0] in q.entries { CancelEnds(q, ids[0], now); }
      assert forall id :: id in ids <==> id == ids[0] || id in ids[1..];
    }
  }

  lemma CloseShuts(q: Queue, starting: seq<JobId>, active: seq<JobId>, now: int)
    requires Inv(q) && forall id :: id in starting <==> id in q.starting
    ensures Shut(Close(q, starting, active, now))
  {
    hide Inv, CancelAll, Drain, Rests, Ages;
    var q1 := q.(closed := true, paused := true, wake := None, beatArmed := false);
    SwitchInv(q, false, None, q.waiters, true, true, q.recovered, q.nextBeat);
    var q2 := CancelAll(q1, q.queued, now);
    CancelAllInv(q1, q.queued, now);
    CancelAllRests(q1, q.queued, now);
    CancelAllEnds(q1, q.queued, now);
    var q3 := CancelAll(q2, starting, now);
    CancelAllInv(q2, starting, now);
    CancelAllRests(q2, starting, now);
    CancelAllEnds(q2, starting, now);
    var q4 := CancelAll(q3, active, now);
    CancelAllRests(q3, active, now);
    CancelAllEnds(q3, active, now);
    CancelAllGrows(q3, active, now, map[]);
    GrowsAges(q3, q4, map[]);
    TerminalStays(q3, q4);
    StartingKnown(q2);
    StaysShut(q1, q2, q3, q4);
    DrainShape(q4);
    assert Drain(q4).closed && Drain(q4).paused;
  }

  lemma StaysShut(q1: Queue, q2: Queue, q3: Queue, q4: Queue)
    requires q1.closed && q1.paused && Rests(q1, q2) && Rests(q2, q3) && Rests(q3, q4)
    ensures q4.closed && q4.paused
  {
  }

  /**
   * Once a queue has closed, whatever happens next, nothing more starts and no job's handler is called again:
   * the jobs running are among those running when it closed, and no attempt count moves.
   */
  lemma ClosedStartsNothing(cfg: Config, paused: bool, before: seq<Event>, close: Event, after: seq<Event>, id: JobId)
    requires ValidConfig(cfg) && close.Closed? && Enabled(Reached(cfg, paused, before), close)
    ensures
      var q := Reached(cfg, paused, before);
      var r := Run(Step(q, close), after);
      && r.closed && r.paused && r.active <= q.active && r.starting <= q.starting
      && (id in q.entries ==> id in r.entries && r.entries[id].attempt == q.entries[id].attempt)
  {
    hide Inv, Close, Run, Reached;
    var q := Reached(cfg, paused, before);
    ReachedInv(cfg, paused, before);
    CloseShuts(q, close.starting, close.active, close.now);
    StepInv(q, close);
    CloseAgainRests(q, close.starting, close.active, close.now);
    RunRests(Step(q, close), after);
    RestsTrans(q, Step(q, close), Run(Step(q, close), after));
  }
}
