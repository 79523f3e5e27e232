/** Who is told that the queue is idle, and when: `drain`, `close`, and the one section that can leave a waiter waiting. */
module QueueDrain {
  import opened Jobs
  import opened Sequences
  import opened QueueSpec
  import opened QueueInvariant
  import opened QueueRuns
  import opened QueueHistory
  import opened QueueTheorems
  import QueueService

  ghost predicate AdoptionInFlight(q: Queue) {
    exists n :: n in q.beats && q.beats[n] == Adopting
  }

  /** An idle queue has told everyone who was waiting to hear it. */
  predicate AllTold(q: Queue) {
    Idle(q) ==> q.waiters == 0
  }

  /** An idle queue has told everyone, or is about to: the adoption it is waiting for will end in a pump. */
  ghost predicate Told(q: Queue) {
    var ok := AllTold(q) || AdoptionInFlight(q);
    ok
  }

  lemma PumpTells(q: Queue, now: int)
    ensures AllTold(Pump(q, now))
  {
    hide ScheduleBeat;
    IdleTells(ScheduleBeat(ScheduleWake(Fill(q, now), now)));
  }

  lemma IdleTells(q: Queue)
    ensures AllTold(CheckIdle(q))
  {
    var r := q.(waiters := 0);
    assert Idle(r) == Idle(q);
  }

  /** Two queues as idle as each other, with the same waiters. */
  predicate AsIdle(q: Queue, r: Queue) {
    r.queued == q.queued && r.starting == q.starting && r.active == q.active && r.deciding == q.deciding
    && r.writes == q.writes && r.waiters == q.waiters
  }

  lemma AsIdleTells(q: Queue, r: Queue)
    requires AsIdle(q, r)
    ensures AllTold(q) == AllTold(r) && Idle(q) == Idle(r)
  {
  }

  /** A queue with a job not yet ended holds a job somewhere, so it is not idle. */
  lemma IdleHoldsNothing(q: Queue)
    requires Inv(q) && Idle(q)
    ensures Held(q) == {}
  {
    forall id | id in q.entries ensures Terminal(q.entries[id].state) { Here(q, id); }
  }

  lemma {:induction false} RestoreAllTells(q: Queue, jobs: seq<StoredJob>, now: int)
    requires AllTold(q)
    ensures AllTold(RestoreAll(q, jobs, now))
    decreases |jobs|
  {
    hide AllTold, Pump;
    if jobs != [] {
      if jobs[0].id !in q.entries { PumpTells(AddQueued(q, Restored(q.cfg, jobs[0], now)), now); }
      RestoreAllTells(Restore(q, jobs[0], now), jobs[1..], now);
    }
  }

  lemma CancelTells(q: Queue, id: JobId, now: int)
    ensures AllTold(q) ==> AllTold(Cancel(q, id, now))
    ensures AdoptionInFlight(q) && !AllTold(Cancel(q, id, now)) ==> AdoptionInFlight(Cancel(q, id, now))
  {
    hide Pump, Withdraw, AllTold;
    if id in q.known && id in q.entries && !Terminal(q.entries[id].state) {
      if q.entries[id].state == Queued { PumpTells(Withdraw(q, id, Cancelled, None), now); }
      else { AsIdleTells(q, Cancel(q, id, now)); }
    }
  }

  lemma {:induction false} CancelAllTells(q: Queue, ids: seq<JobId>, now: int)
    ensures AllTold(q) ==> AllTold(CancelAll(q, ids, now))
    ensures Told(q) ==> Told(CancelAll(q, ids, now))
    decreases |ids|
  {
    hide Cancel, AllTold, AdoptionInFlight;
    if ids != [] {
      CancelTells(q, ids[0], now);
      CancelAllTells(Cancel(q, ids[0], now), ids[1..], now);
    }
  }

  lemma DrainTells(q: Queue)
    ensures AllTold(q) ==> AllTold(Drain(q))
    ensures Told(q) ==> Told(Drain(q))
  {
    hide AdoptionInFlight, Idle;
    var more := q.(waiters := q.waiters + 1);
    assert Drain(q) == if Idle(q) then q else more;
    StillIdle(q, more);
    SameAdoption(q, more);
  }

  lemma StillIdle(q: Queue, r: Queue)
    requires r == q.(waiters := r.waiters)
    ensures Idle(r) == Idle(q)
  {
  }

  lemma SameAdoption(q: Queue, r: Queue)
    requires r.beats == q.beats
    ensures AdoptionInFlight(q) == AdoptionInFlight(r)
  {
  }

  lemma CloseTells(q: Queue, starting: seq<JobId>, active: seq<JobId>, now: int)
    ensures AllTold(q) ==> AllTold(Close(q, starting, active, now))
    ensures Told(q) ==> Told(Close(q, starting, active, now))
  {
    hide CancelAll, AllTold, AdoptionInFlight;
    var shut := q.(closed := true, paused := true, wake := None, beatArmed := false);
    AsIdleTells(q, shut);
    SameAdoption(q, shut);
    CancelAllTells(shut, q.queued, now);
    CancelAllTells(CancelAll(shut, q.queued, now), starting, now);
    CancelAllTells(CancelAll(CancelAll(shut, q.queued, now), starting, now), active, now);
    DrainTells(CancelAll(CancelAll(CancelAll(shut, q.queued, now), starting, now), active, now));
  }

  /** Whether a beat, having renewed, goes on to ask for abandoned work. */
  predicate WouldAdopt(q: Queue) {
    q.cfg.canAdopt && q.cfg.heartbeatMs.Some? && !q.paused && !q.closed
  }

  lemma BusyTells(q: Queue, id: JobId)
    requires id in q.active || id in q.deciding
    ensures AllTold(q)
  {
  }

  lemma AcquireTells(q: Queue, id: JobId, reply: Reply, now: int)
    requires id in q.entries
    ensures AllTold(AcquireAnswered(q, id, reply, now))
  {
    hide AllTold, Pump, Release, PopWrite, Lose, Begin;
    var told := Release(PopWrite(if reply == LeaseGone then Lose(q, id) else q, id), id);
    if id !in told.entries || Terminal(told.entries[id].state) { PumpTells(told, now); }
    else if reply == Answered { BeginActive(told, id); BusyTells(Begin(told, id, true), id); }
    else {
      var e := told.entries[id];
      var backoff := if q.cfg.heartbeatMs.Some? then q.cfg.heartbeatMs.value else 0;
      PumpTells(told.(entries := told.entries[id := e.(dueAt := Some(now + backoff))], queued := told.queued + [id]), now);
    }
  }

  lemma BeginActive(q: Queue, id: JobId)
    requires id in q.entries
    ensures id in Begin(q, id, true).active
  {
  }

  lemma HandlerTells(q: Queue, id: JobId, threw: bool, now: int)
    requires id in q.entries && !Terminal(q.entries[id].state)
    ensures AllTold(HandlerReturned(q, id, threw, now))
  {
    hide AllTold, Pump, Settle, Release;
    match Outcome(q.entries[id], threw)
    case Some(outcome) => PumpTells(Settle(Release(q, id), id, outcome, Some(LeaseLostMessage(id))), now);
    case None =>
      assert id in HandlerReturned(q, id, threw, now).deciding;
      BusyTells(HandlerReturned(q, id, threw, now), id);
  }

  /** The sections that end by checking for themselves. */
  lemma CheckedTells(q: Queue, ev: Event)
    requires Enabled(q, ev)
    requires ev.Enqueued? || ev.CreateReply? || ev.WriteReply? || ev.PolicyReply? || ev.Resumed? || ev.WakeFired? || ev.AdoptReply?
    ensures AllTold(Step(q, ev))
  {
    hide AllTold, Pump, RestoreAll, Settle, Again, PopWrite, Withdraw, AddQueued, Created, Lose, CheckIdle;
    match ev {
      case Enqueued(job, now) =>
        var (q', e) := Created(q, NewEntry(q.cfg, job));
        PumpTells(AddQueued(q', e), now);
      case CreateReply(id, landed, cause, now) =>
        var e := q.entries[id];
        var told := if landed then q.(entries := q.entries[id := e.(durability := Stored)])
          else if Terminal(e.state) then q.(queued := Without(q.queued, id)) else Withdraw(q, id, Failed, Some(cause));
        PumpTells(PopWrite(told, id), now);
      case WriteReply(id, gone) => IdleTells(PopWrite(if gone then Lose(q, id) else q, id));
      case PolicyReply(id, delayMs, cause, now) =>
        var decided := if q.entries[id].cancelRequested then Settle(q, id, Cancelled, None)
          else if Heard(q, id, delayMs) == None then Settle(q, id, Failed, Some(cause))
          else Again(q, id, cause, Heard(q, id, delayMs).value, now);
        PumpTells(decided.(deciding := decided.deciding - {id}), now);
      case Resumed(now) => PumpTells(q.(paused := false), now);
      case WakeFired(now) => PumpTells(q.(wake := None), now);
      case AdoptReply(beat, jobs, now) =>
        var took := RestoreAll(q, jobs, now);
        PumpTells(took.(beats := took.beats - {beat}), now);
    }
  }

  /** A renewal leaves waiters untold exactly when it loses the last job and the beat goes on to adopt. */
  lemma RenewTells(q: Queue, beat: nat, lost: seq<JobId>, now: int)
    ensures
      !AllTold(RenewAnswered(q, beat, lost, now)) <==>
        q.waiters > 0 && Idle(LoseAll(q, lost)) && WouldAdopt(q)
    ensures Told(RenewAnswered(q, beat, lost, now))
  {
    hide Pump, LoseAll, Idle;
    var after := LoseAll(q, lost);
    LoseAllSwitches(q, lost);
    if WouldAdopt(after) {
      AsIdleTells(after, RenewAnswered(q, beat, lost, now));
      assert RenewAnswered(q, beat, lost, now).beats[beat] == Adopting;
    } else { PumpTells(after.(beats := after.beats - {beat}), now); }
  }

  /** What is being held up by nothing but jobs in line that these ids name: once they are lost, nothing is left. */
  ghost predicate LastToLose(q: Queue, ids: seq<JobId>) {
    && q.starting == {} && q.active == {} && q.deciding == map[] && q.writes == map[]
    && forall id :: id in q.queued ==> id in ids && id in q.entries && q.entries[id].durability != Lost
  }

  /** Losing these jobs takes out of line the ones there that were not lost before, and disturbs nothing else. */
  ghost predicate LinedOut(q: Queue, r: Queue, ids: seq<JobId>) {
    var ok :=
      && r.starting == q.starting && r.active == q.active && r.deciding == q.deciding && r.writes == q.writes
      && (forall x :: x in r.queued <==> x in q.queued && !(x in ids && x in q.entries && q.entries[x].durability != Lost));
    ok
  }

  lemma SettleSilent(q: Queue, id: JobId, outcome: JobState, error: Option<string>)
    requires id in q.entries && !Terminal(q.entries[id].state) && Terminal(outcome) && q.entries[id].durability == Lost
    ensures Settle(q, id, outcome, error).writes == q.writes
  {
    hide Evict, Record;
    var ended := q.(entries := q.entries[id := Over(q.entries[id], outcome, error)]);
    assert Persist(ended, id, false) == ended;
    EvictWrites(ended.(finished := ended.finished + [id]));
  }

  lemma {:induction false} EvictWrites(q: Queue)
    ensures Evict(q).writes == q.writes
    decreases |q.finished|
  {
    if |q.finished| > q.cfg.historyLimit { EvictWrites(q.(finished := q.finished[1..], known := q.known - {q.finished[0]})); }
  }

  lemma LoseLine(q: Queue, id: JobId)
    requires Inv(q)
    ensures LinedOut(q, Lose(q, id), [id])
    ensures forall x :: x in q.entries ==> x in Lose(q, id).entries
    ensures forall x :: x in q.entries && x != id ==> Lose(q, id).entries[x] == q.entries[x]
    ensures id in q.entries && q.entries[id].durability == Lost ==> Lose(q, id) == q
  {
    hide Inv, MarkLost;
    QueueService.LineOk(q);
    if id in q.entries { Here(q, id); }
    if id in q.known && id in q.entries && !Terminal(q.entries[id].state) && q.entries[id].durability != Lost {
      var e := q.entries[id].(durability := Lost, leaseLost := true);
      if e.state == Queued { LoseLined(q, id, e); } else { SignalLine(q, id, e); }
    }
  }

  lemma LoseLined(q: Queue, id: JobId, e: Entry)
    requires NoDup(q.queued) && id in q.entries && e.state == Queued && e.durability == Lost && q.entries[id].durability != Lost
    ensures LinedOut(q, MarkLost(q, id, e), [id])
    ensures forall x :: x in q.entries ==> x in MarkLost(q, id, e).entries
    ensures forall x :: x in q.entries && x != id ==> MarkLost(q, id, e).entries[x] == q.entries[x]
  {
    hide Settle, MarkLost, Without, NoDup;
    WithoutNoDup(q.queued, id);
    var out := q.(entries := q.entries[id := e], queued := Without(q.queued, id));
    QueueService.SettleFrame(out, id, Failed, Some(LeaseLostMessage(id)));
    SettleSilent(out, id, Failed, Some(LeaseLostMessage(id)));
    LostOut(q, id, e, out);
  }

  lemma SignalLine(q: Queue, id: JobId, e: Entry)
    requires id !in q.queued && !Terminal(e.state) && e.state != Queued
    ensures LinedOut(q, MarkLost(q, id, e), [id])
    ensures forall x :: x in q.entries ==> x in MarkLost(q, id, e).entries
    ensures forall x :: x in q.entries && x != id ==> MarkLost(q, id, e).entries[x] == q.entries[x]
  {
  }

  lemma LostOut(q: Queue, id: JobId, e: Entry, out: Queue)
    requires e.state == Queued && out == q.(entries := q.entries[id := e], queued := Without(q.queued, id))
    ensures MarkLost(q, id, e) == Settle(out, id, Failed, Some(LeaseLostMessage(id)))
  {
    hide Settle, Without;
  }

  lemma {:induction false} LoseAllLine(q: Queue, ids: seq<JobId>)
    requires Inv(q) && Accepted(q, ids)
    ensures LinedOut(q, LoseAll(q, ids), ids)
    decreases |ids|
  {
    hide Inv, Lose;
    if ids != [] {
      var mid := Lose(q, ids[0]);
      assert ids[0] in ids;
      LoseLine(q, ids[0]);
      LoseInv(q, ids[0]);
      LoseKeepsAccepted(q, ids[0], ids);
      assert forall id :: id in ids[1..] ==> id in ids;
      LoseAllLine(mid, ids[1..]);
      QueueService.LineOk(q);
      assert forall x :: x in ids <==> x == ids[0] || x in ids[1..];
    }
  }

  /** A queue is idle once these jobs are lost exactly when nothing but they, in line, kept it from being so. */
  lemma IdleOnceLost(q: Queue, ids: seq<JobId>)
    requires Inv(q) && Accepted(q, ids)
    ensures Idle(LoseAll(q, ids)) <==> LastToLose(q, ids)
  {
    hide Inv, LoseAll;
    LoseAllLine(q, ids);
    QueueService.LineOk(q);
    var r := LoseAll(q, ids);
    if r.queued != [] { assert r.queued[0] in r.queued; }
  }

  lemma {:induction false} LoseAllSwitches(q: Queue, ids: seq<JobId>)
    ensures
      var r := LoseAll(q, ids);
      r.cfg == q.cfg && r.paused == q.paused && r.closed == q.closed && r.waiters == q.waiters
    decreases |ids|
  {
    hide Lose;
    if ids != [] {
      LoseSwitches(q, ids[0]);
      LoseAllSwitches(Lose(q, ids[0]), ids[1..]);
    }
  }

  lemma LoseSwitches(q: Queue, id: JobId)
    ensures
      var r := Lose(q, id);
      r.cfg == q.cfg && r.paused == q.paused && r.closed == q.closed && r.waiters == q.waiters
  {
    hide MarkLost;
    if id in q.known && id in q.entries && !Terminal(q.entries[id].state) && q.entries[id].durability != Lost {
      MarkLostSwitches(q, id, q.entries[id].(durability := Lost, leaseLost := true));
    }
  }

  lemma MarkLostSwitches(q: Queue, id: JobId, e: Entry)
    requires !Terminal(e.state)
    ensures
      var r := MarkLost(q, id, e);
      r.cfg == q.cfg && r.paused == q.paused && r.closed == q.closed && r.waiters == q.waiters
  {
    hide Settle, Without;
    var q1 := q.(entries := q.entries[id := e], queued := Without(q.queued, id));
    if e.state == Queued { SettleDeciding(q1, id, Failed, Some(LeaseLostMessage(id))); }
  }

  lemma BeatShape(q: Queue, now: int)
    ensures
      var fired := q.(beatArmed := false, nextBeat := q.nextBeat + 1);
      BeatFires(q, now) ==
        if q.cfg.heartbeatMs.Some? && Held(q) != {} then fired.(beats := q.beats[q.nextBeat := Renewing(Held(q))])
        else if WouldAdopt(q) then fired.(beats := q.beats[q.nextBeat := Adopting])
        else Pump(fired.(beats := q.beats - {q.nextBeat}), now)
  {
    hide Pump, Held;
  }

  lemma BeatTells(q: Queue, now: int)
    requires Inv(q)
    ensures AllTold(q) ==> AllTold(BeatFires(q, now))
    ensures Told(q) ==> Told(BeatFires(q, now))
  {
    hide Inv, Pump, Held, AllTold, AdoptionInFlight, BeatFires, Idle;
    var fired := q.(beatArmed := false, nextBeat := q.nextBeat + 1);
    BeatShape(q, now);
    if q.cfg.heartbeatMs.Some? && Held(q) != {} {
      if Idle(q) { IdleHoldsNothing(q); }
      NotIdleTells(q);
      AsIdleTells(q, BeatFires(q, now));
    } else if WouldAdopt(q) {
      AsIdleTells(q, BeatFires(q, now));
      AdoptingNow(BeatFires(q, now), q.nextBeat);
    } else {
      PumpTells(fired.(beats := q.beats - {q.nextBeat}), now);
    }
  }

  lemma NotIdleTells(q: Queue)
    ensures !Idle(q) ==> AllTold(q)
  {
  }

  lemma AdoptingNow(q: Queue, beat: nat)
    requires beat in q.beats && q.beats[beat] == Adopting
    ensures AdoptionInFlight(q)
  {
  }

  lemma RecoverTells(q: Queue, jobs: seq<StoredJob>, now: int)
    ensures AllTold(q) ==> AllTold(RecoverAnswered(q.(recovered := true), jobs, now))
    ensures Told(q) ==> Told(RecoverAnswered(q.(recovered := true), jobs, now))
  {
    hide RestoreAll, AllTold, AdoptionInFlight, Held;
    var q1 := q.(recovered := true);
    AsIdleTells(q, q1);
    SameAdoption(q, q1);
    if AllTold(q) { RestoreAllTells(q1, jobs, now); }
    else if AdoptionInFlight(q) { RestoreAllKeeps(q1, jobs, now); }
    var q2 := RestoreAll(q1, jobs, now);
    AsIdleTells(q2, ScheduleBeat(q2));
    SameAdoption(q2, ScheduleBeat(q2));
  }

  lemma {:induction false} RestoreAllKeeps(q: Queue, jobs: seq<StoredJob>, now: int)
    requires Told(q)
    ensures Told(RestoreAll(q, jobs, now))
    decreases |jobs|
  {
    hide AllTold, AdoptionInFlight, Pump;
    if jobs != [] {
      if jobs[0].id !in q.entries { PumpTells(AddQueued(q, Restored(q.cfg, jobs[0], now)), now); }
      RestoreAllKeeps(Restore(q, jobs[0], now), jobs[1..], now);
    }
  }

  lemma QuietTells(q: Queue, ev: Event)
    requires ev.Paused? || ev.RecoverFailed? || ev.DrainAsked? || ev.CancelAsked? || ev.Closed?
    ensures AllTold(q) ==> AllTold(Step(q, ev))
    ensures Told(q) ==> Told(Step(q, ev))
  {
    hide AllTold, AdoptionInFlight, Close, Cancel, Drain;
    match ev
    case Paused => AsIdleTells(q, q.(paused := true)); SameAdoption(q, q.(paused := true));
    case RecoverFailed => AsIdleTells(q, q.(recovered := true)); SameAdoption(q, q.(recovered := true));
    case DrainAsked => DrainTells(q);
    case CancelAsked(id, now) => CancelTells(q, id, now);
    case Closed(starting, active, now) => CloseTells(q, starting, active, now);
  }

  /**
   * From a queue that owes nobody an answer, a section leaves an idle queue with waiters untold exactly when it
   * is a renewal's reply on a queue that goes on to ask for abandoned work, and all that kept it from being idle
   * is jobs in line that the reply names and that were not lost before.
   */
  lemma StepTells(q: Queue, ev: Event)
    requires Inv(q) && AllTold(q) && Enabled(q, ev)
    ensures
      !AllTold(Step(q, ev)) <==>
        ev.RenewReply? && q.waiters > 0 && LastToLose(q, ev.lost) && WouldAdopt(q)
  {
    hide Inv, AllTold, Idle, LastToLose, Enqueue, CreateAnswered, WriteAnswered, AcquireAnswered, HandlerReturned, PolicyAnswered, Cancel, Close,
         BeatFires, RenewAnswered, AdoptAnswered, Pump, RestoreAll, ScheduleBeat, Drain, Resume, RecoverAnswered;
    match ev
    case AcquireReply(id, reply, now) => AcquireTells(q, id, reply, now);
    case HandlerDone(id, threw, now) => HandlerTells(q, id, threw, now);
    case BeatFired(now) => BeatTells(q, now);
    case RenewReply(beat, lost, now) =>
      RenewedAccepted(q, beat, lost);
      IdleOnceLost(q, lost);
      RenewTells(q, beat, lost, now);
    case RecoverReply(jobs, now) => RecoverTells(q, jobs, now);
    case Paused => QuietTells(q, ev);
    case RecoverFailed => QuietTells(q, ev);
    case DrainAsked => QuietTells(q, ev);
    case CancelAsked(_, _) => QuietTells(q, ev);
    case Closed(_, _, _) => QuietTells(q, ev);
    case _ => CheckedTells(q, ev);
  }

  lemma StepTold(q: Queue, ev: Event)
    requires Inv(q) && Told(q)
    ensures Told(Step(q, ev))
  {
    hide Inv, AllTold, AdoptionInFlight, Enqueue, CreateAnswered, WriteAnswered, AcquireAnswered, HandlerReturned, PolicyAnswered, Cancel, Close,
         BeatFires, RenewAnswered, AdoptAnswered, Pump, RestoreAll, ScheduleBeat, Drain, Resume, RecoverAnswered;
    if Enabled(q, ev) {
      match ev
      case AcquireReply(id, reply, now) => AcquireTells(q, id, reply, now);
      case HandlerDone(id, threw, now) => HandlerTells(q, id, threw, now);
      case BeatFired(now) => BeatTells(q, now);
      case RenewReply(beat, lost, now) => RenewTells(q, beat, lost, now);
      case RecoverReply(jobs, now) => RecoverTells(q, jobs, now);
      case Paused => QuietTells(q, ev);
      case RecoverFailed => QuietTells(q, ev);
      case DrainAsked => QuietTells(q, ev);
      case CancelAsked(_, _) => QuietTells(q, ev);
      case Closed(_, _, _) => QuietTells(q, ev);
      case _ => CheckedTells(q, ev);
    }
  }

  lemma {:induction false} RunTold(q: Queue, evs: seq<Event>)
    requires Inv(q) && Told(q)
    ensures Told(Run(q, evs))
    decreases |evs|
  {
    hide Inv, Told, Step;
    if evs != [] {
      StepInv(q, evs[0]);
      StepTold(q, evs[0]);
      RunTold(Step(q, evs[0]), evs[1..]);
    }
  }

  /** In every reachable state an idle queue has no waiter left, unless an adoption is still being answered. */
  lemma WaitersTold(cfg: Config, paused: bool, evs: seq<Event>)
    requires ValidConfig(cfg)
    ensures
      var q := Reached(cfg, paused, evs);
      Idle(q) && q.waiters > 0 ==> AdoptionInFlight(q)
  {
    hide Inv, Run, AdoptionInFlight;
    FreshInv(cfg, paused);
    assert AllTold(Fresh(cfg, paused));
    RunTold(Fresh(cfg, paused), evs);
  }
}
