/** That delays are kept: whatever happens in the meantime, a job is not started before it is due. */
module QueueDelays {
  import opened Jobs
  import opened Sequences
  import opened QueueSpec
  import opened QueueInvariant
  import opened QueueRuns
  import opened QueueTheorems
  import opened QueueService
  import opened QueueOutcomes

  /** In line once, due at `due`, or ended without starting again; its handler called `calls` times so far. */
  ghost predicate Rests(q: Queue, id: JobId, due: int, calls: nat) {
    var ok :=
      && id in q.entries && id !in q.active && id !in q.starting && q.entries[id].attempt == calls
      && (|| (q.entries[id].state == Queued && q.entries[id].dueAt == Some(due) && multiset(q.queued)[id] == 1)
          || (Terminal(q.entries[id].state) && multiset(q.queued)[id] == 0));
    ok
  }

  /** A change that leaves job `id` where it was. */
  ghost predicate Apart(q: Queue, r: Queue, id: JobId) {
    var ok :=
      && id in q.entries && id in r.entries
      && r.entries[id].state == q.entries[id].state && r.entries[id].attempt == q.entries[id].attempt
      && r.entries[id].dueAt == q.entries[id].dueAt
      && multiset(r.queued)[id] == multiset(q.queued)[id]
      && (id in r.active ==> id in q.active) && (id in r.starting ==> id in q.starting);
    ok
  }

  lemma ApartRests(q: Queue, r: Queue, id: JobId, due: int, calls: nat)
    requires Rests(q, id, due, calls) && Apart(q, r, id)
    ensures Rests(r, id, due, calls)
  {
  }

  // ---- Sequences ----

  lemma {:induction false} WithoutCounts(s: seq<JobId>, x: JobId)
    ensures multiset(Without(s, x)) == multiset(s) - multiset{x}
  {
    if s != [] {
      assert s == [s[0]] + s[1..];
      WithoutCounts(s[1..], x);
    }
  }

  lemma DropCounts(s: seq<JobId>, k: nat)
    requires k < |s|
    ensures multiset(DropAt(s, k)) == multiset(s) - multiset{s[k]}
  {
    assert s == s[..k] + [s[k]] + s[k + 1..];
    assert DropAt(s, k) == s[..k] + s[k + 1..];
  }

  // ---- Pumps ----

  lemma LaunchRests(q: Queue, k: nat, now: int, id: JobId, due: int, calls: nat)
    requires k < |q.queued| && Eligible(q, now, q.queued[k]) && Rests(q, id, due, calls) && now < due
    ensures Rests(Launch(q, k), id, due, calls)
  {
    hide Launch;
    LaunchStarts(q, k);
    DropCounts(q.queued, k);
    assert q.queued[k] in multiset(q.queued);
    assert q.queued[k] != id;
  }

  lemma {:induction false} FillRests(q: Queue, now: int, id: JobId, due: int, calls: nat)
    requires Rests(q, id, due, calls) && now < due
    ensures Rests(Fill(q, now), id, due, calls)
    decreases |q.queued|
  {
    hide Launch, Rests;
    var best := Best(q, now, |q.queued|);
    if SlotFree(q) && best != -1 {
      LaunchRests(q, best, now, id, due, calls);
      LaunchSwitches(q, best);
      FillRests(Launch(q, best), now, id, due, calls);
    }
  }

  lemma PumpRests(q: Queue, now: int, id: JobId, due: int, calls: nat)
    requires Rests(q, id, due, calls) && now < due
    ensures Rests(Pump(q, now), id, due, calls)
  {
    hide Fill, Pump, ScheduleWake;
    FillRests(q, now, id, due, calls);
    PumpShape(q, now);
  }

  // ---- Pieces ----

  lemma SettleOther(q: Queue, x: JobId, outcome: JobState, error: Option<string>, id: JobId)
    requires x in q.entries && !Terminal(q.entries[x].state) && Terminal(outcome) && x != id && id in q.entries
    ensures Apart(q, Settle(q, x, outcome, error), id)
  {
    hide Settle;
    SettleFrame(q, x, outcome, error);
  }

  lemma SettleEnds(q: Queue, id: JobId, outcome: JobState, error: Option<string>)
    requires id in q.entries && !Terminal(q.entries[id].state) && Terminal(outcome)
    ensures
      var r := Settle(q, id, outcome, error);
      && id in r.entries && r.entries[id].state == outcome && r.entries[id].attempt == q.entries[id].attempt
  {
    hide Evict, Record;
  }

  lemma WithdrawRests(q: Queue, x: JobId, outcome: JobState, error: Option<string>, id: JobId, due: int, calls: nat)
    requires x in q.entries && !Terminal(q.entries[x].state) && Terminal(outcome) && Rests(q, id, due, calls)
    ensures Rests(Withdraw(q, x, outcome, error), id, due, calls)
  {
    hide Settle, Without;
    var out := q.(queued := Without(q.queued, x));
    WithoutCounts(q.queued, x);
    if x == id {
      SettleEnds(out, id, outcome, error);
      SettleFrame(out, id, outcome, error);
    } else {
      assert Rests(out, id, due, calls);
      SettleOther(out, x, outcome, error, id);
      ApartRests(out, Withdraw(q, x, outcome, error), id, due, calls);
    }
  }

  lemma ReentryRests(q: Queue, x: JobId, e: Entry, id: JobId, due: int, calls: nat)
    requires Rests(q, id, due, calls) && x in q.entries
    requires x == id ==> e.state == q.entries[x].state && e.attempt == q.entries[x].attempt && e.dueAt == q.entries[x].dueAt
    ensures Rests(q.(entries := q.entries[x := e]), id, due, calls)
  {
  }

  lemma LoseRests(q: Queue, x: JobId, id: JobId, due: int, calls: nat)
    requires Rests(q, id, due, calls)
    ensures Rests(Lose(q, x), id, due, calls)
  {
    hide Rests, Withdraw;
    if x in q.known && x in q.entries && !Terminal(q.entries[x].state) && q.entries[x].durability != Lost {
      var e := q.entries[x].(durability := Lost, leaseLost := true);
      ReentryRests(q, x, e, id, due, calls);
      ReentryRests(q, x, e.(aborted := true), id, due, calls);
      if e.state == Queued {
        WithdrawRests(q.(entries := q.entries[x := e]), x, Failed, Some(LeaseLostMessage(x)), id, due, calls);
      }
    }
  }

  lemma {:induction false} LoseAllRests(q: Queue, ids: seq<JobId>, id: JobId, due: int, calls: nat)
    requires Rests(q, id, due, calls)
    ensures Rests(LoseAll(q, ids), id, due, calls)
    decreases |ids|
  {
    hide Rests, Lose;
    if ids != [] {
      LoseRests(q, ids[0], id, due, calls);
      LoseAllRests(Lose(q, ids[0]), ids[1..], id, due, calls);
    }
  }

  lemma PopRests(q: Queue, x: JobId, id: JobId, due: int, calls: nat)
    requires Rests(q, id, due, calls)
    ensures Rests(PopWrite(q, x), id, due, calls)
  {
    if x in q.entries && q.entries[x].chain != [] {
      assert Apart(q, PopWrite(q, x), id);
    }
  }

  lemma FreedApart(q: Queue, x: JobId, id: JobId)
    requires id in q.entries
    ensures Apart(q, Release(q, x), id)
  {
    hide Release;
    FreedShape(q, x);
  }

  lemma FreedShape(q: Queue, x: JobId)
    ensures Release(q, x).queued == q.queued
    ensures forall id :: id in Release(q, x).active ==> id in q.active
    ensures forall id :: id in Release(q, x).starting ==> id in q.starting
  {
  }

  lemma BeginOther(q: Queue, x: JobId, id: JobId)
    requires x in q.entries && id in q.entries && x != id
    ensures Apart(q, Begin(q, x, true), id)
  {
  }

  lemma LinedOther(q: Queue, x: JobId, e: Entry, id: JobId)
    requires id in q.entries && x != id
    ensures Apart(q, q.(entries := q.entries[x := e], queued := q.queued + [x]), id)
  {
  }

  lemma AgainOther(q: Queue, x: JobId, cause: string, delayMs: nat, now: int, id: JobId)
    requires x in q.entries && id in q.entries && x != id
    ensures Apart(q, Again(q, x, cause, delayMs, now), id)
  {
    hide Record;
  }

  lemma CancelRests(q: Queue, x: JobId, now: int, id: JobId, due: int, calls: nat)
    requires Rests(q, id, due, calls) && now < due
    ensures Rests(Cancel(q, x, now), id, due, calls)
  {
    hide Withdraw, Pump;
    if x in q.known && x in q.entries && !Terminal(q.entries[x].state) {
      if q.entries[x].state == Queued {
        WithdrawRests(q, x, Cancelled, None, id, due, calls);
        PumpRests(Withdraw(q, x, Cancelled, None), now, id, due, calls);
      } else {
        ReentryRests(q, x, q.entries[x].(cancelRequested := true, aborted := true), id, due, calls);
      }
    }
  }

  lemma {:induction false} CancelAllRests(q: Queue, ids: seq<JobId>, now: int, id: JobId, due: int, calls: nat)
    requires Rests(q, id, due, calls) && now < due
    ensures Rests(CancelAll(q, ids, now), id, due, calls)
    decreases |ids|
  {
    hide Rests, Cancel;
    if ids != [] {
      CancelRests(q, ids[0], now, id, due, calls);
      CancelAllRests(Cancel(q, ids[0], now), ids[1..], now, id, due, calls);
    }
  }

  lemma AdmitRests(q: Queue, e: Entry, now: int, id: JobId, due: int, calls: nat)
    requires Rests(q, id, due, calls) && now < due && e.id !in q.entries
    ensures Rests(Admit(q, e, now), id, due, calls)
  {
    hide Pump;
    assert Rests(AddQueued(q, e), id, due, calls);
    PumpRests(AddQueued(q, e), now, id, due, calls);
  }

  lemma {:induction false} RestoreAllRests(q: Queue, jobs: seq<StoredJob>, now: int, id: JobId, due: int, calls: nat)
    requires Rests(q, id, due, calls) && now < due
    ensures Rests(RestoreAll(q, jobs, now), id, due, calls)
    decreases |jobs|
  {
    hide Rests, Admit;
    if jobs != [] {
      if jobs[0].id !in q.entries { AdmitRests(q, Restored(q.cfg, jobs[0], now), now, id, due, calls); }
      RestoreAllRests(Restore(q, jobs[0], now), jobs[1..], now, id, due, calls);
    }
  }

  /** Fields a job's rest does not depend on. */
  lemma SwitchRests(q: Queue, r: Queue, id: JobId, due: int, calls: nat)
    requires Rests(q, id, due, calls)
    requires r.entries == q.entries && r.queued == q.queued && r.active == q.active && r.starting == q.starting
    ensures Rests(r, id, due, calls)
  {
  }

  // ---- Sections ----

  lemma CreateRests(q: Queue, x: JobId, landed: bool, cause: string, now: int, id: JobId, due: int, calls: nat)
    requires Rests(q, id, due, calls) && now < due && x in q.entries
    ensures Rests(CreateAnswered(q, x, landed, cause, now), id, due, calls)
  {
    hide Rests, Pump, PopWrite, Withdraw, Without;
    var e := q.entries[x];
    if landed {
      ReentryRests(q, x, e.(durability := Stored), id, due, calls);
    } else if Terminal(e.state) {
      EndedRests(q, x, id, due, calls);
    } else {
      WithdrawRests(q, x, Failed, Some(cause), id, due, calls);
    }
    var told :=
      if landed then q.(entries := q.entries[x := e.(durability := Stored)])
      else if Terminal(e.state) then q.(queued := Without(q.queued, x))
      else Withdraw(q, x, Failed, Some(cause));
    PopRests(told, x, id, due, calls);
    PumpRests(PopWrite(told, x), now, id, due, calls);
  }

  lemma EndedRests(q: Queue, x: JobId, id: JobId, due: int, calls: nat)
    requires Rests(q, id, due, calls) && x in q.entries && Terminal(q.entries[x].state)
    ensures Rests(q.(queued := Without(q.queued, x)), id, due, calls)
  {
    hide Without;
    WithoutCounts(q.queued, x);
  }

  lemma WriteRests(q: Queue, x: JobId, gone: bool, id: JobId, due: int, calls: nat)
    requires Rests(q, id, due, calls)
    ensures Rests(WriteAnswered(q, x, gone), id, due, calls)
  {
    hide Rests, Lose, PopWrite, Idle;
    var told := if gone then Lose(q, x) else q;
    LoseRests(q, x, id, due, calls);
    PopRests(told, x, id, due, calls);
    SwitchRests(PopWrite(told, x), WriteAnswered(q, x, gone), id, due, calls);
  }

  lemma AcquireRests(q: Queue, x: JobId, reply: Reply, now: int, id: JobId, due: int, calls: nat)
    requires Rests(q, id, due, calls) && now < due && x in q.starting && x in q.entries
    ensures Rests(AcquireAnswered(q, x, reply, now), id, due, calls)
  {
    hide Lose, PopWrite, Release, Begin, Pump;
    assert x != id;
    var lost := if reply == LeaseGone then Lose(q, x) else q;
    LoseRests(q, x, id, due, calls);
    PopRests(lost, x, id, due, calls);
    FreedApart(PopWrite(lost, x), x, id);
    var told := Release(PopWrite(lost, x), x);
    ApartRests(PopWrite(lost, x), told, id, due, calls);
    if x !in told.entries || Terminal(told.entries[x].state) {
      PumpRests(told, now, id, due, calls);
    } else if reply == Answered {
      BeginOther(told, x, id);
      ApartRests(told, Begin(told, x, true), id, due, calls);
    } else {
      var backoff := if q.cfg.heartbeatMs.Some? then q.cfg.heartbeatMs.value else 0;
      var e := told.entries[x].(dueAt := Some(now + backoff));
      LinedOther(told, x, e, id);
      var lined := told.(entries := told.entries[x := e], queued := told.queued + [x]);
      ApartRests(told, lined, id, due, calls);
      PumpRests(lined, now, id, due, calls);
    }
  }

  lemma HandlerRests(q: Queue, x: JobId, threw: bool, now: int, id: JobId, due: int, calls: nat)
    requires Rests(q, id, due, calls) && now < due && x in q.active && x in q.entries && !Terminal(q.entries[x].state)
    ensures Rests(HandlerReturned(q, x, threw, now), id, due, calls)
  {
    hide Release, Settle, Pump;
    assert x != id;
    FreedApart(q, x, id);
    var freed := Release(q, x);
    ApartRests(q, freed, id, due, calls);
    if Outcome(q.entries[x], threw).Some? {
      var outcome := Outcome(q.entries[x], threw).value;
      SettleOther(freed, x, outcome, Some(LeaseLostMessage(x)), id);
      var settled := Settle(freed, x, outcome, Some(LeaseLostMessage(x)));
      ApartRests(freed, settled, id, due, calls);
      PumpRests(settled, now, id, due, calls);
    } else {
      SwitchRests(freed, HandlerReturned(q, x, threw, now), id, due, calls);
    }
  }

  lemma PolicyRests(q: Queue, x: JobId, delayMs: Option<nat>, cause: string, now: int, id: JobId, due: int, calls: nat)
    requires Rests(q, id, due, calls) && now < due && x in q.entries && q.entries[x].state == Running
    ensures Rests(PolicyAnswered(q, x, delayMs, cause, now), id, due, calls)
  {
    hide Settle, Again, Pump;
    assert x != id;
    var heard := Heard(q, x, delayMs);
    var decided :=
      if q.entries[x].cancelRequested then Settle(q, x, Cancelled, None)
      else if heard == None then Settle(q, x, Failed, Some(cause))
      else Again(q, x, cause, heard.value, now);
    SettleOther(q, x, Cancelled, None, id);
    SettleOther(q, x, Failed, Some(cause), id);
    if heard.Some? { AgainOther(q, x, cause, heard.value, now, id); }
    ApartRests(q, decided, id, due, calls);
    var r := decided.(deciding := decided.deciding - {x});
    SwitchRests(decided, r, id, due, calls);
    PumpRests(r, now, id, due, calls);
  }

  lemma ThenAdoptRests(q: Queue, beat: nat, now: int, id: JobId, due: int, calls: nat)
    requires Rests(q, id, due, calls) && now < due
    ensures Rests(ThenAdopt(q, beat, now), id, due, calls)
  {
    hide Rests, Pump;
    SwitchRests(q, q.(beats := q.beats - {beat}), id, due, calls);
    SwitchRests(q, q.(beats := q.beats[beat := Adopting]), id, due, calls);
    PumpRests(q.(beats := q.beats - {beat}), now, id, due, calls);
  }

  lemma BeatRests(q: Queue, ev: Event, id: JobId, due: int, calls: nat)
    requires Rests(q, id, due, calls) && (Clock(ev).Some? ==> Clock(ev).value < due)
    requires ev.BeatFired? || ev.RenewReply? || ev.AdoptReply? || ev.RecoverReply?
    ensures Rests(Apply(q, ev), id, due, calls)
  {
    hide Rests, Pump, ThenAdopt, Held, RestoreAll, LoseAll;
    match ev
    case BeatFired(now) =>
      var fired := q.(beatArmed := false, nextBeat := q.nextBeat + 1);
      SwitchRests(q, fired, id, due, calls);
      SwitchRests(q, fired.(beats := q.beats[q.nextBeat := Renewing(Held(q))]), id, due, calls);
      ThenAdoptRests(fired, q.nextBeat, now, id, due, calls);
    case RenewReply(beat, lost, now) =>
      LoseAllRests(q, lost, id, due, calls);
      ThenAdoptRests(LoseAll(q, lost), beat, now, id, due, calls);
    case AdoptReply(beat, jobs, now) =>
      RestoreAllRests(q, jobs, now, id, due, calls);
      var took := RestoreAll(q, jobs, now);
      SwitchRests(took, took.(beats := took.beats - {beat}), id, due, calls);
      PumpRests(took.(beats := took.beats - {beat}), now, id, due, calls);
    case RecoverReply(jobs, now) =>
      SwitchRests(q, q.(recovered := true), id, due, calls);
      RestoreAllRests(q.(recovered := true), jobs, now, id, due, calls);
      SwitchRests(RestoreAll(q.(recovered := true), jobs, now), Apply(q, ev), id, due, calls);
  }

  lemma CloseRests(q: Queue, starting: seq<JobId>, active: seq<JobId>, now: int, id: JobId, due: int, calls: nat)
    requires Rests(q, id, due, calls) && now < due
    ensures Rests(Close(q, starting, active, now), id, due, calls)
  {
    hide Rests, CancelAll, Idle;
    var shut := q.(closed := true, paused := true, wake := None, beatArmed := false);
    SwitchRests(q, shut, id, due, calls);
    CancelAllRests(shut, q.queued, now, id, due, calls);
    var one := CancelAll(shut, q.queued, now);
    CancelAllRests(one, starting, now, id, due, calls);
    CancelAllRests(CancelAll(one, starting, now), active, now, id, due, calls);
    SwitchRests(CancelAll(CancelAll(one, starting, now), active, now), Close(q, starting, active, now), id, due, calls);
  }

  lemma WokenRests(q: Queue, woken: Queue, now: int, id: JobId, due: int, calls: nat)
    requires Rests(q, id, due, calls) && now < due
    requires woken.entries == q.entries && woken.queued == q.queued && woken.active == q.active && woken.starting == q.starting
    ensures Rests(Pump(woken, now), id, due, calls)
  {
    hide Rests, Pump;
    SwitchRests(q, woken, id, due, calls);
    PumpRests(woken, now, id, due, calls);
  }

  lemma DrainRests(q: Queue, id: JobId, due: int, calls: nat)
    requires Rests(q, id, due, calls)
    ensures Rests(Drain(q), id, due, calls)
  {
    hide Rests, Idle;
    if !Idle(q) { SwitchRests(q, q.(waiters := q.waiters + 1), id, due, calls); }
  }

  /** What a section reads from the clock, if it reads it. */
  function Clock(ev: Event): Option<int> {
    match ev
    case Enqueued(_, now) => Some(now)
    case CreateReply(_, _, _, now) => Some(now)
    case AcquireReply(_, _, now) => Some(now)
    case HandlerDone(_, _, now) => Some(now)
    case PolicyReply(_, _, _, now) => Some(now)
    case CancelAsked(_, now) => Some(now)
    case Resumed(now) => Some(now)
    case Closed(_, _, now) => Some(now)
    case WakeFired(now) => Some(now)
    case BeatFired(now) => Some(now)
    case RenewReply(_, _, now) => Some(now)
    case AdoptReply(_, _, now) => Some(now)
    case RecoverReply(_, now) => Some(now)
    case _ => None
  }

  lemma CreatedShape(q: Queue, e: Entry)
    ensures
      var (q', e') := Created(q, e);
      && q'.entries == q.entries && q'.queued == q.queued && q'.active == q.active && q'.starting == q.starting
      && e'.id == e.id
  {
  }

  lemma EnqueueRests(q: Queue, job: StoredJob, now: int, id: JobId, due: int, calls: nat)
    requires Rests(q, id, due, calls) && now < due && job.id !in q.entries
    ensures Rests(Enqueue(q, job, now), id, due, calls)
  {
    hide Rests, Admit, Record, Created;
    CreatedShape(q, NewEntry(q.cfg, job));
    var (q', e) := Created(q, NewEntry(q.cfg, job));
    SwitchRests(q, q', id, due, calls);
    AdmitRests(q', e, now, id, due, calls);
  }

  lemma StepRests(q: Queue, ev: Event, id: JobId, due: int, calls: nat)
    requires Inv(q) && Rests(q, id, due, calls) && (Clock(ev).Some? ==> Clock(ev).value < due)
    ensures Rests(Step(q, ev), id, due, calls)
  {
    hide Inv, Rests, Enqueue, CreateAnswered, WriteAnswered, AcquireAnswered, HandlerReturned, PolicyAnswered, Cancel, Close,
         BeatFires, RenewAnswered, AdoptAnswered, Pump, Drain, RecoverAnswered, RestoreAll, ScheduleBeat;
    if Enabled(q, ev) {
      match ev
      case Enqueued(job, now) => EnqueueRests(q, job, now, id, due, calls);
      case CreateReply(x, landed, cause, now) => CreateRests(q, x, landed, cause, now, id, due, calls);
      case WriteReply(x, gone) => WriteRests(q, x, gone, id, due, calls);
      case AcquireReply(x, reply, now) =>
        AskingPlace(q, x);
        AcquireRests(q, x, reply, now, id, due, calls);
      case HandlerDone(x, threw, now) => HandlerRests(q, x, threw, now, id, due, calls);
      case PolicyReply(x, delayMs, cause, now) => PolicyRests(q, x, delayMs, cause, now, id, due, calls);
      case CancelAsked(x, now) => CancelRests(q, x, now, id, due, calls);
      case Closed(starting, active, now) => CloseRests(q, starting, active, now, id, due, calls);
      case BeatFired(_) => BeatRests(q, ev, id, due, calls);
      case RenewReply(_, _, _) => BeatRests(q, ev, id, due, calls);
      case AdoptReply(_, _, _) => BeatRests(q, ev, id, due, calls);
      case RecoverReply(_, _) => BeatRests(q, ev, id, due, calls);
      case Paused => SwitchRests(q, q.(paused := true), id, due, calls);
      case RecoverFailed => SwitchRests(q, q.(recovered := true), id, due, calls);
      case Resumed(now) => WokenRests(q, q.(paused := false), now, id, due, calls);
      case WakeFired(now) => WokenRests(q, q.(wake := None), now, id, due, calls);
      case DrainAsked => DrainRests(q, id, due, calls);
    }
  }

  lemma {:induction false} RunRests(q: Queue, evs: seq<Event>, id: JobId, due: int, calls: nat)
    requires Inv(q) && Rests(q, id, due, calls)
    requires forall k :: 0 <= k < |evs| && Clock(evs[k]).Some? ==> Clock(evs[k]).value < due
    ensures Rests(Run(q, evs), id, due, calls)
    decreases |evs|
  {
    hide Inv, Rests, Step;
    if evs != [] {
      StepInv(q, evs[0]);
      StepRests(q, evs[0], id, due, calls);
      RunRests(Step(q, evs[0]), evs[1..], id, due, calls);
    }
  }

  /**
   * Delays are kept. Over any run whose clock readings all come before the moment a queued job is due, its
   * handler is not called, nor its lane asked for: it stays in line, due when it was, or ends there.
   */
  lemma NeverEarly(cfg: Config, paused: bool, before: seq<Event>, after: seq<Event>, id: JobId)
    requires ValidConfig(cfg)
    requires
      var q := Reached(cfg, paused, before);
      && id in q.queued && id in q.entries && q.entries[id].dueAt.Some?
      && forall k :: 0 <= k < |after| && Clock(after[k]).Some? ==> Clock(after[k]).value < q.entries[id].dueAt.value
    ensures
      var q, q' := Reached(cfg, paused, before), Run(Reached(cfg, paused, before), after);
      && id in q'.entries && id !in q'.active && id !in q'.starting
      && q'.entries[id].attempt == q.entries[id].attempt
      && (Terminal(q'.entries[id].state) || (id in q'.queued && q'.entries[id].dueAt == q.entries[id].dueAt))
  {
    hide Inv, Reached, Run;
    var q := Reached(cfg, paused, before);
    ReachedInv(cfg, paused, before);
    Here(q, id);
    OnceInLine(q.queued, id);
    RunRests(q, after, id, q.entries[id].dueAt.value, q.entries[id].attempt);
  }

  lemma {:induction false} OnceInLine(s: seq<JobId>, x: JobId)
    requires NoDup(s)
    ensures multiset(s)[x] == if x in s then 1 else 0
  {
    if s != [] {
      assert s == [s[0]] + s[1..];
      TailNoDup(s);
      OnceInLine(s[1..], x);
    }
  }
}
