/** Exactly when the heartbeat timer is set again, and exactly when two renewals come to be in flight at once. */
module QueueRenewals {
  import opened Jobs
  import opened Sequences
  import opened QueueSpec
  import opened QueueInvariant
  import opened QueueRuns
  import opened QueueTheorems
  import opened QueueService
  import opened QueueDrain

  /** The beats whose renewals are unanswered. */
  ghost function Renewals(q: Queue): set<nat> {
    set beat | beat in q.beats && q.beats[beat].Renewing?
  }

  /** A queue with a use for another beat: it renews, is open, and holds a claim or watches for work. */
  ghost predicate Wants(q: Queue) {
    q.cfg.heartbeatMs.Some? && !q.closed && (Held(q) != {} || (q.cfg.canAdopt && !q.paused))
  }

  /** The sections that end by attending to the timers. */
  ghost predicate Attends(q: Queue, ev: Event)
    requires Enabled(q, ev)
  {
    match ev
    case WriteReply(_, _) => false
    case AcquireReply(id, reply, _) => reply != Answered || Terminal(q.entries[id].state)
    case HandlerDone(id, threw, _) => q.entries[id].leaseLost || q.entries[id].cancelRequested || !threw
    case CancelAsked(id, _) => id in q.known && id in q.entries && q.entries[id].state == Queued
    case Paused => false
    case DrainAsked => false
    case BeatFired(_) => (Held(q) == {} || q.cfg.heartbeatMs == None) && !WouldAdopt(q)
    case RenewReply(_, _, _) => !WouldAdopt(q)
    case RecoverFailed => false
    case _ => true
  }

  // ---- Frames ----

  /** The heartbeat, and what is awaiting a retry decision, are as they were. */
  ghost predicate Still(q: Queue, r: Queue) {
    var ok :=
      && r.cfg == q.cfg && r.beats == q.beats && r.nextBeat == q.nextBeat && r.beatArmed == q.beatArmed
      && r.closed == q.closed && r.paused == q.paused && r.deciding == q.deciding;
    ok
  }

  /** The beats are as they were, and the timer is set if it was or if there is a use for it. */
  ghost predicate Rearmed(q: Queue, r: Queue) {
    var ok :=
      && r.cfg == q.cfg && r.beats == q.beats && r.nextBeat == q.nextBeat && r.closed == q.closed && r.paused == q.paused
      && r.deciding == q.deciding && (r.beatArmed <==> q.beatArmed || Wants(r));
    ok
  }

  lemma StillTrans(q: Queue, r: Queue, s: Queue)
    requires Still(q, r) && Still(r, s)
    ensures Still(q, s)
  {
  }

  lemma StillRearmed(q: Queue, r: Queue, s: Queue)
    requires Still(q, r) && Rearmed(r, s)
    ensures Rearmed(q, s)
  {
    hide Wants;
  }

  lemma {:induction false} EvictStill(q: Queue)
    ensures Still(q, Evict(q))
    decreases |q.finished|
  {
    if |q.finished| > q.cfg.historyLimit { EvictStill(q.(finished := q.finished[1..], known := q.known - {q.finished[0]})); }
  }

  lemma SettleStill(q: Queue, id: JobId, outcome: JobState, error: Option<string>)
    requires id in q.entries && !Terminal(q.entries[id].state) && Terminal(outcome)
    ensures Still(q, Settle(q, id, outcome, error))
  {
    hide Evict, Persist;
    var ended := q.(entries := q.entries[id := Over(q.entries[id], outcome, error)]);
    var written := Persist(ended, id, false);
    EvictStill(written.(finished := written.finished + [id]));
  }

  lemma WithdrawStill(q: Queue, id: JobId, outcome: JobState, error: Option<string>)
    requires id in q.entries && !Terminal(q.entries[id].state) && Terminal(outcome)
    ensures Still(q, Withdraw(q, id, outcome, error))
  {
    hide Settle, Without, Still;
    var out := q.(queued := Without(q.queued, id));
    assert Still(q, out) by { LineStill(q, out.queued); }
    SettleStill(out, id, outcome, error);
    StillTrans(q, out, Withdraw(q, id, outcome, error));
  }

  lemma LineStill(q: Queue, queued: seq<JobId>)
    ensures Still(q, q.(queued := queued))
  {
  }

  lemma EntryStill(q: Queue, id: JobId, e: Entry)
    ensures Still(q, q.(entries := q.entries[id := e]))
  {
  }

  lemma LoseStill(q: Queue, id: JobId)
    ensures Still(q, Lose(q, id))
  {
    hide Withdraw, Still;
    StillSelf(q);
    if id in q.known && id in q.entries && !Terminal(q.entries[id].state) && q.entries[id].durability != Lost {
      var e := q.entries[id].(durability := Lost, leaseLost := true);
      EntryStill(q, id, e);
      EntryStill(q, id, e.(aborted := true));
      if e.state == Queued {
        var marked := q.(entries := q.entries[id := e]);
        WithdrawStill(marked, id, Failed, Some(LeaseLostMessage(id)));
        StillTrans(q, marked, Withdraw(marked, id, Failed, Some(LeaseLostMessage(id))));
      }
    }
  }

  lemma {:induction false} LoseAllStill(q: Queue, ids: seq<JobId>)
    ensures Still(q, LoseAll(q, ids))
    decreases |ids|
  {
    hide Lose, Still;
    if ids == [] {
      StillSelf(q);
    } else {
      LoseStill(q, ids[0]);
      LoseAllStill(Lose(q, ids[0]), ids[1..]);
      StillTrans(q, Lose(q, ids[0]), LoseAll(q, ids));
    }
  }

  lemma StillSelf(q: Queue)
    ensures Still(q, q)
  {
  }

  lemma PopStill(q: Queue, id: JobId)
    ensures Still(q, PopWrite(q, id))
  {
  }

  lemma ReleaseStill(q: Queue, id: JobId)
    ensures Still(q, Release(q, id))
  {
  }

  lemma BeginStill(q: Queue, id: JobId, claimed: bool)
    requires id in q.entries
    ensures Still(q, Begin(q, id, claimed))
  {
    hide Record;
  }

  lemma LaunchStill(q: Queue, k: nat)
    requires k < |q.queued| && q.queued[k] in q.entries
    ensures Still(q, Launch(q, k))
  {
    hide Begin, DropAt, Record;
    BeginStill(q.(queued := DropAt(q.queued, k)), q.queued[k], false);
  }

  lemma {:induction false} FillStill(q: Queue, now: int)
    ensures Still(q, Fill(q, now))
    decreases |q.queued|
  {
    hide Launch, Still;
    var best := Best(q, now, |q.queued|);
    if SlotFree(q) && best != -1 {
      LaunchStill(q, best);
      LaunchSwitches(q, best);
      FillStill(Launch(q, best), now);
      StillTrans(q, Launch(q, best), Fill(q, now));
    } else {
      StillSelf(q);
    }
  }

  lemma PumpRearms(q: Queue, now: int)
    ensures Rearmed(q, Pump(q, now))
  {
    hide Fill, Still, Rearmed, ScheduleWake, ScheduleBeat, CheckIdle;
    var full := Fill(q, now);
    var timed := ScheduleWake(full, now);
    FillStill(q, now);
    WakeStill(full, now);
    StillTrans(q, full, timed);
    BeatRearms(timed);
    StillRearmed(q, timed, ScheduleBeat(timed));
    IdleRearmed(q, ScheduleBeat(timed));
  }

  lemma WakeStill(q: Queue, now: int)
    ensures Still(q, ScheduleWake(q, now))
  {
    hide Earliest;
  }

  lemma IdleRearmed(q: Queue, r: Queue)
    requires Rearmed(q, r)
    ensures Rearmed(q, CheckIdle(r))
  {
    hide Idle, Held;
    SameHolds(r, CheckIdle(r));
  }

  lemma BeatRearms(q: Queue)
    ensures Rearmed(q, ScheduleBeat(q))
  {
    hide Held;
    SameHolds(q, ScheduleBeat(q));
  }

  lemma SameHolds(q: Queue, r: Queue)
    requires r.entries == q.entries && r.known == q.known
    ensures Held(r) == Held(q)
  {
  }

  // ---- What is held stays held while jobs are restored ----

  ghost predicate Holds(q: Queue, id: JobId) {
    var ok := id in q.known && id in q.entries && !Terminal(q.entries[id].state) && q.entries[id].durability == Stored;
    ok
  }

  lemma BeginHolds(q: Queue, x: JobId, id: JobId)
    requires x in q.entries && Holds(q, id)
    ensures Holds(Begin(q, x, false), id)
  {
    hide Record;
  }

  lemma AskHolds(q: Queue, x: JobId, id: JobId)
    requires x in q.entries && q.entries[x].lane.Some? && Holds(q, id)
    ensures Holds(Ask(q, x), id)
  {
    hide ClaimOf;
  }

  lemma LaunchHolds(q: Queue, k: nat, id: JobId)
    requires k < |q.queued| && q.queued[k] in q.entries && Holds(q, id)
    ensures Holds(Launch(q, k), id)
  {
    hide Begin, Ask, DropAt, Holds;
    var taken := q.(queued := DropAt(q.queued, k));
    assert Holds(taken, id) by { SameHolding(q, taken, id); }
    if SharesLanes(q.cfg, q.entries[q.queued[k]]) { AskHolds(taken, q.queued[k], id); }
    else { BeginHolds(taken, q.queued[k], id); }
  }

  lemma SameHolding(q: Queue, r: Queue, id: JobId)
    requires Holds(q, id) && r.entries == q.entries && r.known == q.known
    ensures Holds(r, id)
  {
  }

  lemma {:induction false} FillHolds(q: Queue, now: int, id: JobId)
    requires Holds(q, id)
    ensures Holds(Fill(q, now), id)
    decreases |q.queued|
  {
    hide Launch, Holds;
    var best := Best(q, now, |q.queued|);
    if SlotFree(q) && best != -1 {
      LaunchHolds(q, best, id);
      LaunchSwitches(q, best);
      FillHolds(Launch(q, best), now, id);
    }
  }

  lemma PumpHolds(q: Queue, now: int, id: JobId)
    requires Holds(q, id)
    ensures Holds(Pump(q, now), id)
  {
    hide Fill, Earliest, Held, Idle, Holds;
    FillHolds(q, now, id);
    SameHolding(Fill(q, now), Pump(q, now), id);
  }

  lemma WantsStays(q: Queue, e: Entry, now: int)
    requires Wants(q) && e.id !in q.entries
    ensures Wants(Admit(q, e, now))
  {
    hide Pump;
    PumpRearms(AddQueued(q, e), now);
    if Held(q) != {} {
      var id :| id in Held(q);
      assert Holds(AddQueued(q, e), id);
      PumpHolds(AddQueued(q, e), now, id);
      assert id in Held(Admit(q, e, now));
    }
  }

  lemma RestoreRearms(q: Queue, job: StoredJob, now: int)
    ensures
      var r := Restore(q, job, now);
      && r.cfg == q.cfg && r.beats == q.beats && r.nextBeat == q.nextBeat && r.closed == q.closed && r.paused == q.paused
      && r.deciding == q.deciding && (q.beatArmed ==> r.beatArmed) && (r.beatArmed ==> q.beatArmed || Wants(r))
      && (Wants(q) ==> Wants(r))
  {
    hide Pump, Wants;
    if job.id !in q.entries {
      var e := Restored(q.cfg, job, now);
      PumpRearms(AddQueued(q, e), now);
      if Wants(q) { WantsStays(q, e, now); }
    }
  }

  lemma {:induction false} RestoreAllRearms(q: Queue, jobs: seq<StoredJob>, now: int)
    ensures
      var r := RestoreAll(q, jobs, now);
      && r.cfg == q.cfg && r.beats == q.beats && r.nextBeat == q.nextBeat && r.closed == q.closed && r.paused == q.paused
      && r.deciding == q.deciding && (q.beatArmed ==> r.beatArmed) && (r.beatArmed ==> q.beatArmed || Wants(r))
      && (Wants(q) ==> Wants(r))
    decreases |jobs|
  {
    hide Restore, Wants;
    if jobs != [] {
      RestoreRearms(q, jobs[0], now);
      RestoreAllRearms(Restore(q, jobs[0], now), jobs[1..], now);
    }
  }

  // ---- Section by section ----

  /** What a section leaves of the heartbeat, the timer and the beats both, and of what is awaiting a decision. */
  ghost predicate Beats(q: Queue, ev: Event, r: Queue)
    requires Enabled(q, ev)
  {
    var ok :=
      && r.cfg == q.cfg
      && r.nextBeat == q.nextBeat + (if ev.BeatFired? then 1 else 0)
      && r.beats == BeatsAfter(q, ev) && r.deciding == DecidingAfter(q, ev)
      && (r.beatArmed <==> !ev.Closed? && ((q.beatArmed && !ev.BeatFired?) || (Attends(q, ev) && Wants(r))));
    ok
  }

  ghost function BeatsAfter(q: Queue, ev: Event): map<nat, Beat> {
    match ev
    case BeatFired(_) =>
      if q.cfg.heartbeatMs.Some? && Held(q) != {} then q.beats[q.nextBeat := Renewing(Held(q))]
      else if WouldAdopt(q) then q.beats[q.nextBeat := Adopting]
      else q.beats - {q.nextBeat}
    case RenewReply(beat, _, _) => if WouldAdopt(q) then q.beats[beat := Adopting] else q.beats - {beat}
    case AdoptReply(beat, _, _) => q.beats - {beat}
    case _ => q.beats
  }

  ghost function DecidingAfter(q: Queue, ev: Event): map<JobId, bool>
    requires Enabled(q, ev)
  {
    match ev
    case HandlerDone(id, _, _) => if Attends(q, ev) then q.deciding else q.deciding[id := q.cfg.hasRetry && !q.closed]
    case PolicyReply(id, _, _, _) => q.deciding - {id}
    case _ => q.deciding
  }

  lemma PumpedBeats(q: Queue, ev: Event, mid: Queue, now: int)
    requires Enabled(q, ev) && Still(q, mid.(deciding := q.deciding)) && Attends(q, ev) && !ev.Closed?
    requires mid.deciding == DecidingAfter(q, ev)
    requires !ev.BeatFired? && !ev.RenewReply? && !ev.AdoptReply?
    ensures Beats(q, ev, Pump(mid, now))
  {
    hide Pump, Enabled, Attends, Wants;
    PumpRearms(mid, now);
  }

  lemma StillBeats(q: Queue, ev: Event, r: Queue)
    requires Enabled(q, ev) && Still(q, r.(deciding := q.deciding)) && !Attends(q, ev) && !ev.Closed?
    requires r.deciding == DecidingAfter(q, ev)
    requires !ev.BeatFired? && !ev.RenewReply? && !ev.AdoptReply?
    ensures Beats(q, ev, r)
  {
    hide Enabled, Attends, Wants;
  }

  /** A section that decides nothing, and pumps. */
  lemma AttendedBeats(q: Queue, ev: Event, mid: Queue, now: int)
    requires Enabled(q, ev) && Still(q, mid) && Attends(q, ev) && !ev.Closed? && !ev.PolicyReply?
    requires !ev.BeatFired? && !ev.RenewReply? && !ev.AdoptReply?
    ensures Beats(q, ev, Pump(mid, now))
  {
    hide Pump, Enabled, Attends, Wants, Beats;
    StillDeciding(q, mid);
    PumpedBeats(q, ev, mid, now);
  }

  /** A section that decides nothing, and does not pump. */
  lemma IdlingBeats(q: Queue, ev: Event, r: Queue)
    requires Enabled(q, ev) && Still(q, r) && !Attends(q, ev) && !ev.Closed? && !ev.PolicyReply? && !ev.HandlerDone?
    requires !ev.BeatFired? && !ev.RenewReply? && !ev.AdoptReply?
    ensures Beats(q, ev, r)
  {
    hide Enabled, Attends, Wants, Beats;
    StillDeciding(q, r);
    StillBeats(q, ev, r);
  }

  lemma EnqueueBeats(q: Queue, ev: Event)
    requires Enabled(q, ev) && ev.Enqueued?
    ensures Beats(q, ev, Apply(q, ev))
  {
    hide Pump, Beats, Record;
    var (q', e) := Created(q, NewEntry(q.cfg, ev.job));
    AttendedBeats(q, ev, AddQueued(q', e), ev.now);
  }

  lemma CreateBeats(q: Queue, ev: Event)
    requires Enabled(q, ev) && ev.CreateReply?
    ensures Beats(q, ev, Apply(q, ev))
  {
    hide Pump, Beats, Settle, PopWrite, Without, Still;
    var id, e := ev.id, q.entries[ev.id];
    var told :=
      if ev.landed then q.(entries := q.entries[id := e.(durability := Stored)])
      else if Terminal(e.state) then q.(queued := Without(q.queued, id))
      else Withdraw(q, id, Failed, Some(ev.cause));
    assert Still(q, told) by { CreatedStill(q, id, ev.landed, ev.cause); }
    PopStill(told, id);
    StillTrans(q, told, PopWrite(told, id));
    AttendedBeats(q, ev, PopWrite(told, id), ev.now);
  }

  lemma CreatedStill(q: Queue, id: JobId, landed: bool, cause: string)
    requires id in q.entries
    ensures
      var e := q.entries[id];
      Still(q, if landed then q.(entries := q.entries[id := e.(durability := Stored)])
               else if Terminal(e.state) then q.(queued := Without(q.queued, id))
               else Withdraw(q, id, Failed, Some(cause)))
  {
    hide Withdraw, Without;
    if !landed && !Terminal(q.entries[id].state) { WithdrawStill(q, id, Failed, Some(cause)); }
  }

  lemma WriteBeats(q: Queue, ev: Event)
    requires Enabled(q, ev) && ev.WriteReply?
    ensures Beats(q, ev, Apply(q, ev))
  {
    hide Beats, Lose, PopWrite, Idle, Still;
    var told := if ev.gone then Lose(q, ev.id) else q;
    StillSelf(q);
    LoseStill(q, ev.id);
    PopStill(told, ev.id);
    StillTrans(q, told, PopWrite(told, ev.id));
    IdleStill(PopWrite(told, ev.id));
    StillTrans(q, PopWrite(told, ev.id), Apply(q, ev));
    IdlingBeats(q, ev, Apply(q, ev));
  }

  lemma IdleStill(q: Queue)
    ensures Still(q, CheckIdle(q)) && Still(q, Drain(q))
  {
    hide Idle;
  }

  lemma AcquireBeats(q: Queue, ev: Event)
    requires Inv(q) && Enabled(q, ev) && ev.AcquireReply?
    ensures Beats(q, ev, Apply(q, ev))
  {
    hide Inv, Beats, Lose, PopWrite, Release, Begin, Pump, Still;
    var id := ev.id;
    var lost := if ev.reply == LeaseGone then Lose(q, id) else q;
    StillSelf(q);
    LoseStill(q, id);
    PopStill(lost, id);
    StillTrans(q, lost, PopWrite(lost, id));
    ReleaseStill(PopWrite(lost, id), id);
    var told := Release(PopWrite(lost, id), id);
    StillTrans(q, PopWrite(lost, id), told);
    AnsweredStanding(q, id);
    if id !in told.entries || Terminal(told.entries[id].state) {
      AttendedBeats(q, ev, told, ev.now);
    } else if ev.reply == Answered {
      BeginStill(told, id, true);
      StillTrans(q, told, Begin(told, id, true));
      IdlingBeats(q, ev, Begin(told, id, true));
    } else {
      var backoff := if q.cfg.heartbeatMs.Some? then q.cfg.heartbeatMs.value else 0;
      var e := told.entries[id].(dueAt := Some(ev.now + backoff));
      LinedStill(told, id, e);
      var lined := told.(entries := told.entries[id := e], queued := told.queued + [id]);
      StillTrans(q, told, lined);
      AttendedBeats(q, ev, lined, ev.now);
    }
  }

  /** Hearing that a lane was granted ends no job. */
  lemma AnsweredStanding(q: Queue, id: JobId)
    requires id in q.entries && q.entries[id].chain != []
    ensures
      var told := Release(PopWrite(q, id), id);
      id in told.entries && told.entries[id].state == q.entries[id].state
  {
  }

  lemma LinedStill(q: Queue, id: JobId, e: Entry)
    ensures Still(q, q.(entries := q.entries[id := e], queued := q.queued + [id]))
  {
  }

  lemma HandlerBeats(q: Queue, ev: Event)
    requires Enabled(q, ev) && ev.HandlerDone?
    ensures Beats(q, ev, Apply(q, ev))
  {
    hide Beats, Release, Settle, Pump, Still;
    var id := ev.id;
    ReleaseStill(q, id);
    var freed := Release(q, id);
    if Outcome(q.entries[id], ev.threw).Some? {
      var outcome := Outcome(q.entries[id], ev.threw).value;
      SettleStill(freed, id, outcome, Some(LeaseLostMessage(id)));
      var settled := Settle(freed, id, outcome, Some(LeaseLostMessage(id)));
      StillTrans(q, freed, settled);
      AttendedBeats(q, ev, settled, ev.now);
    } else {
      ReleaseKeepsDeciding(q, id);
      assert Apply(q, ev).(deciding := q.deciding) == freed;
      StillBeats(q, ev, Apply(q, ev));
    }
  }

  lemma StillDeciding(q: Queue, r: Queue)
    requires Still(q, r)
    ensures r.deciding == q.deciding && r.(deciding := q.deciding) == r
  {
  }

  lemma ReleaseKeepsDeciding(q: Queue, id: JobId)
    ensures Release(q, id).deciding == q.deciding
  {
  }

  lemma PolicyBeats(q: Queue, ev: Event)
    requires Enabled(q, ev) && ev.PolicyReply?
    ensures Beats(q, ev, Apply(q, ev))
  {
    hide Beats, Settle, Again, Pump, Still;
    var id := ev.id;
    var heard := Heard(q, id, ev.delayMs);
    var decided :=
      if q.entries[id].cancelRequested then Settle(q, id, Cancelled, None)
      else if heard == None then Settle(q, id, Failed, Some(ev.cause))
      else Again(q, id, ev.cause, heard.value, ev.now);
    SettleStill(q, id, Cancelled, None);
    SettleStill(q, id, Failed, Some(ev.cause));
    if heard.Some? { AgainStill(q, id, ev.cause, heard.value, ev.now); }
    StillDeciding(q, decided);
    assert decided.(deciding := decided.deciding - {id}).(deciding := q.deciding) == decided;
    PumpedBeats(q, ev, decided.(deciding := decided.deciding - {id}), ev.now);
  }

  lemma AgainStill(q: Queue, id: JobId, cause: string, delayMs: nat, now: int)
    requires id in q.entries
    ensures Still(q, Again(q, id, cause, delayMs, now))
  {
    hide Record;
  }

  lemma CancelBeats(q: Queue, ev: Event)
    requires Enabled(q, ev) && ev.CancelAsked?
    ensures Beats(q, ev, Apply(q, ev))
  {
    hide Beats, Withdraw, Pump, Still;
    var id := ev.id;
    if Attends(q, ev) {
      WithdrawStill(q, id, Cancelled, None);
      AttendedBeats(q, ev, Withdraw(q, id, Cancelled, None), ev.now);
    } else {
      StillSelf(q);
      if id in q.entries { EntryStill(q, id, q.entries[id].(cancelRequested := true, aborted := true)); }
      IdlingBeats(q, ev, Apply(q, ev));
    }
  }

  /** On a closed queue nothing sets the timer. */
  ghost predicate Shut(q: Queue, r: Queue) {
    var ok := r.cfg == q.cfg && r.beats == q.beats && r.nextBeat == q.nextBeat && r.deciding == q.deciding && r.closed && !r.beatArmed;
    ok
  }

  lemma CancelShut(q: Queue, id: JobId, now: int)
    requires q.closed && !q.beatArmed
    ensures Shut(q, Cancel(q, id, now))
  {
    hide Withdraw, Pump;
    if id in q.known && id in q.entries && q.entries[id].state == Queued {
      WithdrawStill(q, id, Cancelled, None);
      PumpRearms(Withdraw(q, id, Cancelled, None), now);
    }
  }

  lemma {:induction false} CancelAllShut(q: Queue, ids: seq<JobId>, now: int)
    requires q.closed && !q.beatArmed
    ensures Shut(q, CancelAll(q, ids, now))
    decreases |ids|
  {
    hide Cancel;
    if ids != [] {
      CancelShut(q, ids[0], now);
      CancelAllShut(Cancel(q, ids[0], now), ids[1..], now);
    }
  }

  lemma CloseBeats(q: Queue, ev: Event)
    requires Enabled(q, ev) && ev.Closed?
    ensures Beats(q, ev, Apply(q, ev))
  {
    hide CancelAll, Idle, Wants;
    var shut := q.(closed := true, paused := true, wake := None, beatArmed := false);
    CancelAllShut(shut, q.queued, ev.now);
    var one := CancelAll(shut, q.queued, ev.now);
    CancelAllShut(one, ev.starting, ev.now);
    CancelAllShut(CancelAll(one, ev.starting, ev.now), ev.active, ev.now);
    IdleStill(CancelAll(CancelAll(one, ev.starting, ev.now), ev.active, ev.now));
  }

  lemma AdoptingBeats(q: Queue, beat: nat, now: int)
    ensures
      var r := ThenAdopt(q, beat, now);
      && r.cfg == q.cfg && r.nextBeat == q.nextBeat && r.deciding == q.deciding
      && r.beats == (if WouldAdopt(q) then q.beats[beat := Adopting] else q.beats - {beat})
      && (r.beatArmed <==> q.beatArmed || (!WouldAdopt(q) && Wants(r)))
  {
    hide Pump, Wants;
    PumpRearms(q.(beats := q.beats - {beat}), now);
  }

  lemma BeatBeats(q: Queue, ev: Event)
    requires Enabled(q, ev) && ev.BeatFired?
    ensures Beats(q, ev, Apply(q, ev))
  {
    hide ThenAdopt, Held, Wants, Beats;
    var fired := q.(beatArmed := false, nextBeat := q.nextBeat + 1);
    if q.cfg.heartbeatMs.Some? && Held(q) != {} {
      RenewingNow(q, ev, fired.(beats := q.beats[q.nextBeat := Renewing(Held(q))]));
    } else {
      AdoptingBeats(fired, q.nextBeat, ev.now);
      AdoptingNow(q, ev, fired, ThenAdopt(fired, q.nextBeat, ev.now));
    }
  }

  lemma RenewingNow(q: Queue, ev: Event, r: Queue)
    requires Enabled(q, ev) && ev.BeatFired? && q.cfg.heartbeatMs.Some? && Held(q) != {}
    requires r.cfg == q.cfg && r.beats == q.beats[q.nextBeat := Renewing(Held(q))] && r.nextBeat == q.nextBeat + 1 && !r.beatArmed
    requires r.deciding == q.deciding
    ensures Beats(q, ev, r)
  {
    hide Held, Wants;
  }

  lemma AdoptingNow(q: Queue, ev: Event, fired: Queue, r: Queue)
    requires Enabled(q, ev) && ev.BeatFired? && !(q.cfg.heartbeatMs.Some? && Held(q) != {})
    requires WouldAdopt(fired) == WouldAdopt(q)
    requires r.cfg == q.cfg && r.deciding == q.deciding && r.nextBeat == q.nextBeat + 1 && (r.beatArmed <==> !WouldAdopt(q) && Wants(r))
    requires r.beats == if WouldAdopt(q) then q.beats[q.nextBeat := Adopting] else q.beats - {q.nextBeat}
    ensures Beats(q, ev, r)
  {
    hide Held, Wants, WouldAdopt;
  }

  lemma RenewBeats(q: Queue, ev: Event)
    requires Enabled(q, ev) && ev.RenewReply?
    ensures Beats(q, ev, Apply(q, ev))
  {
    hide ThenAdopt, Wants, LoseAll;
    LoseAllStill(q, ev.lost);
    AdoptingBeats(LoseAll(q, ev.lost), ev.beat, ev.now);
  }

  lemma AdoptBeats(q: Queue, ev: Event)
    requires Enabled(q, ev) && ev.AdoptReply?
    ensures Beats(q, ev, Apply(q, ev))
  {
    hide RestoreAll, Pump, Held;
    RestoreAllRearms(q, ev.jobs, ev.now);
    var took := RestoreAll(q, ev.jobs, ev.now);
    var told := took.(beats := took.beats - {ev.beat});
    PumpRearms(told, ev.now);
    if Wants(took) { WantsPumped(took, told, ev.now); }
  }

  lemma WantsPumped(q: Queue, r: Queue, now: int)
    requires Wants(q) && r == q.(beats := r.beats)
    ensures Wants(Pump(r, now))
  {
    hide Pump;
    PumpRearms(r, now);
    if Held(q) != {} {
      var id :| id in Held(q);
      assert Holds(r, id);
      PumpHolds(r, now, id);
      assert id in Held(Pump(r, now));
    }
  }

  lemma RecoverBeats(q: Queue, ev: Event)
    requires Enabled(q, ev) && ev.RecoverReply?
    ensures Beats(q, ev, Apply(q, ev))
  {
    hide RestoreAll, Held;
    RestoreAllRearms(q.(recovered := true), ev.jobs, ev.now);
    var took := RestoreAll(q.(recovered := true), ev.jobs, ev.now);
    BeatRearms(took);
    SameHolds(took, ScheduleBeat(took));
  }

  /** What every section does to the beats and to what is awaiting a decision, and exactly when it leaves the timer set. */
  lemma StepBeats(q: Queue, ev: Event)
    requires Inv(q) && Enabled(q, ev)
    ensures Beats(q, ev, Step(q, ev))
  {
    hide Inv, Enabled, Apply, Beats, Pump, Attends;
    match ev
    case Enqueued(_, _) => EnqueueBeats(q, ev);
    case CreateReply(_, _, _, _) => CreateBeats(q, ev);
    case WriteReply(_, _) => WriteBeats(q, ev);
    case AcquireReply(_, _, _) => AcquireBeats(q, ev);
    case HandlerDone(_, _, _) => HandlerBeats(q, ev);
    case PolicyReply(_, _, _, _) => PolicyBeats(q, ev);
    case CancelAsked(_, _) => CancelBeats(q, ev);
    case Closed(_, _, _) => CloseBeats(q, ev);
    case BeatFired(_) => BeatBeats(q, ev);
    case RenewReply(_, _, _) => RenewBeats(q, ev);
    case AdoptReply(_, _, _) => AdoptBeats(q, ev);
    case RecoverReply(_, _) => RecoverBeats(q, ev);
    case _ => SwitchBeats(q, ev);
  }

  lemma SwitchBeats(q: Queue, ev: Event)
    requires Enabled(q, ev) && (ev.Paused? || ev.Resumed? || ev.DrainAsked? || ev.WakeFired? || ev.RecoverFailed?)
    ensures Beats(q, ev, Apply(q, ev))
  {
    hide Pump, Idle, Wants, Beats, Still, Drain;
    match ev
    case Paused => QuietBeats(q, ev, q.(paused := true));
    case Resumed(now) => WokenBeats(q, ev, q.(paused := false), now);
    case WakeFired(now) => WokenBeats(q, ev, q.(wake := None), now);
    case DrainAsked => IdleStill(q); IdlingBeats(q, ev, Drain(q));
    case RecoverFailed => QuietBeats(q, ev, q.(recovered := true));
  }

  lemma QuietBeats(q: Queue, ev: Event, r: Queue)
    requires Enabled(q, ev) && (ev.Paused? || ev.RecoverFailed?)
    requires r.cfg == q.cfg && r.beats == q.beats && r.nextBeat == q.nextBeat && r.beatArmed == q.beatArmed && r.deciding == q.deciding
    ensures Beats(q, ev, r)
  {
    hide Wants;
  }

  lemma WokenBeats(q: Queue, ev: Event, mid: Queue, now: int)
    requires Enabled(q, ev) && (ev.Resumed? || ev.WakeFired?)
    requires mid.cfg == q.cfg && mid.beats == q.beats && mid.nextBeat == q.nextBeat && mid.beatArmed == q.beatArmed
    requires mid.deciding == q.deciding
    ensures Beats(q, ev, Pump(mid, now))
  {
    hide Wants, Pump;
    PumpRearms(mid, now);
  }

  // ---- Every run ----

  /** Every beat in flight was numbered before the next one will be. */
  ghost predicate Numbered(q: Queue) {
    var ok := forall beat :: beat in q.beats ==> beat < q.nextBeat;
    ok
  }

  lemma StepNumbered(q: Queue, ev: Event)
    requires Inv(q) && Numbered(q)
    ensures Numbered(Step(q, ev))
  {
    hide Inv, Apply, Enabled, Wants, Attends, Held;
    if Enabled(q, ev) {
      StepBeats(q, ev);
      RenewingBeats(q, ev);
    }
  }

  lemma RenewingBeats(q: Queue, ev: Event)
    requires Enabled(q, ev)
    ensures ev.RenewReply? || ev.AdoptReply? ==> ev.beat in q.beats
  {
  }

  lemma {:induction false} RunNumbered(q: Queue, evs: seq<Event>)
    requires Inv(q) && Numbered(q)
    ensures Numbered(Run(q, evs))
    decreases |evs|
  {
    hide Inv, Step, Numbered;
    if evs != [] {
      StepInv(q, evs[0]);
      StepNumbered(q, evs[0]);
      RunNumbered(Step(q, evs[0]), evs[1..]);
    }
  }

  lemma RenewalsAfter(q: Queue, ev: Event)
    requires Inv(q) && Numbered(q) && Enabled(q, ev)
    ensures
      var r := Step(q, ev);
      if ev.BeatFired? && q.cfg.heartbeatMs.Some? && Held(q) != {}
      then q.nextBeat !in Renewals(q) && Renewals(r) == Renewals(q) + {q.nextBeat}
      else Renewals(r) <= Renewals(q)
  {
    hide Inv, Apply, Wants, Attends, Held;
    StepBeats(q, ev);
    RenewingBeats(q, ev);
  }

  /**
   * Exactly when renewals stack. From any reachable queue with no two renewals in flight, a section leaves two
   * exactly when it is a beat that fires with something held while an earlier renewal is still unanswered.
   */
  lemma RenewalsStackExactly(cfg: Config, paused: bool, evs: seq<Event>, ev: Event)
    requires ValidConfig(cfg)
    ensures
      var q := Reached(cfg, paused, evs);
      |Renewals(q)| <= 1 ==>
        (|Renewals(Step(q, ev))| >= 2 <==>
          Enabled(q, ev) && ev.BeatFired? && cfg.heartbeatMs.Some? && Held(q) != {} && Renewals(q) != {})
  {
    hide Inv, Reached, Step, Enabled, Held, Renewals;
    var q := Reached(cfg, paused, evs);
    ReachedInv(cfg, paused, evs);
    ReachedNumbered(cfg, paused, evs);
    if Enabled(q, ev) {
      RenewalsAfter(q, ev);
      if !(ev.BeatFired? && q.cfg.heartbeatMs.Some? && Held(q) != {}) { Fewer(Renewals(Step(q, ev)), Renewals(q)); }
    } else {
      DisabledSame(q, ev);
    }
  }

  lemma Fewer(a: set<nat>, b: set<nat>)
    requires a <= b
    ensures |a| <= |b|
  {
    assert b == a + (b - a);
  }

  lemma DisabledSame(q: Queue, ev: Event)
    requires !Enabled(q, ev)
    ensures Step(q, ev) == q
  {
  }

  lemma ReachedNumbered(cfg: Config, paused: bool, evs: seq<Event>)
    requires ValidConfig(cfg)
    ensures Numbered(Reached(cfg, paused, evs))
  {
    hide Inv, Run;
    FreshInv(cfg, paused);
    RunNumbered(Fresh(cfg, paused), evs);
  }

  /**
   * Exactly when the timer is set while a beat is unanswered. In any reachable queue where it is not set, a
   * section sets it exactly when it is one that attends to the timers and there is a use for another beat; that
   * a beat is still being answered makes no difference.
   */
  lemma ArmedExactly(cfg: Config, paused: bool, evs: seq<Event>, ev: Event)
    requires ValidConfig(cfg)
    ensures
      var q := Reached(cfg, paused, evs);
      Enabled(q, ev) && q.beats != map[] && !q.beatArmed ==>
        (Step(q, ev).beatArmed <==> !ev.Closed? && Attends(q, ev) && Wants(Step(q, ev)))
  {
    hide Inv, Reached, Step, Enabled, Attends, Wants;
    ReachedInv(cfg, paused, evs);
    if Enabled(Reached(cfg, paused, evs), ev) { StepBeats(Reached(cfg, paused, evs), ev); }
  }

  // ---- What a beat asks about ----

  lemma {:induction false} RunArmed(q: Queue, evs: seq<Event>)
    requires Inv(q) && (q.beatArmed ==> q.cfg.heartbeatMs.Some?)
    ensures Run(q, evs).cfg == q.cfg && (Run(q, evs).beatArmed ==> q.cfg.heartbeatMs.Some?)
    decreases |evs|
  {
    hide Inv, Step, Attends, Enabled;
    if evs != [] {
      StepInv(q, evs[0]);
      if Enabled(q, evs[0]) { StepArmed(q, evs[0]); } else { DisabledSame(q, evs[0]); }
      RunArmed(Step(q, evs[0]), evs[1..]);
    }
  }

  lemma StepArmed(q: Queue, ev: Event)
    requires Inv(q) && Enabled(q, ev) && (q.beatArmed ==> q.cfg.heartbeatMs.Some?)
    ensures Step(q, ev).cfg == q.cfg && (Step(q, ev).beatArmed ==> q.cfg.heartbeatMs.Some?)
  {
    hide Inv, Step, Attends, Enabled;
    StepBeats(q, ev);
  }

  /** A job not over, whose row is in the store in this worker's name as far as it knows. */
  predicate Claims(q: Queue, id: JobId) {
    id in q.entries && (q.entries[id].state == Queued || q.entries[id].state == Running) && q.entries[id].durability == Stored
  }

  /**
   * In any reachable queue, a beat that fires asks the store about every unfinished job whose row is stored, and no
   * other; only with no such job does it ask for no renewal.
   */
  lemma BeatAsks(cfg: Config, paused: bool, evs: seq<Event>, now: int)
    requires ValidConfig(cfg)
    ensures
      var q := Reached(cfg, paused, evs);
      Enabled(q, BeatFired(now)) ==>
        var r := Step(q, BeatFired(now));
        && (forall beat :: beat in q.beats && beat != q.nextBeat ==> beat in r.beats && r.beats[beat] == q.beats[beat])
        && (if exists id :: Claims(q, id)
            then q.nextBeat in r.beats && r.beats[q.nextBeat].Renewing? && forall id :: id in r.beats[q.nextBeat].ids <==> Claims(q, id)
            else q.nextBeat in r.beats ==> r.beats[q.nextBeat] == Adopting)
  {
    hide Inv, Reached, Step, Enabled, Attends, Wants, Held;
    var q := Reached(cfg, paused, evs);
    ReachedInv(cfg, paused, evs);
    ReachedArmed(cfg, paused, evs);
    if Enabled(q, BeatFired(now)) {
      FiredArmed(q, now);
      StepBeats(q, BeatFired(now));
      forall id ensures id in Held(q) <==> Claims(q, id) { ClaimsHeld(q, id); }
    }
  }

  lemma ReachedArmed(cfg: Config, paused: bool, evs: seq<Event>)
    requires ValidConfig(cfg)
    ensures Reached(cfg, paused, evs).beatArmed ==> cfg.heartbeatMs.Some?
  {
    hide Inv, Run;
    FreshInv(cfg, paused);
    RunArmed(Fresh(cfg, paused), evs);
  }

  lemma FiredArmed(q: Queue, now: int)
    requires Enabled(q, BeatFired(now))
    ensures q.beatArmed
  {
  }

  lemma ClaimsHeld(q: Queue, id: JobId)
    requires Inv(q)
    ensures id in Held(q) <==> Claims(q, id)
  {
    hide Places, Lanes, Records, Tickets, BeatsOk;
  }
}
