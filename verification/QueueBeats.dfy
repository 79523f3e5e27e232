/** That claims go on being renewed: while a queue holds any, or watches for abandoned work, a beat is on its way. */
module QueueBeats {
  import opened Jobs
  import opened Sequences
  import opened QueueSpec
  import opened QueueInvariant
  import opened QueueRuns
  import opened QueueHistory
  import opened QueueTheorems
  import opened QueueService

  /** Something to renew, or something to watch for: `woken` once it has been told to start watching. */
  ghost predicate Concerned(q: Queue, woken: bool) {
    Held(q) != {} || (q.cfg.canAdopt && !q.paused && (woken || q.entries != map[]))
  }

  /** A beat is armed, or one is being answered. */
  ghost predicate Beating(q: Queue, woken: bool) {
    var ok := q.cfg.heartbeatMs.Some? && !q.closed && Concerned(q, woken) ==> q.beatArmed || q.beats != map[];
    ok
  }

  /** A section that leaves the heartbeat alone and gives it nothing new to do. */
  ghost predicate Quiet(q: Queue, r: Queue) {
    var ok :=
      && r.cfg == q.cfg && r.closed == q.closed && r.paused == q.paused && r.recovered == q.recovered
      && r.beatArmed == q.beatArmed && r.beats == q.beats
      && (forall id :: id in r.entries <==> id in q.entries)
      && (forall id :: id in Held(r) ==> id in Held(q));
    ok
  }

  lemma QuietBeating(q: Queue, r: Queue, woken: bool)
    requires Beating(q, woken) && Quiet(q, r)
    ensures Beating(r, woken)
  {
    hide Held;
    if q.entries == map[] {
      assert r.entries == map[];
    } else {
      var id :| id in q.entries;
      assert id in r.entries;
    }
    if Held(r) != {} {
      var id :| id in Held(r);
      assert id in Held(q);
    }
  }

  lemma QuietTrans(q: Queue, r: Queue, s: Queue)
    requires Quiet(q, r) && Quiet(r, s)
    ensures Quiet(q, s)
  {
    hide Held;
  }

  lemma QuietSelf(q: Queue)
    ensures Quiet(q, q)
  {
    hide Held;
  }

  /** Changing one job that is here already, to something held only if it was. */
  lemma QuietOne(q: Queue, r: Queue, id: JobId, e: Entry)
    requires id in q.entries && r.entries == q.entries[id := e]
    requires e.durability == Stored && !Terminal(e.state) ==> q.entries[id].durability == Stored && !Terminal(q.entries[id].state)
    requires r.cfg == q.cfg && r.closed == q.closed && r.paused == q.paused && r.recovered == q.recovered
    requires r.beatArmed == q.beatArmed && r.beats == q.beats && r.known <= q.known
    ensures Quiet(q, r)
  {
  }

  lemma QuietNone(q: Queue, r: Queue)
    requires r.entries == q.entries
    requires r.cfg == q.cfg && r.closed == q.closed && r.paused == q.paused && r.recovered == q.recovered
    requires r.beatArmed == q.beatArmed && r.beats == q.beats && r.known <= q.known
    ensures Quiet(q, r)
  {
  }

  // ---- Sections that end in a pump ----

  lemma ArmedBeating(q: Queue, woken: bool)
    ensures Beating(ScheduleBeat(q), woken)
  {
    hide Held;
    var r := ScheduleBeat(q);
    assert Held(r) == Held(q) by { SameHeld(q, r); }
  }

  lemma SameHeld(q: Queue, r: Queue)
    requires r.entries == q.entries && r.known == q.known
    ensures Held(r) == Held(q)
  {
  }

  lemma PumpBeating(q: Queue, now: int, woken: bool)
    ensures Beating(Pump(q, now), woken)
  {
    hide Fill, ScheduleWake, ScheduleBeat, Beating, Held, Quiet;
    var timed := ScheduleBeat(ScheduleWake(Fill(q, now), now));
    ArmedBeating(ScheduleWake(Fill(q, now), now), woken);
    IdleBeating(timed, woken);
  }

  lemma IdleBeating(q: Queue, woken: bool)
    requires Beating(q, woken)
    ensures Beating(CheckIdle(q), woken)
  {
    hide Beating, Quiet;
    CheckIdleQuiet(q);
    QuietBeating(q, CheckIdle(q), woken);
  }

  lemma CheckIdleQuiet(q: Queue)
    ensures Quiet(q, CheckIdle(q))
  {
    hide Quiet;
    QuietNone(q, CheckIdle(q));
  }

  // ---- The pieces of the sections that do not ----

  lemma {:induction false} EvictForgets(q: Queue)
    ensures Evict(q).known <= q.known
    decreases |q.finished|
  {
    if |q.finished| > q.cfg.historyLimit {
      EvictForgets(q.(finished := q.finished[1..], known := q.known - {q.finished[0]}));
    }
  }

  lemma PersistOne(q: Queue, id: JobId, e: Entry)
    requires id in q.entries
    ensures
      var r := Persist(q.(entries := q.entries[id := e]), id, false);
      && r.entries == q.entries[id := r.entries[id]]
      && r.entries[id].state == e.state && r.entries[id].durability == e.durability
  {
    hide Record;
  }

  lemma RememberFrame(q: Queue, id: JobId)
    ensures
      var r := Remember(q, id);
      && r == q.(finished := r.finished, known := r.known)
      && r.known <= q.known
  {
    hide Evict;
    EvictForgets(q.(finished := q.finished + [id]));
  }

  lemma SettleQuiet(q: Queue, id: JobId, outcome: JobState, error: Option<string>)
    requires id in q.entries && !Terminal(q.entries[id].state) && Terminal(outcome)
    ensures Quiet(q, Settle(q, id, outcome, error))
  {
    hide Persist, Remember, Quiet;
    var e := Over(q.entries[id], outcome, error);
    PersistOne(q, id, e);
    var ended := Persist(q.(entries := q.entries[id := e]), id, false);
    QuietOne(q, ended, id, ended.entries[id]);
    RememberFrame(ended, id);
    QuietNone(ended, Remember(ended, id));
    QuietTrans(q, ended, Remember(ended, id));
  }

  lemma LoseQuiet(q: Queue, id: JobId)
    ensures Quiet(q, Lose(q, id))
  {
    hide Quiet, MarkLost;
    if id in q.known && id in q.entries && !Terminal(q.entries[id].state) && q.entries[id].durability != Lost {
      MarkLostQuiet(q, id, q.entries[id].(durability := Lost, leaseLost := true));
    } else {
      QuietSelf(q);
    }
  }

  lemma MarkLostQuiet(q: Queue, id: JobId, e: Entry)
    requires id in q.entries && !Terminal(e.state) && e.durability == Lost
    ensures Quiet(q, MarkLost(q, id, e))
  {
    hide Quiet, Settle, Without;
    if e.state == Queued {
      var q0 := q.(entries := q.entries[id := e]);
      var q1 := q0.(queued := Without(q0.queued, id));
      QuietOne(q, q1, id, e);
      SettleQuiet(q1, id, Failed, Some(LeaseLostMessage(id)));
      QuietTrans(q, q1, Settle(q1, id, Failed, Some(LeaseLostMessage(id))));
    } else {
      QuietOne(q, MarkLost(q, id, e), id, e.(aborted := true));
    }
  }

  lemma PopQuiet(q: Queue, id: JobId)
    ensures Quiet(q, PopWrite(q, id))
  {
    hide Quiet;
    if id in q.entries && q.entries[id].chain != [] {
      QuietOne(q, PopWrite(q, id), id, q.entries[id].(chain := q.entries[id].chain[1..]));
    } else {
      QuietSelf(q);
    }
  }

  lemma ReleaseQuiet(q: Queue, id: JobId)
    ensures Quiet(q, Release(q, id))
  {
    hide Quiet;
    QuietNone(q, Release(q, id));
  }

  lemma BeginQuiet(q: Queue, id: JobId)
    requires id in q.entries && !Terminal(q.entries[id].state)
    ensures Quiet(q, Begin(q, id, true))
  {
    hide Quiet;
    var r := Begin(q, id, true);
    QuietOne(q, r, id, r.entries[id]);
  }

  // ---- Section by section ----

  lemma WriteBeating(q: Queue, id: JobId, gone: bool, woken: bool)
    requires Beating(q, woken)
    ensures Beating(WriteAnswered(q, id, gone), woken)
  {
    hide Beating, Quiet, Lose, PopWrite, CheckIdle;
    var told := if gone then Lose(q, id) else q;
    QuietSelf(q);
    LoseQuiet(q, id);
    PopQuiet(told, id);
    QuietTrans(q, told, PopWrite(told, id));
    QuietBeating(q, PopWrite(told, id), woken);
    IdleBeating(PopWrite(told, id), woken);
  }

  lemma AcquireBeating(q: Queue, id: JobId, reply: Reply, now: int, woken: bool)
    requires Beating(q, woken) && id in q.entries
    ensures Beating(AcquireAnswered(q, id, reply, now), woken)
  {
    hide Beating, Quiet, Lose, PopWrite, Release, Begin, Pump;
    var lost := if reply == LeaseGone then Lose(q, id) else q;
    var told := Release(PopWrite(lost, id), id);
    if id !in told.entries || Terminal(told.entries[id].state) {
      PumpBeating(told, now, woken);
    } else if reply == Answered {
      PopQuiet(q, id);
      ReleaseQuiet(PopWrite(q, id), id);
      QuietTrans(q, PopWrite(q, id), told);
      BeginQuiet(told, id);
      QuietTrans(q, told, Begin(told, id, true));
      QuietBeating(q, Begin(told, id, true), woken);
    } else {
      var backoff := if q.cfg.heartbeatMs.Some? then q.cfg.heartbeatMs.value else 0;
      PumpBeating(told.(entries := told.entries[id := told.entries[id].(dueAt := Some(now + backoff))],
                        queued := told.queued + [id]), now, woken);
    }
  }

  lemma HandlerBeating(q: Queue, id: JobId, threw: bool, now: int, woken: bool)
    requires Beating(q, woken) && id in q.entries && !Terminal(q.entries[id].state)
    ensures Beating(HandlerReturned(q, id, threw, now), woken)
  {
    hide Beating, Quiet, Release, Settle, Pump;
    match Outcome(q.entries[id], threw)
    case Some(outcome) => PumpBeating(Settle(Release(q, id), id, outcome, Some(LeaseLostMessage(id))), now, woken);
    case None =>
      ReleaseQuiet(q, id);
      var freed := Release(q, id);
      var r := freed.(deciding := q.deciding[id := q.cfg.hasRetry && !q.closed]);
      QuietNone(freed, r);
      QuietTrans(q, freed, r);
      QuietBeating(q, r, woken);
  }

  lemma CancelBeating(q: Queue, id: JobId, now: int, woken: bool)
    requires Beating(q, woken)
    ensures Beating(Cancel(q, id, now), woken)
  {
    hide Beating, Quiet, Withdraw, Pump;
    if id !in q.known || id !in q.entries || Terminal(q.entries[id].state) {
    } else if q.entries[id].state == Queued {
      PumpBeating(Withdraw(q, id, Cancelled, None), now, woken);
    } else {
      QuietOne(q, Cancel(q, id, now), id, q.entries[id].(cancelRequested := true, aborted := true));
      QuietBeating(q, Cancel(q, id, now), woken);
    }
  }

  lemma ThenAdoptBeating(q: Queue, beat: nat, now: int, woken: bool)
    ensures Beating(ThenAdopt(q, beat, now), woken)
  {
    hide Held, Pump;
    if !q.cfg.canAdopt || q.cfg.heartbeatMs == None || q.paused || q.closed {
      PumpBeating(q.(beats := q.beats - {beat}), now, woken);
    } else {
      assert beat in q.beats[beat := Adopting];
    }
  }

  lemma BeatFiresBeating(q: Queue, now: int, woken: bool)
    ensures Beating(BeatFires(q, now), woken)
  {
    hide Held, ThenAdopt;
    var fired := q.(beatArmed := false, nextBeat := q.nextBeat + 1);
    if q.cfg.heartbeatMs.Some? && Held(q) != {} {
      assert q.nextBeat in BeatFires(q, now).beats;
    } else {
      ThenAdoptBeating(fired, q.nextBeat, now, woken);
    }
  }

  lemma {:induction false} CloseShut(q: Queue, ids: seq<JobId>, now: int)
    requires q.closed
    ensures CancelAll(q, ids, now).closed
    decreases |ids|
  {
    hide Cancel;
    if ids != [] {
      CancelShut(q, ids[0], now);
      CloseShut(Cancel(q, ids[0], now), ids[1..], now);
    }
  }

  lemma CancelShut(q: Queue, id: JobId, now: int)
    requires q.closed
    ensures Cancel(q, id, now).closed
  {
    hide Settle, Fill, ScheduleWake, Pump;
    if id in q.known && id in q.entries && !Terminal(q.entries[id].state) && q.entries[id].state == Queued {
      var out := q.(queued := Without(q.queued, id));
      SettleQuiet(out, id, Cancelled, None);
      PumpShut(Withdraw(q, id, Cancelled, None), now);
    }
  }

  lemma PumpShut(q: Queue, now: int)
    requires q.closed
    ensures Pump(q, now).closed
  {
    hide Fill, Pump, ScheduleWake;
    FillStops(q, now);
    PumpShape(q, now);
  }

  lemma ClosedBeating(q: Queue, starting: seq<JobId>, active: seq<JobId>, now: int, woken: bool)
    ensures Beating(Close(q, starting, active, now), woken)
  {
    hide CancelAll, Held;
    var shut := q.(closed := true, paused := true, wake := None, beatArmed := false);
    CloseShut(shut, q.queued, now);
    var one := CancelAll(shut, q.queued, now);
    CloseShut(one, starting, now);
    CloseShut(CancelAll(one, starting, now), active, now);
  }

  lemma PauseBeating(q: Queue, woken: bool)
    requires Beating(q, woken)
    ensures Beating(q.(paused := true), woken)
  {
    hide Held;
    SameHeld(q, q.(paused := true));
  }

  lemma WaiterBeating(q: Queue, waiters: nat, woken: bool)
    requires Beating(q, woken)
    ensures Beating(q.(waiters := waiters), woken)
  {
    hide Beating, Quiet;
    QuietNone(q, q.(waiters := waiters));
    QuietBeating(q, q.(waiters := waiters), woken);
  }

  lemma DrainBeating(q: Queue, woken: bool)
    requires Beating(q, woken)
    ensures Beating(Drain(q), woken)
  {
    hide Beating, Quiet, Idle;
    if !Idle(q) { WaiterBeating(q, q.waiters + 1, woken); }
  }

  /** Told to start watching: stored jobs recovered, however few, or a paused queue resumed. */
  ghost predicate Wakes(q: Queue, ev: Event) {
    Enabled(q, ev) && (ev.RecoverReply? || ev.Resumed?)
  }

  lemma StepBeating(q: Queue, ev: Event, woken: bool)
    requires Beating(q, woken)
    ensures Beating(Step(q, ev), woken || Wakes(q, ev))
  {
    hide Beating, Pump, Enabled, AcquireAnswered, HandlerReturned, WriteAnswered, Cancel, Close, ThenAdopt, BeatFires, RestoreAll,
         LoseAll, ScheduleBeat, PopWrite, Drain, Again, Settle, Withdraw;
    if Enabled(q, ev) {
      match ev
      case Enqueued(job, now) =>
        var (q', e) := Created(q, NewEntry(q.cfg, job));
        PumpBeating(AddQueued(q', e), now, woken);
      case CreateReply(id, landed, cause, now) =>
        if id in q.entries { CreateEndsInPump(q, id, landed, cause, now, woken); }
      case WriteReply(id, gone) => WriteBeating(q, id, gone, woken);
      case AcquireReply(id, reply, now) => if id in q.entries { AcquireBeating(q, id, reply, now, woken); }
      case HandlerDone(id, threw, now) =>
        if id in q.entries && !Terminal(q.entries[id].state) { HandlerBeating(q, id, threw, now, woken); }
      case PolicyReply(id, delayMs, cause, now) =>
        if id in q.entries && !Terminal(q.entries[id].state) { PolicyEndsInPump(q, id, delayMs, cause, now, woken); }
      case CancelAsked(id, now) => CancelBeating(q, id, now, woken);
      case Closed(starting, active, now) => ClosedBeating(q, starting, active, now, woken);
      case BeatFired(now) => BeatFiresBeating(q, now, woken);
      case RenewReply(beat, lost, now) => ThenAdoptBeating(LoseAll(q, lost), beat, now, woken);
      case AdoptReply(beat, jobs, now) =>
        var took := RestoreAll(q, jobs, now);
        PumpBeating(took.(beats := took.beats - {beat}), now, woken);
      case RecoverReply(jobs, now) => ArmedBeating(RestoreAll(q.(recovered := true), jobs, now), true);
      case RecoverFailed => RecoveredBeating(q, woken);
      case Paused => PauseBeating(q, woken);
      case Resumed(now) => PumpBeating(q.(paused := false), now, true);
      case WakeFired(now) => PumpBeating(q.(wake := None), now, woken);
      case DrainAsked => DrainBeating(q, woken);
    }
  }

  lemma CreateEndsInPump(q: Queue, id: JobId, landed: bool, cause: string, now: int, woken: bool)
    requires id in q.entries
    ensures Beating(CreateAnswered(q, id, landed, cause, now), woken)
  {
    hide Beating, Pump, PopWrite, Withdraw;
    var e := q.entries[id];
    var told :=
      if landed then q.(entries := q.entries[id := e.(durability := Stored)])
      else if Terminal(e.state) then q.(queued := Without(q.queued, id))
      else Withdraw(q, id, Failed, Some(cause));
    PumpBeating(PopWrite(told, id), now, woken);
  }

  lemma PolicyEndsInPump(q: Queue, id: JobId, delayMs: Option<nat>, cause: string, now: int, woken: bool)
    requires id in q.entries && !Terminal(q.entries[id].state)
    ensures Beating(PolicyAnswered(q, id, delayMs, cause, now), woken)
  {
    hide Beating, Pump, Settle, Again;
    var decided :=
      if q.entries[id].cancelRequested then Settle(q, id, Cancelled, None)
      else if Heard(q, id, delayMs) == None then Settle(q, id, Failed, Some(cause))
      else Again(q, id, cause, Heard(q, id, delayMs).value, now);
    PumpBeating(decided.(deciding := decided.deciding - {id}), now, woken);
  }

  lemma RecoveredBeating(q: Queue, woken: bool)
    requires Beating(q, woken)
    ensures Beating(q.(recovered := true), woken)
  {
    hide Held;
    SameHeld(q, q.(recovered := true));
  }

  /** Some event of the run told the queue to start watching. */
  ghost predicate Woken(q: Queue, evs: seq<Event>)
    decreases |evs|
  {
    evs != [] && (Wakes(q, evs[0]) || Woken(Step(q, evs[0]), evs[1..]))
  }

  lemma {:induction false} RunBeating(q: Queue, evs: seq<Event>, woken: bool)
    requires Beating(q, woken)
    ensures Beating(Run(q, evs), woken || Woken(q, evs))
    decreases |evs|
  {
    hide Beating, Step;
    if evs != [] {
      StepBeating(q, evs[0], woken);
      RunBeating(Step(q, evs[0]), evs[1..], woken || Wakes(q, evs[0]));
    }
  }

  /**
   * The heartbeat never stops. In every reachable open queue that can renew, while it holds a claim, or may take
   * over abandoned work and has ever been given any, recovered or been resumed, a beat is armed or being answered.
   */
  lemma HeartbeatNeverStops(cfg: Config, paused: bool, evs: seq<Event>, id: JobId)
    requires ValidConfig(cfg) && cfg.heartbeatMs.Some?
    ensures
      var q := Reached(cfg, paused, evs);
      && (!q.closed && id in Held(q) ==> q.beatArmed || q.beats != map[])
      && (!q.closed && cfg.canAdopt && !q.paused && (q.entries != map[] || Woken(Fresh(cfg, paused), evs)) ==>
           q.beatArmed || q.beats != map[])
  {
    hide Held, Run, Inv, Woken;
    var start := Fresh(cfg, paused);
    NothingHeld(start);
    RunBeating(start, evs, false);
    ReachedInv(cfg, paused, evs);
  }

  /** A queue that has made nothing, armed nothing and set no timer. */
  ghost predicate Blank(q: Queue) {
    var ok :=
      && q.entries == map[] && q.queued == [] && q.starting == {} && q.active == {} && q.deciding == map[]
      && !q.beatArmed && q.beats == map[] && q.wake == None;
    ok
  }

  /** Such a queue stays so until it is given something, or told to start watching. */
  lemma StepBlank(q: Queue, ev: Event)
    requires Blank(q) && !Wakes(q, ev)
    ensures Blank(Step(q, ev)) || Step(q, ev).entries != map[]
  {
    hide Pump, Fill, RestoreAll, LoseAll;
    if Enabled(q, ev) {
      match ev
      case Enqueued(job, now) => EnqueueMakes(q, job, now);
      case Closed(starting, active, now) => CloseBlank(q, starting, active, now);
      case _ =>
    }
  }

  lemma EnqueueMakes(q: Queue, job: StoredJob, now: int)
    ensures Enqueue(q, job, now).entries != map[]
  {
    hide Pump, Record, Fill;
    var (q', e) := Created(q, NewEntry(q.cfg, job));
    var lined := AddQueued(q', e);
    FillKeepsEntries(lined, now, e.id);
    PumpShape(lined, now);
  }

  lemma {:induction false} FillKeepsEntries(q: Queue, now: int, id: JobId)
    requires id in q.entries
    ensures id in Fill(q, now).entries
    decreases |q.queued|
  {
    hide Launch, Best;
    var best := Best(q, now, |q.queued|);
    if SlotFree(q) && best != -1 {
      LaunchKeepsEntries(q, best, id);
      LaunchSwitches(q, best);
      FillKeepsEntries(Launch(q, best), now, id);
    }
  }

  lemma LaunchKeepsEntries(q: Queue, k: nat, id: JobId)
    requires k < |q.queued| && q.queued[k] in q.entries && id in q.entries
    ensures id in Launch(q, k).entries
  {
    hide Record, ClaimOf;
  }

  lemma CloseBlank(q: Queue, starting: seq<JobId>, active: seq<JobId>, now: int)
    requires Blank(q) && Enabled(q, Closed(starting, active, now))
    ensures Blank(Close(q, starting, active, now))
  {
    hide Cancel, Idle;
    FirstIn(starting);
    FirstIn(active);
    var shut := q.(closed := true, paused := true, wake := None, beatArmed := false);
    assert CancelAll(shut, [], now) == shut;
  }

  lemma FirstIn(ids: seq<JobId>)
    ensures ids == [] || ids[0] in ids
  {
  }

  lemma {:induction false} RunBlank(q: Queue, evs: seq<Event>)
    requires Inv(q) && Blank(q) && !Woken(q, evs)
    ensures Blank(Run(q, evs)) || Run(q, evs).entries != map[]
    decreases |evs|
  {
    hide Inv, Blank, Step, Ages;
    if evs != [] {
      StepInv(q, evs[0]);
      StepBlank(q, evs[0]);
      if Blank(Step(q, evs[0])) { RunBlank(Step(q, evs[0]), evs[1..]); }
      else {
        RunAges(Step(q, evs[0]), evs[1..]);
        EntriesStay(Step(q, evs[0]), Run(Step(q, evs[0]), evs[1..]));
      }
    }
  }

  lemma EntriesStay(q: Queue, r: Queue)
    requires Ages(q, r) && q.entries != map[]
    ensures r.entries != map[]
  {
    var id :| id in q.entries;
    assert id in r.entries;
  }

  /**
   * Exactly when a queue watches. A reachable queue that is open, not paused, and could take over abandoned work
   * has a beat armed or being answered exactly when it has been given work or told to start watching; a recovery
   * whose load throws is neither.
   */
  lemma WatchesExactly(cfg: Config, paused: bool, evs: seq<Event>)
    requires ValidConfig(cfg) && cfg.heartbeatMs.Some? && cfg.canAdopt
    ensures
      var q := Reached(cfg, paused, evs);
      !q.closed && !q.paused ==>
        (q.beatArmed || q.beats != map[] <==> q.entries != map[] || Woken(Fresh(cfg, paused), evs))
  {
    hide Inv, Run, Woken, Held;
    FreshInv(cfg, paused);
    HeartbeatNeverStops(cfg, paused, evs, JobId(""));
    if !Woken(Fresh(cfg, paused), evs) { RunBlank(Fresh(cfg, paused), evs); }
  }

  /** A recovery whose load throws arms nothing: a new worker that would adopt is left watching for nothing. */
  lemma FailedRecoveryWatchesNothing(cfg: Config)
    requires ValidConfig(cfg) && cfg.hasStore
    ensures
      var q := Run(Fresh(cfg, false), [RecoverFailed]);
      q.recovered && !q.beatArmed && q.beats == map[]
  {
    assert [RecoverFailed][1..] == [];
  }

  lemma NothingHeld(q: Queue)
    requires q.entries == map[]
    ensures Held(q) == {}
  {
  }
}
