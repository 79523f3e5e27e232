/**
 * The queue itself: collections and records changed in place, one method per atomic section, each proved to
 * do what its function in `QueueSpec` says. What the source hears from a promise arrives as a method call.
 */
module JobQueueClass {
  import opened Jobs
  import opened Sequences
  import QueueSpec

  type Entry = QueueSpec.Entry
  type Config = QueueSpec.Config
  type Queue = QueueSpec.Queue

  class JobQueue {
    const cfg: Config
    var entries: map<JobId, Entry>      // the records, this process's every one
    var known: set<JobId>
    var queued: seq<JobId>
    var starting: set<JobId>
    var active: set<JobId>
    var deciding: map<JobId, bool>
    var holder: map<Lane, JobId>
    var finished: seq<JobId>
    var writes: map<nat, JobId>
    var nextTicket: nat
    var beats: map<nat, QueueSpec.Beat>
    var nextBeat: nat
    var beatArmed: bool
    var wake: Option<int>
    var waiters: nat
    var paused: bool
    var closed: bool
    var recovered: bool

    /** The queue as a value. */
    function Abs(): Queue
      reads this
    {
      QueueSpec.Queue(cfg, entries, known, queued, starting, active, deciding, holder, finished, writes, nextTicket,
                      beats, nextBeat, beatArmed, wake, waiters, paused, closed, recovered)
    }

    constructor (cfg: Config, paused: bool)
      ensures Abs() == QueueSpec.Fresh(cfg, paused)
    {
      this.cfg, this.paused := cfg, paused;
      entries, known, queued, starting, active, deciding := map[], {}, [], {}, {}, map[];
      holder, finished, writes, nextTicket := map[], [], map[], 0;
      beats, nextBeat, beatArmed, wake, waiters := map[], 0, false, None, 0;
      closed, recovered := false, false;
    }

    // ---- Writing things down ----

    method Persist(id: JobId, save: bool)
      requires id in entries
      modifies this
      ensures Abs() == QueueSpec.Persist(old(Abs()), id, save)
    {
      var e := entries[id];
      if e.durability == QueueSpec.Unstored || e.durability == QueueSpec.Lost { return; }
      var op := if save then QueueSpec.Save(nextTicket, QueueSpec.Record(e)) else QueueSpec.Remove(nextTicket);
      writes := writes[nextTicket := id];
      nextTicket := nextTicket + 1;
      entries := entries[id := e.(chain := e.chain + [op])];
    }

    method Remember(id: JobId)
      modifies this
      ensures Abs() == QueueSpec.Remember(old(Abs()), id)
    {
      finished := finished + [id];
      ghost var all := Abs();
      while |finished| > cfg.historyLimit
        invariant QueueSpec.Evict(Abs()) == QueueSpec.Evict(all)
        decreases |finished|
      {
        known := known - {finished[0]};
        finished := finished[1..];
      }
    }

    method Settle(id: JobId, outcome: JobState, error: Option<string>)
      requires id in entries && !Terminal(entries[id].state) && Terminal(outcome)
      modifies this
      ensures Abs() == QueueSpec.Settle(old(Abs()), id, outcome, error)
    {
      var e := entries[id];
      entries := entries[id := e.(state := outcome, error := if outcome == Failed then error else e.error)];
      Persist(id, false);
      Remember(id);
    }

    method CheckIdle()
      modifies `waiters
      ensures Abs() == QueueSpec.CheckIdle(old(Abs()))
    {
      if queued == [] && starting == {} && active == {} && deciding == map[] && writes == map[] { waiters := 0; }
    }

    // ---- Choosing what runs ----

    /** The highest-priority queued job that may start, taken out of the line. */
    method Take(now: int) returns (taken: Option<JobId>)
      modifies `queued
      ensures
        var best := QueueSpec.Best(old(Abs()), now, |old(queued)|);
        if best == -1 then taken == None && Abs() == old(Abs())
        else
          taken == Some(old(queued)[best]) && taken.value in entries
          && Abs() == old(Abs()).(queued := DropAt(old(queued), best))
    {
      var best := -1;
      for i := 0 to |queued|
        invariant Abs() == old(Abs()) && queued == old(queued)
        invariant best == QueueSpec.Best(Abs(), now, i)
      {
        if queued[i] !in entries { continue; }
        var candidate := entries[queued[i]];
        if candidate.durability == QueueSpec.Pending { continue; }
        if candidate.lane.Some? && candidate.lane.value in holder { continue; }
        if candidate.dueAt.Some? && candidate.dueAt.value > now { continue; }
        if best == -1 || candidate.priority > entries[queued[best]].priority { best := i; }
      }
      if best == -1 { return None; }
      taken := Some(queued[best]);
      queued := DropAt(queued, best);
    }

    /** The first section of a run: up to the call of the handler. */
    method Begin(id: JobId, claimed: bool)
      requires id in entries
      modifies this
      ensures Abs() == QueueSpec.Begin(old(Abs()), id, claimed)
    {
      var e := entries[id];
      entries := entries[id := e.(state := Running, attempt := e.attempt + 1, notBefore := None, dueAt := None)];
      active := active + {id};
      if e.lane != None { holder := holder[e.lane.value := id]; }
      if !claimed { Persist(id, true); }
    }

    /** The first section of a start: up to the store being asked for the lane. */
    method Ask(id: JobId)
      requires id in entries && entries[id].lane.Some?
      modifies this
      ensures Abs() == QueueSpec.Ask(old(Abs()), id)
    {
      var e := entries[id];
      starting := starting + {id};
      holder := holder[e.lane.value := id];
      var claim := QueueSpec.Record(e).(state := Running, attempt := e.attempt + 1, nextAttemptAt := None);
      entries := entries[id := e.(chain := e.chain + [QueueSpec.Acquire(claim)])];
    }

    method ScheduleWake(now: int)
      modifies `wake
      ensures Abs() == QueueSpec.ScheduleWake(old(Abs()), now)
    {
      wake := None;
      if paused || closed { return; }
      var earliest := None;
      for i := 0 to |queued|
        invariant Abs() == old(Abs()).(wake := None) && queued == old(queued)
        invariant earliest == QueueSpec.Earliest(old(Abs()), now, i)
      {
        if queued[i] !in entries { continue; }
        var e := entries[queued[i]];
        if e.durability == QueueSpec.Pending { continue; }
        if e.dueAt == None || e.dueAt.value <= now { continue; }
        if earliest == None || e.dueAt.value < earliest.value { earliest := e.dueAt; }
      }
      wake := earliest;
    }

    /** Collects, by going through `known`, the unfinished jobs whose durability is `Stored`. */
    method Held() returns (ids: set<JobId>)
      ensures ids == QueueSpec.Held(Abs())
    {
      ids := {};
      var rest := known;
      while rest != {}
        invariant rest <= known
        invariant ids == set id | id in known - rest && id in entries
          && !Terminal(entries[id].state) && entries[id].durability == QueueSpec.Stored
        decreases |rest|
      {
        var id :| id in rest;
        rest := rest - {id};
        if id !in entries || Terminal(entries[id].state) { continue; }
        if entries[id].durability != QueueSpec.Stored { continue; }
        ids := ids + {id};
      }
    }

    method ScheduleHeartbeat()
      modifies `beatArmed
      ensures Abs() == QueueSpec.ScheduleBeat(old(Abs()))
    {
      if beatArmed || cfg.heartbeatMs == None || closed { return; }
      var held := Held();
      var watching := cfg.canAdopt && !paused;
      if held == {} && !watching { return; }
      beatArmed := true;
    }

    /** Fills the free slots, then sets `wake` and `beatArmed` and answers the waiters if nothing is left to do. */
    method Pump(now: int)
      modifies this
      ensures Abs() == QueueSpec.Pump(old(Abs()), now)
    {
      ghost var before := Abs();
      var stuck := false;
      while !stuck && !paused && |active| + |starting| < cfg.concurrency
        invariant if stuck then Abs() == QueueSpec.Fill(before, now)
                  else QueueSpec.Fill(Abs(), now) == QueueSpec.Fill(before, now)
        decreases !stuck, |queued|
      {
        var taken := Take(now);
        match taken {
          case None => stuck := true;
          case Some(id) =>
            var shares := QueueSpec.SharesLanes(cfg, entries[id]);
            if shares { Ask(id); } else { Begin(id, false); }
        }
      }
      ScheduleWake(now);
      ScheduleHeartbeat();
      CheckIdle();
    }

    // ---- Taking jobs on ----

    method Admit(e: Entry, now: int)
      modifies this
      ensures Abs() == QueueSpec.Admit(old(Abs()), e, now)
    {
      hide QueueSpec.Pump;
      entries := entries[e.id := e];
      known := known + {e.id};
      queued := queued + [e.id];
      Pump(now);
    }

    /** Chains the entry's `Create` under a fresh ticket; with no store there is nothing to chain. */
    method Create(e: Entry) returns (created: Entry)
      modifies `writes, `nextTicket
      ensures (Abs(), created) == QueueSpec.Created(old(Abs()), e)
    {
      if !cfg.hasStore { return e; }
      created := e.(chain := [QueueSpec.Create(nextTicket, QueueSpec.Record(e))]);
      writes := writes[nextTicket := e.id];
      nextTicket := nextTicket + 1;
    }

    method Enqueue(id: JobId, payload: Payload, lane: Option<Lane>, priority: int, now: int) returns (r: Submitted)
      modifies this
      ensures old(closed) ==> r == RefusedClosed && Abs() == old(Abs())
      ensures !old(closed) && id in old(known) ==> r == RefusedKnown && Abs() == old(Abs())
      ensures !old(closed) && id !in old(known) ==>
        r == Accepted && Abs() == QueueSpec.Enqueue(old(Abs()), NewJob(id, payload, lane, priority, now), now)
    {
      hide QueueSpec.Admit;
      if closed { return RefusedClosed; }
      if id in known { return RefusedKnown; }
      var e := Create(QueueSpec.NewEntry(cfg, NewJob(id, payload, lane, priority, now)));
      Admit(e, now);
      r := Accepted;
    }

    // ---- Store replies ----

    method PopWrite(id: JobId)
      modifies this
      ensures Abs() == QueueSpec.PopWrite(old(Abs()), id)
    {
      if id !in entries || entries[id].chain == [] { return; }
      var head := entries[id].chain[0];
      entries := entries[id := entries[id].(chain := entries[id].chain[1..])];
      if !head.Acquire? { writes := writes - {head.ticket}; }
    }

    method Withdraw(id: JobId, outcome: JobState, error: Option<string>)
      requires id in entries && !Terminal(entries[id].state) && Terminal(outcome)
      modifies this
      ensures Abs() == QueueSpec.Withdraw(old(Abs()), id, outcome, error)
    {
      queued := Without(queued, id);
      Settle(id, outcome, error);
    }

    method CreateReply(id: JobId, landed: bool, cause: string, now: int)
      requires id in entries
      modifies this
      ensures Abs() == QueueSpec.CreateAnswered(old(Abs()), id, landed, cause, now)
    {
      hide QueueSpec.Pump, QueueSpec.PopWrite, QueueSpec.Withdraw;
      if landed {
        entries := entries[id := entries[id].(durability := QueueSpec.Stored)];
      } else if Terminal(entries[id].state) {
        queued := Without(queued, id);
      } else {
        Withdraw(id, Failed, Some(cause));
      }
      PopWrite(id);
      Pump(now);
    }

    method Lose(id: JobId)
      modifies this
      ensures Abs() == QueueSpec.Lose(old(Abs()), id)
    {
      if id !in known || id !in entries || Terminal(entries[id].state) { return; }
      if entries[id].durability == QueueSpec.Lost { return; }
      var e := entries[id].(durability := QueueSpec.Lost, leaseLost := true);
      if e.state == Queued {
        entries := entries[id := e];
        Withdraw(id, Failed, Some(QueueSpec.LeaseLostMessage(id)));
      } else {
        entries := entries[id := e.(aborted := true)];
      }
    }

    method WriteReply(id: JobId, gone: bool)
      modifies this
      ensures Abs() == QueueSpec.WriteAnswered(old(Abs()), id, gone)
    {
      if gone { Lose(id); }
      PopWrite(id);
      CheckIdle();
    }

    method Release(id: JobId)
      modifies `starting, `active, `holder
      ensures Abs() == QueueSpec.Release(old(Abs()), id)
    {
      if id !in entries { return; }
      starting := starting - {id};
      active := active - {id};
      if entries[id].lane.Some? { holder := holder - {entries[id].lane.value}; }
    }

    method AcquireReply(id: JobId, reply: QueueSpec.Reply, now: int)
      requires id in entries
      modifies this
      ensures Abs() == QueueSpec.AcquireAnswered(old(Abs()), id, reply, now)
    {
      hide QueueSpec.Pump, QueueSpec.PopWrite, QueueSpec.Lose, QueueSpec.Release, QueueSpec.Begin;
      if reply == QueueSpec.LeaseGone { Lose(id); }
      PopWrite(id);
      Release(id);
      if id !in entries || Terminal(entries[id].state) {
        Pump(now);
        return;
      }
      if reply == QueueSpec.Answered {
        Begin(id, true);
        return;
      }
      var backoff := if cfg.heartbeatMs.Some? then cfg.heartbeatMs.value else 0;
      AskLater(id, now + backoff, now);
    }

    /** A job whose lane is held goes back in line, to ask again. */
    method AskLater(id: JobId, due: int, now: int)
      requires id in entries
      modifies this
      ensures Abs() == QueueSpec.Pump(
        old(Abs()).(entries := old(entries)[id := old(entries)[id].(dueAt := Some(due))], queued := old(queued) + [id]), now)
    {
      hide QueueSpec.Pump;
      entries := entries[id := entries[id].(dueAt := Some(due))];
      queued := queued + [id];
      Pump(now);
    }

    // ---- The handler's return ----

    method HandlerReturned(id: JobId, threw: bool, now: int)
      requires id in entries && !Terminal(entries[id].state)
      modifies this
      ensures Abs() == QueueSpec.HandlerReturned(old(Abs()), id, threw, now)
    {
      hide QueueSpec.Pump, QueueSpec.Persist, QueueSpec.Remember;
      Release(id);
      if entries[id].leaseLost {
        Settle(id, Failed, Some(QueueSpec.LeaseLostMessage(id)));
      } else if entries[id].cancelRequested {
        Settle(id, Cancelled, None);
      } else if !threw {
        Settle(id, Complete, None);
      } else {
        deciding := deciding[id := cfg.hasRetry && !closed];
        return;
      }
      Pump(now);
    }

    method Requeue(id: JobId, cause: string, delayMs: nat, now: int)
      requires id in entries
      modifies this
      ensures Abs() == QueueSpec.Again(old(Abs()), id, cause, delayMs, now)
    {
      entries := entries[id := entries[id].(
        state := Queued, error := Some(cause), notBefore := Some(now + delayMs), dueAt := Some(now + delayMs))];
      queued := queued + [id];
      Persist(id, true);
    }

    method PolicyReply(id: JobId, delayMs: Option<nat>, cause: string, now: int)
      requires id in entries && !Terminal(entries[id].state)
      modifies this
      ensures Abs() == QueueSpec.PolicyAnswered(old(Abs()), id, delayMs, cause, now)
    {
      hide QueueSpec.Pump, QueueSpec.Settle, QueueSpec.Again;
      var heard := if id in deciding && deciding[id] then delayMs else None;
      if entries[id].cancelRequested { Settle(id, Cancelled, None); }
      else if heard == None { Settle(id, Failed, Some(cause)); }
      else { Requeue(id, cause, heard.value, now); }
      deciding := deciding - {id};
      Pump(now);
    }

    // ---- Callers ----

    /** Answers whether there was an unfinished job of that id to cancel. */
    method Cancel(id: JobId, now: int) returns (did: bool)
      modifies this
      ensures Abs() == QueueSpec.Cancel(old(Abs()), id, now)
      ensures did <==> id in old(known) && id in old(entries) && !Terminal(old(entries)[id].state)
    {
      hide QueueSpec.Pump, QueueSpec.Withdraw;
      if id !in known || id !in entries || Terminal(entries[id].state) { return false; }
      if entries[id].state == Queued {
        Withdraw(id, Cancelled, None);
        Pump(now);
      } else {
        entries := entries[id := entries[id].(cancelRequested := true, aborted := true)];
      }
      did := true;
    }

    method Pause()
      modifies `paused
      ensures Abs() == old(Abs()).(paused := true)
    {
      paused := true;
    }

    method Resume(now: int) returns (ok: bool)
      modifies this
      ensures ok == !old(closed)
      ensures Abs() == if ok then QueueSpec.Resume(old(Abs()), now) else old(Abs())
    {
      hide QueueSpec.Pump;
      if closed { return false; }
      paused := false;
      Pump(now);
      ok := true;
    }

    /** True when there is nothing to wait for; otherwise the caller joins the waiters. */
    method Drain() returns (idle: bool)
      modifies `waiters
      ensures idle == QueueSpec.Idle(old(Abs()))
      ensures Abs() == QueueSpec.Drain(old(Abs()))
    {
      idle := queued == [] && starting == {} && active == {} && deciding == map[] && writes == map[];
      if !idle { waiters := waiters + 1; }
    }

    method CancelEach(ids: seq<JobId>, now: int)
      modifies this
      ensures Abs() == QueueSpec.CancelAll(old(Abs()), ids, now)
    {
      hide QueueSpec.Cancel;
      assert ids[0..] == ids;
      for i := 0 to |ids|
        invariant QueueSpec.CancelAll(Abs(), ids[i..], now) == QueueSpec.CancelAll(old(Abs()), ids, now)
      {
        assert ids[i..][1..] == ids[i + 1..];
        var did := Cancel(ids[i], now);
      }
      assert ids[|ids|..] == [];
    }

    /** Stop starting jobs, and drop the timers. */
    method Shut(now: int)
      modifies `closed, `paused, `wake, `beatArmed
      ensures Abs() == old(Abs()).(closed := true, paused := true, wake := None, beatArmed := false)
    {
      closed := true;
      paused := true;
      ScheduleWake(now);
      beatArmed := false;
    }

    /** Cancel what is queued, then what is asking for its lane, then what is running, in whatever order they joined. */
    method Close(startingOrder: seq<JobId>, activeOrder: seq<JobId>, now: int) returns (idle: bool)
      modifies this
      ensures Abs() == QueueSpec.Close(old(Abs()), startingOrder, activeOrder, now)
    {
      hide QueueSpec.CancelAll, QueueSpec.Drain;
      Shut(now);
      var snapshot := queued;
      CancelEach(snapshot, now);
      CancelEach(startingOrder, now);
      CancelEach(activeOrder, now);
      idle := Drain();
    }

    // ---- Timers ----

    method WakeFired(now: int)
      modifies this
      ensures Abs() == QueueSpec.Pump(old(Abs()).(wake := None), now)
    {
      hide QueueSpec.Pump;
      wake := None;
      Pump(now);
    }

    method BeatFired(now: int)
      modifies this
      ensures Abs() == QueueSpec.BeatFires(old(Abs()), now)
    {
      hide QueueSpec.Held, QueueSpec.ThenAdopt;
      beatArmed := false;
      var beat := nextBeat;
      nextBeat := nextBeat + 1;
      var ids := Held();
      assert ids == QueueSpec.Held(old(Abs())) by { HeldReads(old(Abs()), Abs()); }
      if cfg.heartbeatMs != None && ids != {} { beats := beats[beat := QueueSpec.Renewing(ids)]; }
      else { ThenAdopt(beat, now); }
    }

    /** Go on to ask for abandoned work, unless this queue should not take any. */
    method ThenAdopt(beat: nat, now: int)
      modifies this
      ensures Abs() == QueueSpec.ThenAdopt(old(Abs()), beat, now)
    {
      hide QueueSpec.Pump;
      if !cfg.canAdopt || cfg.heartbeatMs == None || paused || closed {
        beats := beats - {beat};
        Pump(now);
      } else {
        beats := beats[beat := QueueSpec.Adopting];
      }
    }

    method RenewReply(beat: nat, lost: seq<JobId>, now: int)
      modifies this
      ensures Abs() == QueueSpec.RenewAnswered(old(Abs()), beat, lost, now)
    {
      hide QueueSpec.Lose, QueueSpec.ThenAdopt;
      assert lost[0..] == lost;
      for i := 0 to |lost|
        invariant QueueSpec.LoseAll(Abs(), lost[i..]) == QueueSpec.LoseAll(old(Abs()), lost)
      {
        assert lost[i..][1..] == lost[i + 1..];
        Lose(lost[i]);
      }
      assert lost[|lost|..] == [];
      ThenAdopt(beat, now);
    }

    /** Admits a job the store handed over, if its id is not among `known`. One that `known` has dropped is not handed back. */
    method Restore(job: StoredJob, now: int)
      requires job.id in entries ==> job.id in known
      modifies this
      ensures Abs() == QueueSpec.Restore(old(Abs()), job, now)
      ensures known == old(known) + {job.id} || (known == old(known) && job.id in known)
      ensures entries.Keys == old(entries.Keys) + {job.id}
    {
      hide QueueSpec.Admit;
      if job.id in known && job.id in entries { return; }
      AdmitRemembers(Abs(), QueueSpec.Restored(cfg, job, now), now);
      Admit(QueueSpec.Restored(cfg, job, now), now);
    }

    method RestoreEach(jobs: seq<StoredJob>, now: int)
      requires forall k :: 0 <= k < |jobs| && jobs[k].id in entries ==> jobs[k].id in known
      modifies this
      ensures Abs() == QueueSpec.RestoreAll(old(Abs()), jobs, now)
    {
      hide QueueSpec.Restore;
      assert jobs[0..] == jobs;
      for i := 0 to |jobs|
        invariant forall k :: 0 <= k < |jobs| && jobs[k].id in entries ==> jobs[k].id in known
        invariant QueueSpec.RestoreAll(Abs(), jobs[i..], now) == QueueSpec.RestoreAll(old(Abs()), jobs, now)
      {
        assert jobs[i..][1..] == jobs[i + 1..];
        Restore(jobs[i], now);
      }
      assert jobs[|jobs|..] == [];
    }

    method AdoptReply(beat: nat, jobs: seq<StoredJob>, now: int)
      requires forall k :: 0 <= k < |jobs| && jobs[k].id in entries ==> jobs[k].id in known
      modifies this
      ensures Abs() == QueueSpec.AdoptAnswered(old(Abs()), beat, jobs, now)
    {
      hide QueueSpec.RestoreAll, QueueSpec.Pump;
      RestoreEach(jobs, now);
      beats := beats - {beat};
      Pump(now);
    }

    method RecoverReply(jobs: seq<StoredJob>, now: int)
      requires forall k :: 0 <= k < |jobs| && jobs[k].id in entries ==> jobs[k].id in known
      modifies this
      ensures Abs() == QueueSpec.RecoverAnswered(old(Abs()).(recovered := true), jobs, now)
    {
      hide QueueSpec.RestoreAll, QueueSpec.ScheduleBeat;
      recovered := true;
      RestoreEach(jobs, now);
      ScheduleHeartbeat();
    }

    /** A load that threw: it is not asked again, and nothing is arranged in its place. */
    method RecoverFailed()
      modifies this`recovered
      ensures Abs() == old(Abs()).(recovered := true)
    {
      recovered := true;
    }
  }

  datatype Submitted = Accepted | RefusedClosed | RefusedKnown

  function NewJob(id: JobId, payload: Payload, lane: Option<Lane>, priority: int, now: int): StoredJob {
    StoredJob(id, payload, lane, priority, Queued, 0, now, None, None)
  }

  lemma HeldReads(q: Queue, r: Queue)
    requires r.known == q.known && r.entries == q.entries
    ensures QueueSpec.Held(r) == QueueSpec.Held(q)
  {
  }

  /** Two queues that have met the same jobs. */
  ghost predicate MetAlike(q: Queue, r: Queue) {
    r.known == q.known && r.entries.Keys == q.entries.Keys
  }

  lemma LaunchRemembers(q: Queue, k: nat)
    requires k < |q.queued| && q.queued[k] in q.entries
    ensures MetAlike(q, QueueSpec.Launch(q, k)) && |QueueSpec.Launch(q, k).queued| < |q.queued|
  {
    hide QueueSpec.Begin, QueueSpec.ClaimOf;
    BeginRemembers(q.(queued := DropAt(q.queued, k)), q.queued[k]);
  }

  lemma BeginRemembers(q: Queue, id: JobId)
    requires id in q.entries
    ensures MetAlike(q, QueueSpec.Begin(q, id, false)) && QueueSpec.Begin(q, id, false).queued == q.queued
  {
    hide QueueSpec.Record;
  }

  lemma {:induction false} FillRemembers(q: Queue, now: int)
    ensures MetAlike(q, QueueSpec.Fill(q, now))
    decreases |q.queued|
  {
    hide QueueSpec.Launch;
    var best := QueueSpec.Best(q, now, |q.queued|);
    if QueueSpec.SlotFree(q) && best != -1 {
      LaunchRemembers(q, best);
      FillRemembers(QueueSpec.Launch(q, best), now);
    }
  }

  lemma AdmitRemembers(q: Queue, e: Entry, now: int)
    ensures
      var r := QueueSpec.Admit(q, e, now);
      r.known == q.known + {e.id} && r.entries.Keys == q.entries.Keys + {e.id}
  {
    hide QueueSpec.Pump;
    PumpRemembers(QueueSpec.AddQueued(q, e), now);
  }

  lemma PumpRemembers(q: Queue, now: int)
    ensures MetAlike(q, QueueSpec.Pump(q, now))
  {
    hide QueueSpec.Fill, QueueSpec.ScheduleWake, QueueSpec.ScheduleBeat, QueueSpec.CheckIdle;
    FillRemembers(q, now);
    var full := QueueSpec.Fill(q, now);
    TimersRemember(full, now);
    TimersRemember(QueueSpec.ScheduleWake(full, now), now);
    TimersRemember(QueueSpec.ScheduleBeat(QueueSpec.ScheduleWake(full, now)), now);
  }

  lemma TimersRemember(q: Queue, now: int)
    ensures MetAlike(q, QueueSpec.ScheduleWake(q, now))
    ensures MetAlike(q, QueueSpec.ScheduleBeat(q))
    ensures MetAlike(q, QueueSpec.CheckIdle(q))
  {
    hide QueueSpec.Held, QueueSpec.Idle, QueueSpec.Earliest;
  }
}
