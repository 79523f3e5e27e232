/** How jobs come into the queue, in what order they wait, and what they bring with them. */
module QueueArrivals {
  import opened Jobs
  import opened Sequences
  import opened QueueSpec
  import opened QueueInvariant
  import opened QueueRuns
  import opened QueueService
  import opened QueueOutcomes

  // ---- The order of the line ----

  ghost predicate Before(line: seq<JobId>, x: JobId, y: JobId) {
    exists i, j :: 0 <= i < j < |line| && line[i] == x && line[j] == y
  }

  /** Of the jobs still in line, none has overtaken another. */
  ghost predicate KeepsOrder(before: seq<JobId>, after: seq<JobId>) {
    && (forall x :: x in after ==> x in before)
    && forall x, y :: x in after && y in after && Before(before, x, y) ==> Before(after, x, y)
  }

  lemma DropKeepsOrder(line: seq<JobId>, k: nat)
    requires k < |line| && NoDup(line)
    ensures KeepsOrder(line, DropAt(line, k))
  {
    hide NoDup, DropAt, Before;
    DropAtNoDup(line, k);
    forall x, y | x in DropAt(line, k) && y in DropAt(line, k) && Before(line, x, y) ensures Before(DropAt(line, k), x, y) {
      DropKeepsBefore(line, k, x, y);
    }
  }

  lemma DropKeepsBefore(line: seq<JobId>, k: nat, x: JobId, y: JobId)
    requires k < |line| && x != line[k] && y != line[k] && Before(line, x, y)
    ensures Before(DropAt(line, k), x, y)
  {
    var i, j :| 0 <= i < j < |line| && line[i] == x && line[j] == y;
    var after := DropAt(line, k);
    var m, n := if i < k then i else i - 1, if j < k then j else j - 1;
    assert after[m] == x && after[n] == y;
  }

  lemma OrderTrans(a: seq<JobId>, b: seq<JobId>, c: seq<JobId>)
    requires KeepsOrder(a, b) && KeepsOrder(b, c)
    ensures KeepsOrder(a, c)
  {
  }

  lemma {:induction false} FillKeepsOrder(q: Queue, now: int)
    requires NoDup(q.queued)
    ensures KeepsOrder(q.queued, Fill(q, now).queued)
    decreases |q.queued|
  {
    hide Launch, NoDup, KeepsOrder;
    var best := Best(q, now, |q.queued|);
    if SlotFree(q) && best != -1 {
      LaunchStarts(q, best);
      DropAtNoDup(q.queued, best);
      DropKeepsOrder(q.queued, best);
      FillKeepsOrder(Launch(q, best), now);
      OrderTrans(q.queued, Launch(q, best).queued, Fill(q, now).queued);
    } else { SameOrder(q.queued); }
  }

  lemma SameOrder(line: seq<JobId>)
    ensures KeepsOrder(line, line)
  {
  }

  /** Starting jobs takes them out of the line and moves no other: those left wait in the order they stood. */
  lemma PumpKeepsOrder(q: Queue, now: int)
    requires NoDup(q.queued)
    ensures KeepsOrder(q.queued, Pump(q, now).queued)
  {
    hide Fill, Pump, KeepsOrder;
    PumpShape(q, now);
    FillKeepsOrder(q, now);
  }

  lemma JoinedBehind(line: seq<JobId>, id: JobId, after: seq<JobId>)
    requires KeepsOrder(line + [id], after) && id in after
    ensures forall x :: x in line && x in after ==> Before(after, x, id)
  {
    forall x | x in line && x in after ensures Before(after, x, id) {
      var i :| 0 <= i < |line| && line[i] == x;
      var whole := line + [id];
      assert whole[i] == x && whole[|line|] == id;
    }
  }

  // ---- A job is submitted ----

  /** A job as it was submitted, before anything is done about it: new, and to be written down just so. */
  ghost predicate AsGiven(cfg: Config, ticket: nat, job: StoredJob, e: Entry) {
    var ok :=
      && e.id == job.id && e.payload == job.payload && e.lane == job.lane && e.priority == job.priority
      && e.enqueuedAt == job.enqueuedAt && e.state == Queued && e.attempt == 0 && e.born == 0
      && e.notBefore == None && e.dueAt == None && e.error == None && !e.cancelRequested && !e.leaseLost && !e.aborted
      && (if cfg.hasStore then e.durability == Pending && e.chain == [Create(ticket, job)] else e.durability == Unstored && e.chain == []);
    ok
  }

  lemma CreatedAsGiven(q: Queue, job: StoredJob)
    requires Newborn(job)
    ensures AsGiven(q.cfg, q.nextTicket, job, Created(q, NewEntry(q.cfg, job)).1)
    ensures Created(q, NewEntry(q.cfg, job)).0 == q.(writes := Created(q, NewEntry(q.cfg, job)).0.writes,
                                                     nextTicket := Created(q, NewEntry(q.cfg, job)).0.nextTicket)
  {
  }

  /**
   * A job submitted to an open queue is there with what it was submitted with, behind every job in line before it,
   * and with its first write chained if there is a store; until that is answered it is not begun on.
   */
  lemma EntersAsGiven(q: Queue, job: StoredJob, now: int)
    requires Inv(q) && Enabled(q, Enqueued(job, now))
    ensures
      var r := Apply(q, Enqueued(job, now));
      exists e ::
        && AsGiven(q.cfg, q.nextTicket, job, e) && (InLine(r, job.id, e) || Began(r, job.id, e))
        && (q.cfg.hasStore ==> InLine(r, job.id, e))
        && (InLine(r, job.id, e) ==> forall x :: x in q.queued && x in r.queued ==> Before(r.queued, x, job.id))
  {
    hide Inv, Pump, NoDup, InLine, Began, AsGiven, Before, KeepsOrder, Created, NewEntry;
    NotHereYet(q, job.id);
    LineOk(q);
    AppendNoDup(q.queued, job.id);
    CreatedAsGiven(q, job);
    var (q1, e) := Created(q, NewEntry(q.cfg, job));
    var line := AddQueued(q1, e);
    GivenPending(q, job, e);
    JoinsLine(q1.(known := q1.known + {job.id}), job.id, e);
    PumpEither(line, now, job.id, e);
    PumpKeepsOrder(line, now);
    var r := Pump(line, now);
    assert r == Apply(q, Enqueued(job, now));
    if InLine(r, job.id, e) {
      StandsThere(r, job.id, e);
      JoinedBehind(q.queued, job.id, r.queued);
    }
  }

  lemma StandsThere(q: Queue, id: JobId, e: Entry)
    requires InLine(q, id, e)
    ensures id in q.queued
  {
  }

  lemma GivenPending(q: Queue, job: StoredJob, e: Entry)
    requires AsGiven(q.cfg, q.nextTicket, job, e)
    ensures e.id == job.id && (q.cfg.hasStore ==> e.durability == Pending)
  {
  }

  // ---- A batch of stored jobs ----

  lemma StillEither(q: Queue, now: int, id: JobId, e: Entry)
    requires NoDup(q.queued) && (InLine(q, id, e) || Began(q, id, e))
    ensures InLine(Pump(q, now), id, e) || Began(Pump(q, now), id, e)
  {
    hide Fill, Pump, NoDup;
    PumpShape(q, now);
    FillEither(q, now, id, e);
  }

  lemma AnotherJoins(q: Queue, x: Entry, id: JobId, e: Entry)
    requires x.id != id && (InLine(q, id, e) || Began(q, id, e))
    ensures InLine(AddQueued(q, x), id, e) || Began(AddQueued(q, x), id, e)
  {
  }

  /** Restoring another job leaves one that came before it where it was, or begins on it. */
  lemma RestoreLeaves(q: Queue, job: StoredJob, now: int, id: JobId, e: Entry)
    requires Inv(q) && id in q.entries && (InLine(q, id, e) || Began(q, id, e))
    ensures id in Restore(q, job, now).entries
    ensures InLine(Restore(q, job, now), id, e) || Began(Restore(q, job, now), id, e)
  {
    hide Inv, Pump, NoDup, InLine, Began;
    if job.id !in q.entries {
      NotHereYet(q, job.id);
      LineOk(q);
      AppendNoDup(q.queued, job.id);
      var x := Restored(q.cfg, job, now);
      AnotherJoins(q, x, id, e);
      StillEither(AddQueued(q, x), now, id, e);
    }
    EitherThere(Restore(q, job, now), id, e);
  }

  lemma EitherThere(q: Queue, id: JobId, e: Entry)
    requires InLine(q, id, e) || Began(q, id, e)
    ensures id in q.entries
  {
  }

  lemma {:induction false} BatchLeaves(q: Queue, jobs: seq<StoredJob>, now: int, id: JobId, e: Entry)
    requires Inv(q) && q.cfg.hasStore && id in q.entries && (InLine(q, id, e) || Began(q, id, e))
    ensures InLine(RestoreAll(q, jobs, now), id, e) || Began(RestoreAll(q, jobs, now), id, e)
    decreases |jobs|
  {
    hide Inv, Restore, InLine, Began;
    if jobs != [] {
      RestoreInv(q, jobs[0], now);
      RestoreLeaves(q, jobs[0], now, id, e);
      BatchLeaves(Restore(q, jobs[0], now), jobs[1..], now, id, e);
    }
  }

  /** Nothing but the job restored is new. */
  lemma RestoreAdds(q: Queue, job: StoredJob, now: int, id: JobId)
    requires Inv(q) && id !in q.entries && id != job.id
    ensures id !in Restore(q, job, now).entries
  {
    hide Inv, Pump;
    if job.id !in q.entries {
      var line := AddQueued(q, Restored(q.cfg, job, now));
      LineOk(q);
      PumpAdds(line, now, id);
    }
  }

  lemma {:induction false} FillAdds(q: Queue, now: int, id: JobId)
    requires id !in q.entries
    ensures id !in Fill(q, now).entries
    decreases |q.queued|
  {
    hide Launch;
    var best := Best(q, now, |q.queued|);
    if SlotFree(q) && best != -1 {
      LaunchAdds(q, best, id);
      LaunchSwitches(q, best);
      FillAdds(Launch(q, best), now, id);
    }
  }

  lemma LaunchAdds(q: Queue, k: nat, id: JobId)
    requires k < |q.queued| && q.queued[k] in q.entries && id !in q.entries
    ensures id !in Launch(q, k).entries
  {
    hide Record, ClaimOf;
  }

  lemma PumpAdds(q: Queue, now: int, id: JobId)
    requires id !in q.entries
    ensures id !in Pump(q, now).entries
  {
    hide Fill, Pump;
    PumpShape(q, now);
    FillAdds(q, now, id);
  }

  ghost predicate Arrived(q: Queue, cfg: Config, job: StoredJob, now: int) {
    exists e :: AsLeft(cfg, job, e, now) && (InLine(q, job.id, e) || Began(q, job.id, e))
  }

  lemma {:induction false} BatchArrives(q: Queue, jobs: seq<StoredJob>, now: int, k: nat)
    requires Inv(q) && q.cfg.hasStore && k < |jobs| && jobs[k].id !in q.entries
    requires forall j :: 0 <= j < k ==> jobs[j].id != jobs[k].id
    ensures Arrived(RestoreAll(q, jobs, now), q.cfg, jobs[k], now)
    decreases |jobs|
  {
    hide Inv, Restore, InLine, Began, AsLeft;
    var q1 := Restore(q, jobs[0], now);
    RestoreInv(q, jobs[0], now);
    if k == 0 {
      UnknownYet(q, jobs[0].id);
      RestoresAsLeft(q, jobs[0], now);
      var e :| AsLeft(q.cfg, jobs[0], e, now) && (InLine(q1, jobs[0].id, e) || Began(q1, jobs[0].id, e));
      EitherThere(q1, jobs[0].id, e);
      BatchLeaves(q1, jobs[1..], now, jobs[0].id, e);
    } else {
      assert jobs[1..][k - 1] == jobs[k] && jobs[0].id != jobs[k].id;
      RestoreAdds(q, jobs[0], now, jobs[k].id);
      assert forall j :: 0 <= j < k - 1 ==> jobs[1..][j] == jobs[j + 1];
      BatchArrives(q1, jobs[1..], now, k - 1);
    }
  }

  lemma UnknownYet(q: Queue, id: JobId)
    requires Inv(q) && id !in q.entries
    ensures id !in q.known
  {
    hide Places, Lanes, Records, Tickets, BeatsOk;
  }

  /** Every job the store hands over that is new here, at adoption or at recovery, is in line as it was left, or begun on. */
  lemma EachArrives(q: Queue, ev: Event, jobs: seq<StoredJob>, now: int, k: nat)
    requires Inv(q) && Enabled(q, ev) && k < |jobs| && jobs[k].id !in q.entries
    requires (ev.AdoptReply? && ev.jobs == jobs && ev.now == now) || (ev.RecoverReply? && ev.jobs == jobs && ev.now == now)
    requires forall j :: 0 <= j < k ==> jobs[j].id != jobs[k].id
    ensures Arrived(Apply(q, ev), q.cfg, jobs[k], now)
  {
    hide Inv, Restore, RestoreAll, InLine, Began, AsLeft, Pump, ScheduleBeat;
    if ev.AdoptReply? {
      BatchArrives(q, jobs, now, k);
      RestoreAllInv(q, jobs, now);
      var took := RestoreAll(q, jobs, now);
      var e :| AsLeft(q.cfg, jobs[k], e, now) && (InLine(took, jobs[k].id, e) || Began(took, jobs[k].id, e));
      var freed := took.(beats := took.beats - {ev.beat});
      EitherAlike(took, freed, jobs[k].id, e);
      LineOk(took);
      StillEither(freed, now, jobs[k].id, e);
    } else {
      var q1 := q.(recovered := true);
      SwitchInv(q, q.beatArmed, q.wake, q.waiters, q.paused, q.closed, true, q.nextBeat);
      BatchArrives(q1, jobs, now, k);
      var took := RestoreAll(q1, jobs, now);
      var e :| AsLeft(q.cfg, jobs[k], e, now) && (InLine(took, jobs[k].id, e) || Began(took, jobs[k].id, e));
      BeatShape(took);
      EitherAlike(took, ScheduleBeat(took), jobs[k].id, e);
    }
  }

  lemma EitherAlike(q: Queue, r: Queue, id: JobId, e: Entry)
    requires InLine(q, id, e) || Began(q, id, e)
    requires r.queued == q.queued && r.entries == q.entries && r.active == q.active && r.starting == q.starting
    ensures InLine(r, id, e) || Began(r, id, e)
  {
  }

  // ---- There and back ----

  /**
   * A job written down in line and handed over later comes back as itself: the same payload, priority, age, attempts
   * and error, waiting out the same moment, in the lane its payload now gives it.
   */
  lemma ComesBack(cfg: Config, e: Entry, now: int)
    requires e.state == Queued
    ensures
      var back := Restored(cfg, Record(e), now);
      && back.id == e.id && back.payload == e.payload && back.priority == e.priority && back.enqueuedAt == e.enqueuedAt
      && back.attempt == e.attempt && back.error == e.error && back.notBefore == e.notBefore && back.state == e.state
      && back.lane == cfg.reviveLane(e.payload, e.lane) && back.durability == Stored
      && (e.notBefore == None <==> back.dueAt == None) && (e.notBefore.Some? ==> back.dueAt == Some(Max(now, e.notBefore.value)))
  {
  }
}
