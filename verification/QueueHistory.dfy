/** How a job changes across any section, and so across any run: nothing un-happens. */
module QueueHistory {
  import opened Jobs
  import opened Sequences
  import opened QueueSpec
  import opened QueueInvariant
  import opened QueueRuns

  /** `b` is what is left of `a` once some of its front has gone. */
  ghost predicate Rest(a: seq<StoreOp>, b: seq<StoreOp>) {
    |b| <= |a| && b == a[|a| - |b|..]
  }

  /** A job someone stopped is not called again, and ends as cancelled, unless its claim was lost first. */
  predicate Stopped(e: Entry, e': Entry) {
    && e'.cancelRequested && e'.attempt == e.attempt
    && (e.state == Running && !Terminal(e'.state) ==> e'.state == Running)
    && (!Terminal(e.state) && Terminal(e'.state) ==> e'.state == Cancelled || (e'.state == Failed && e'.leaseLost))
  }

  /**
   * A job that has ended stays as it ended; its attempts never go down; its claim, once lost, stays lost,
   * nothing more is written for it, and it does not complete; its signal, once aborted, stays aborted.
   */
  ghost predicate Evolves(e: Entry, e': Entry) {
    var ok :=
      && e'.id == e.id && e'.lane == e.lane && e'.priority == e.priority && e'.payload == e.payload
      && e'.enqueuedAt == e.enqueuedAt && e'.born == e.born
      && (Terminal(e.state) ==> e'.state == e.state)
      && e.attempt <= e'.attempt
      && (e.aborted ==> e'.aborted) && (e.leaseLost ==> e'.leaseLost)
      && (e.cancelRequested ==> Stopped(e, e'))
      && (e.durability != Pending ==> e'.durability != Pending)
      && (e.durability == Lost ==>
           && e'.durability == Lost
           && Rest(e.chain, e'.chain)
           && (e'.state == Complete ==> e.state == Complete));
    ok
  }

  /** The handler calls a lost job has had, and the one it may still have if it is in line or being decided. */
  function Left(q: Queue, id: JobId): nat
    requires id in q.entries
  {
    q.entries[id].attempt + if q.entries[id].state == Queued || id in q.deciding then 1 else 0
  }

  /**
   * A job that holds its lane under a claim: running, or lost and not yet over. Nothing is written for it
   * while the lane is shared.
   */
  predicate Sails(cfg: Config, e: Entry) {
    Shared(cfg) && !Terminal(e.state) && e.lane.Some? && (e.state == Running || e.durability == Lost)
  }

  /** No write leaves its chain, and it does not set sail. */
  ghost predicate Follows(cfg: Config, e: Entry, e': Entry) {
    var ok := e.chain <= e'.chain && (Sails(cfg, e') ==> Sails(cfg, e));
    ok
  }

  /** The same of a job whose write was `answered`, which leaves its chain, or whose lane was `granted`. */
  ghost predicate FollowsBut(cfg: Config, e: Entry, e': Entry, answered: bool, granted: bool) {
    var ok := (answered || e.chain <= e'.chain) && (granted || (Sails(cfg, e') ==> Sails(cfg, e)));
    ok
  }

  /** What a section that hears replies for the jobs in `replied`, some of them granting a lane, does to every job. */
  ghost predicate Grows(q: Queue, q': Queue, replied: map<JobId, bool>) {
    var ok :=
      && Ages(q, q')
      && (forall id :: id in q.entries && id in q'.entries ==>
           FollowsBut(q.cfg, q.entries[id], q'.entries[id], id in replied, id in replied && replied[id]))
      && (forall id :: id in q'.entries && id !in q.entries && id !in replied ==> !Sails(q.cfg, q'.entries[id]));
    ok
  }

  ghost predicate Ages(q: Queue, q': Queue) {
    var ok :=
      && q'.cfg == q.cfg
      && (q.closed ==> q'.closed)
      && (forall id :: id in q.entries ==> id in q'.entries && Evolves(q.entries[id], q'.entries[id]))
      && (forall id :: id in q.entries && q.entries[id].durability == Lost && id in q'.deciding ==> id in q.deciding)
      && (forall id :: id in q.entries && q.entries[id].durability == Lost && id in q'.entries ==> Left(q', id) <= Left(q, id));
    ok
  }

  lemma EvolvesSelf(e: Entry)
    ensures Evolves(e, e)
  {
  }

  lemma RestTrans(a: seq<StoreOp>, b: seq<StoreOp>, c: seq<StoreOp>)
    requires Rest(a, b) && Rest(b, c)
    ensures Rest(a, c)
  {
    assert a[|a| - |b|..][|b| - |c|..] == a[|a| - |c|..];
  }

  lemma EvolvesTrans(a: Entry, b: Entry, c: Entry)
    requires Evolves(a, b) && Evolves(b, c)
    ensures Evolves(a, c)
  {
    if a.durability == Lost { RestTrans(a.chain, b.chain, c.chain); }
  }

  lemma AgesTrans(a: Queue, b: Queue, c: Queue)
    requires Ages(a, b) && Ages(b, c)
    ensures Ages(a, c)
  {
    hide Evolves;
    forall id | id in a.entries ensures id in c.entries && Evolves(a.entries[id], c.entries[id]) {
      EvolvesTrans(a.entries[id], b.entries[id], c.entries[id]);
    }
    forall id | id in a.entries && a.entries[id].durability == Lost && id in c.deciding ensures id in a.deciding {
      StaysLost(a.entries[id], b.entries[id]);
    }
    forall id | id in a.entries && a.entries[id].durability == Lost ensures Left(c, id) <= Left(a, id) {
      StaysLost(a.entries[id], b.entries[id]);
    }
  }

  lemma FollowsTrans(cfg: Config, a: Entry, b: Entry, c: Entry, answered: bool, granted: bool)
    requires FollowsBut(cfg, a, b, answered, granted) && FollowsBut(cfg, b, c, answered, granted)
    ensures FollowsBut(cfg, a, c, answered, granted)
  {
  }

  lemma FollowsSails(cfg: Config, e: Entry, e': Entry, answered: bool)
    requires FollowsBut(cfg, e, e', answered, false)
    ensures Sails(cfg, e') ==> Sails(cfg, e)
  {
  }

  lemma FollowsMore(cfg: Config, e: Entry, e': Entry, answered: bool, granted: bool)
    requires Follows(cfg, e, e')
    ensures FollowsBut(cfg, e, e', answered, granted)
  {
  }

  lemma GrowsTrans(a: Queue, b: Queue, c: Queue, replied: map<JobId, bool>)
    requires Grows(a, b, replied) && Grows(b, c, replied)
    ensures Grows(a, c, replied)
  {
    hide Ages, FollowsBut, Sails;
    AgesTrans(a, b, c);
    AgesFrame(a, b);
    AgesFrame(b, c);
    forall id | id in a.entries && id in c.entries
      ensures FollowsBut(a.cfg, a.entries[id], c.entries[id], id in replied, id in replied && replied[id]) {
      FollowsTrans(a.cfg, a.entries[id], b.entries[id], c.entries[id], id in replied, id in replied && replied[id]);
    }
    forall id | id in c.entries && id !in a.entries && id !in replied ensures !Sails(a.cfg, c.entries[id]) {
      if id in b.entries { FollowsSails(a.cfg, b.entries[id], c.entries[id], false); }
    }
  }

  lemma AgesFrame(q: Queue, q': Queue)
    requires Ages(q, q')
    ensures q'.cfg == q.cfg && forall id :: id in q.entries ==> id in q'.entries
  {
  }

  lemma StaysLost(e: Entry, e': Entry)
    requires Evolves(e, e') && e.durability == Lost
    ensures e'.durability == Lost
  {
  }

  /** A step that changes one entry, or makes one. */
  lemma GrowsOne(q: Queue, q': Queue, id: JobId, e: Entry, replied: map<JobId, bool>)
    requires q'.cfg == q.cfg && (q.closed ==> q'.closed)
    requires q'.entries == q.entries[id := e]
    requires id in q.entries ==> Evolves(q.entries[id], e)
    requires if id in q.entries
      then Follows(q.cfg, q.entries[id], e) || FollowsBut(q.cfg, q.entries[id], e, id in replied, id in replied && replied[id])
      else id in replied || !Sails(q.cfg, e)
    requires forall x :: x in q'.deciding ==> x in q.deciding || (x == id && (x in q.entries ==> q.entries[x].durability != Lost))
    requires id in q.entries && q.entries[id].durability == Lost ==> Left(q', id) <= Left(q, id)
    ensures Grows(q, q', replied)
  {
    hide Evolves, Follows, FollowsBut, Sails;
    forall x | x in q.entries ensures x in q'.entries && Evolves(q.entries[x], q'.entries[x]) {
      if x != id { EvolvesSelf(q.entries[x]); }
    }
    forall x | x in q.entries ensures FollowsBut(q.cfg, q.entries[x], q'.entries[x], x in replied, x in replied && replied[x]) {
      if x != id { FollowsSelf(q.cfg, q.entries[x]); }
      if Follows(q.cfg, q.entries[x], q'.entries[x]) {
        FollowsMore(q.cfg, q.entries[x], q'.entries[x], x in replied, x in replied && replied[x]);
      }
    }
  }

  lemma FollowsSelf(cfg: Config, e: Entry)
    ensures Follows(cfg, e, e)
  {
  }

  /** A step that changes no entry. */
  lemma GrowsNone(q: Queue, q': Queue, replied: map<JobId, bool>)
    requires q'.cfg == q.cfg && (q.closed ==> q'.closed) && q'.entries == q.entries
    requires forall x :: x in q'.deciding ==> x in q.deciding
    ensures Grows(q, q', replied)
  {
    hide Evolves, Follows, FollowsBut, Sails;
    forall x | x in q.entries
      ensures Evolves(q.entries[x], q'.entries[x])
      ensures FollowsBut(q.cfg, q.entries[x], q'.entries[x], x in replied, x in replied && replied[x]) {
      EvolvesSelf(q.entries[x]);
      FollowsSelf(q.cfg, q.entries[x]);
      FollowsMore(q.cfg, q.entries[x], q'.entries[x], x in replied, x in replied && replied[x]);
    }
  }

  // ---- The changes an entry goes through ----

  lemma OverEvolves(cfg: Config, e: Entry, outcome: JobState, error: Option<string>, ticket: nat)
    requires !Terminal(e.state) && Terminal(outcome) && (outcome == Complete ==> e.durability != Lost)
    requires e.cancelRequested ==> outcome == Cancelled || (outcome == Failed && e.leaseLost)
    ensures
      var e' := Written(Over(e, outcome, error), ticket, false);
      Evolves(e, e') && Follows(cfg, e, e')
  {
  }

  /** A job starts its handler. Unless it is sailing already, or has no shared lane, it has to have been granted one. */
  lemma GoingEvolves(cfg: Config, e: Entry, ticket: nat)
    requires !Terminal(e.state) && !e.cancelRequested
    ensures Evolves(e, Written(Going(e), ticket, true)) && Evolves(e, Going(e))
    ensures FollowsBut(cfg, e, Going(e), true, true)
    ensures Sails(cfg, e) || e.lane == None || !Shared(cfg) ==> Follows(cfg, e, Written(Going(e), ticket, true))
  {
  }

  lemma WaitsEvolves(cfg: Config, e: Entry, cause: string, delayMs: nat, now: int, ticket: nat)
    requires !Terminal(e.state) && !e.cancelRequested
    ensures
      var e' := Written(Waits(e, cause, delayMs, now), ticket, true);
      Evolves(e, e') && Follows(cfg, e, e')
  {
  }

  lemma AskedEvolves(cfg: Config, e: Entry)
    requires e.durability == Stored
    ensures
      var e' := e.(chain := e.chain + [Acquire(ClaimOf(e))]);
      Evolves(e, e') && Follows(cfg, e, e')
  {
  }

  lemma PoppedEvolves(cfg: Config, e: Entry, granted: bool)
    requires e.chain != []
    ensures Evolves(e, e.(chain := e.chain[1..])) && FollowsBut(cfg, e, e.(chain := e.chain[1..]), true, granted)
  {
  }

  // ---- Pumping ----

  lemma NotEnded(q: Queue, id: JobId)
    requires Inv(q) && id in q.entries && id in q.queued
    ensures q.entries[id].state == Queued && q.entries[id].id == id && !q.entries[id].cancelRequested && id !in q.deciding
  {
    Here(q, id);
  }

  lemma BeginGrows(q: Queue, id: JobId, claimed: bool, replied: map<JobId, bool>)
    requires id in q.entries && q.entries[id].id == id && q.entries[id].state == Queued && !q.entries[id].cancelRequested
    requires id !in q.deciding
    requires if claimed then id in replied && replied[id]
             else Sails(q.cfg, q.entries[id]) || q.entries[id].lane == None || !Shared(q.cfg)
    ensures Grows(q, Begin(q, id, claimed), replied)
  {
    hide Evolves, Follows, FollowsBut, Written, Begin, Grows;
    var e := q.entries[id];
    assert q.entries[id := e] == q.entries;
    assert q.(entries := q.entries[id := e]) == q;
    BeginShape(q, e, claimed);
    GoingEvolves(q.cfg, e, q.nextTicket);
    GrowsOne(q, Begin(q, id, claimed), id, if claimed then Going(e) else Written(Going(e), q.nextTicket, true), replied);
  }

  lemma AskGrows(q: Queue, id: JobId, replied: map<JobId, bool>)
    requires id in q.entries && q.entries[id].lane.Some? && q.entries[id].durability == Stored
    ensures Grows(q, Ask(q, id), replied)
  {
    hide Evolves, Follows, Grows;
    AskedEvolves(q.cfg, q.entries[id]);
    GrowsOne(q, Ask(q, id), id, q.entries[id].(chain := q.entries[id].chain + [Acquire(ClaimOf(q.entries[id]))]), replied);
  }

  /** A job that starts without asking for its lane has none to ask for, or has already lost its claim. */
  lemma StartsFree(q: Queue, id: JobId, now: int)
    requires Inv(q) && Eligible(q, now, id) && !SharesLanes(q.cfg, q.entries[id]) && q.entries[id].state == Queued
    ensures Sails(q.cfg, q.entries[id]) || q.entries[id].lane == None || !Shared(q.cfg)
  {
    Here(q, id);
  }

  lemma LaunchGrows(q: Queue, k: nat, now: int, replied: map<JobId, bool>)
    requires Inv(q) && k < |q.queued| && Eligible(q, now, q.queued[k])
    ensures Grows(q, Launch(q, k), replied)
  {
    hide Inv, Evolves, Follows, Begin, Ask, Grows, DropAt;
    var id := q.queued[k];
    var taken := q.(queued := DropAt(q.queued, k));
    NotEnded(q, id);
    GrowsNone(q, taken, replied);
    if SharesLanes(q.cfg, q.entries[id]) { AskGrows(taken, id, replied); }
    else {
      StartsFree(q, id, now);
      BeginGrows(taken, id, false, replied);
    }
    GrowsTrans(q, taken, Launch(q, k), replied);
  }

  lemma {:induction false} FillGrows(q: Queue, now: int, replied: map<JobId, bool>)
    requires Inv(q)
    ensures Grows(q, Fill(q, now), replied)
    decreases |q.queued|
  {
    hide Inv, Grows;
    var best := Best(q, now, |q.queued|);
    if SlotFree(q) && best != -1 {
      LaunchGrows(q, best, now, replied);
      LaunchInv(q, best, now);
      FillGrows(Launch(q, best), now, replied);
      GrowsTrans(q, Launch(q, best), Fill(q, now), replied);
    } else {
      GrowsNone(q, q, replied);
    }
  }

  lemma PumpGrows(q: Queue, now: int, replied: map<JobId, bool>)
    requires Inv(q)
    ensures Grows(q, Pump(q, now), replied)
  {
    hide Inv, Grows, Fill;
    FillGrows(q, now, replied);
    GrowsNone(Fill(q, now), Pump(q, now), replied);
    GrowsTrans(q, Fill(q, now), Pump(q, now), replied);
  }

  /** A section that changes `q` to `mid`, and pumps. */
  lemma ThenPumpGrows(q: Queue, mid: Queue, now: int, replied: map<JobId, bool>)
    requires Grows(q, mid, replied) && Inv(mid)
    ensures Grows(q, Pump(mid, now), replied)
  {
    hide Inv, Grows, Pump;
    PumpGrows(mid, now, replied);
    GrowsTrans(q, mid, Pump(mid, now), replied);
  }

  // ---- Settling ----

  lemma SettleGrows(q: Queue, id: JobId, outcome: JobState, error: Option<string>, replied: map<JobId, bool>)
    requires id in q.entries && q.entries[id].id == id && !Terminal(q.entries[id].state) && Terminal(outcome)
    requires outcome == Complete ==> q.entries[id].durability != Lost
    requires q.entries[id].cancelRequested ==> outcome == Cancelled || (outcome == Failed && q.entries[id].leaseLost)
    ensures Grows(q, Settle(q, id, outcome, error), replied)
  {
    hide Evolves, Follows, Grows, Written, Settle;
    SettleEntries(q, id, outcome, error);
    OverEvolves(q.cfg, q.entries[id], outcome, error, q.nextTicket);
    SettleDeciding(q, id, outcome, error);
    GrowsOne(q, Settle(q, id, outcome, error), id, Written(Over(q.entries[id], outcome, error), q.nextTicket, false), replied);
  }

  lemma SettleDeciding(q: Queue, id: JobId, outcome: JobState, error: Option<string>)
    requires id in q.entries && !Terminal(q.entries[id].state) && Terminal(outcome)
    ensures
      var r := Settle(q, id, outcome, error);
      r.deciding == q.deciding && r.closed == q.closed && r.queued == q.queued && r.active == q.active
      && r.starting == q.starting && r.beats == q.beats && r.paused == q.paused && r.waiters == q.waiters
  {
  }

  lemma WithdrawGrows(q: Queue, id: JobId, outcome: JobState, error: Option<string>, replied: map<JobId, bool>)
    requires id in q.entries && q.entries[id].id == id && !Terminal(q.entries[id].state) && Terminal(outcome)
    requires outcome != Complete && !q.entries[id].cancelRequested
    ensures Grows(q, Withdraw(q, id, outcome, error), replied)
  {
    hide Grows, Settle;
    var q1 := q.(queued := Without(q.queued, id));
    GrowsNone(q, q1, replied);
    SettleGrows(q1, id, outcome, error, replied);
    GrowsTrans(q, q1, Settle(q1, id, outcome, error), replied);
  }

  lemma PopGrows(q: Queue, id: JobId, replied: map<JobId, bool>)
    requires id in replied
    ensures Grows(q, PopWrite(q, id), replied)
  {
    hide Grows, Evolves, Follows, FollowsBut;
    if id in q.entries && q.entries[id].chain != [] {
      PoppedEvolves(q.cfg, q.entries[id], replied[id]);
      GrowsOne(q, PopWrite(q, id), id, q.entries[id].(chain := q.entries[id].chain[1..]), replied);
    } else { GrowsNone(q, q, replied); }
  }

  lemma MarkLostGrows(q: Queue, id: JobId, replied: map<JobId, bool>)
    requires id in q.entries && q.entries[id].id == id && !Terminal(q.entries[id].state) && q.entries[id].durability == Stored
    ensures Grows(q, MarkLost(q, id, q.entries[id].(durability := Lost, leaseLost := true)), replied)
  {
    hide Grows, Evolves, Follows, Withdraw;
    var e := q.entries[id].(durability := Lost, leaseLost := true);
    LostEvolves(q.cfg, q.entries[id]);
    if e.state == Queued {
      WithdrawLostEntry(q, e);
      GrowsOne(q, MarkLost(q, id, e), id, Over(e, Failed, Some(LeaseLostMessage(id))), replied);
    } else {
      GrowsOne(q, MarkLost(q, id, e), id, e.(aborted := true), replied);
    }
  }

  lemma WithdrawLostEntry(q: Queue, e: Entry)
    requires e.durability == Lost && !Terminal(e.state)
    ensures
      var r := Withdraw(q.(entries := q.entries[e.id := e]), e.id, Failed, Some(LeaseLostMessage(e.id)));
      && r.entries == q.entries[e.id := Over(e, Failed, Some(LeaseLostMessage(e.id)))]
      && r.deciding == q.deciding && r.closed == q.closed && r.cfg == q.cfg
  {
    hide Settle, Without;
    var q1 := q.(entries := q.entries[e.id := e], queued := Without(q.queued, e.id));
    SettleEntries(q1, e.id, Failed, Some(LeaseLostMessage(e.id)));
    SettleDeciding(q1, e.id, Failed, Some(LeaseLostMessage(e.id)));
    Overwritten(q.entries, e.id, e, Over(e, Failed, Some(LeaseLostMessage(e.id))));
  }

  lemma LoseGrows(q: Queue, id: JobId, replied: map<JobId, bool>)
    requires Inv(q)
    requires id in q.entries && !Terminal(q.entries[id].state) ==> q.entries[id].durability == Stored || q.entries[id].durability == Lost
    ensures Grows(q, Lose(q, id), replied)
  {
    hide Inv, Grows, MarkLost;
    if id in q.known && id in q.entries && !Terminal(q.entries[id].state) && q.entries[id].durability != Lost {
      IdOf(q, id);
      MarkLostGrows(q, id, replied);
    } else { GrowsNone(q, q, replied); }
  }

  lemma LostEvolves(cfg: Config, e: Entry)
    requires e.durability == Stored && !Terminal(e.state)
    ensures
      var lost := e.(durability := Lost, leaseLost := true);
      var over := Over(lost, Failed, Some(LeaseLostMessage(e.id)));
      && Evolves(e, over) && Follows(cfg, e, over)
      && (e.state == Running ==> Evolves(e, lost.(aborted := true)) && Follows(cfg, e, lost.(aborted := true)))
  {
  }

  lemma {:induction false} LoseAllGrows(q: Queue, ids: seq<JobId>, replied: map<JobId, bool>)
    requires Inv(q) && Accepted(q, ids)
    ensures Grows(q, LoseAll(q, ids), replied)
    decreases |ids|
  {
    hide Inv, Lose, Grows;
    if ids == [] { GrowsNone(q, q, replied); }
    else {
      assert ids[0] in ids;
      assert forall id :: id in ids[1..] ==> id in ids;
      LoseInv(q, ids[0]);
      LoseKeepsAccepted(q, ids[0], ids);
      LoseGrows(q, ids[0], replied);
      LoseAllGrows(Lose(q, ids[0]), ids[1..], replied);
      GrowsTrans(q, Lose(q, ids[0]), LoseAll(q, ids), replied);
    }
  }

  lemma CancelGrows(q: Queue, id: JobId, now: int, replied: map<JobId, bool>)
    requires Inv(q)
    ensures Grows(q, Cancel(q, id, now), replied)
  {
    hide Inv, Grows, Evolves, Follows, Withdraw, Pump;
    if id in q.known && id in q.entries && !Terminal(q.entries[id].state) {
      Here(q, id);
      if q.entries[id].state == Queued {
        WithdrawQueuedInv(q, id, Cancelled, None);
        WithdrawGrows(q, id, Cancelled, None, replied);
        ThenPumpGrows(q, Withdraw(q, id, Cancelled, None), now, replied);
      } else {
        SignalEvolves(q.cfg, q.entries[id]);
        GrowsOne(q, Cancel(q, id, now), id, q.entries[id].(cancelRequested := true, aborted := true), replied);
      }
    } else { GrowsNone(q, q, replied); }
  }

  lemma SignalEvolves(cfg: Config, e: Entry)
    ensures Evolves(e, e.(cancelRequested := true, aborted := true))
    ensures Follows(cfg, e, e.(cancelRequested := true, aborted := true))
  {
  }

  lemma {:induction false} CancelAllGrows(q: Queue, ids: seq<JobId>, now: int, replied: map<JobId, bool>)
    requires Inv(q)
    ensures Grows(q, CancelAll(q, ids, now), replied)
    decreases |ids|
  {
    hide Inv, Cancel, Grows;
    if ids == [] { GrowsNone(q, q, replied); }
    else {
      CancelInv(q, ids[0], now);
      CancelGrows(q, ids[0], now, replied);
      CancelAllGrows(Cancel(q, ids[0], now), ids[1..], now, replied);
      GrowsTrans(q, Cancel(q, ids[0], now), CancelAll(q, ids, now), replied);
    }
  }

  // ---- Every section ----

  lemma AddQueuedGrows(q: Queue, e: Entry, replied: map<JobId, bool>)
    requires e.id !in q.entries && !Sails(q.cfg, e)
    ensures Grows(q, AddQueued(q, e), replied)
  {
    hide Grows, Evolves;
    GrowsOne(q, AddQueued(q, e), e.id, e, replied);
  }

  lemma EnqueueGrows(q: Queue, job: StoredJob, now: int, replied: map<JobId, bool>)
    requires Inv(q) && job.id !in q.entries
    ensures Grows(q, Enqueue(q, job, now), replied)
  {
    hide Inv, Grows, Pump, AddQueued, Created;
    var (q', e) := Created(q, NewEntry(q.cfg, job));
    CreatedQueue(q, NewEntry(q.cfg, job));
    GrowsNone(q, q', replied);
    AddQueuedGrows(q', e, replied);
    GrowsTrans(q, q', AddQueued(q', e), replied);
    CreateInv(q, job);
    ThenPumpGrows(q, AddQueued(q', e), now, replied);
  }

  lemma CreatedQueue(q: Queue, e: Entry)
    ensures
      var (q', e') := Created(q, e);
      q' == q.(writes := q'.writes, nextTicket := q'.nextTicket) && e' == e.(chain := e'.chain)
  {
  }

  lemma RestoreGrows(q: Queue, job: StoredJob, now: int, replied: map<JobId, bool>)
    requires Inv(q) && q.cfg.hasStore
    ensures Grows(q, Restore(q, job, now), replied)
  {
    hide Inv, Grows, Pump, AddQueued;
    if job.id in q.entries { GrowsNone(q, q, replied); }
    else {
      var e := Restored(q.cfg, job, now);
      AddQueuedInv(q, e);
      AddQueuedGrows(q, e, replied);
      ThenPumpGrows(q, AddQueued(q, e), now, replied);
    }
  }

  lemma {:induction false} RestoreAllGrows(q: Queue, jobs: seq<StoredJob>, now: int, replied: map<JobId, bool>)
    requires Inv(q) && q.cfg.hasStore
    ensures Grows(q, RestoreAll(q, jobs, now), replied)
    decreases |jobs|
  {
    hide Inv, Restore, Grows;
    if jobs == [] { GrowsNone(q, q, replied); }
    else {
      RestoreInv(q, jobs[0], now);
      RestoreGrows(q, jobs[0], now, replied);
      RestoreAllGrows(Restore(q, jobs[0], now), jobs[1..], now, replied);
      GrowsTrans(q, Restore(q, jobs[0], now), RestoreAll(q, jobs, now), replied);
    }
  }

  lemma CreateAnsweredGrows(q: Queue, id: JobId, landed: bool, cause: string, now: int, replied: map<JobId, bool>)
    requires Inv(q) && Awaits(q, id, true, false) && id in replied
    ensures Grows(q, CreateAnswered(q, id, landed, cause, now), replied)
  {
    hide Inv, Pump, PopWrite, Withdraw, EntryOk, Grows, Evolves, Follows;
    CreatingPlace(q, id);
    CreatingPending(q, id);
    IdOf(q, id);
    var e := q.entries[id];
    if landed {
      var told := q.(entries := q.entries[id := e.(durability := Stored)]);
      LandedEvolves(q.cfg, e);
      GrowsOne(q, told, id, e.(durability := Stored), replied);
      PopGrows(told, id, replied);
      GrowsTrans(q, told, PopWrite(told, id), replied);
      LandedInv(q, id);
      ThenPumpGrows(q, PopWrite(told, id), now, replied);
    } else if Terminal(e.state) {
      NotInLine(q, id);
      PopGrows(q, id, replied);
      PopInv(q, id);
      ThenPumpGrows(q, PopWrite(q, id), now, replied);
    } else {
      var told := Withdraw(q, id, Failed, Some(cause));
      WithdrawGrows(q, id, Failed, Some(cause), replied);
      PopGrows(told, id, replied);
      GrowsTrans(q, told, PopWrite(told, id), replied);
      WithdrawQueuedInv(q, id, Failed, Some(cause));
      WithdrawnHead(q, id, Failed, Some(cause));
      PopInv(told, id);
      ThenPumpGrows(q, PopWrite(told, id), now, replied);
    }
  }

  lemma CreatingPending(q: Queue, id: JobId)
    requires Inv(q) && Awaits(q, id, true, false)
    ensures q.entries[id].durability == Pending
    ensures !Terminal(q.entries[id].state) ==> !q.entries[id].cancelRequested
  {
    Here(q, id);
  }

  lemma LandedEvolves(cfg: Config, e: Entry)
    requires e.durability == Pending
    ensures Evolves(e, e.(durability := Stored)) && Follows(cfg, e, e.(durability := Stored))
  {
  }

  lemma WriteAnsweredGrows(q: Queue, id: JobId, gone: bool, replied: map<JobId, bool>)
    requires Inv(q) && Awaits(q, id, false, false) && id in replied
    ensures Grows(q, WriteAnswered(q, id, gone), replied)
  {
    hide Inv, PopWrite, Lose, Grows;
    var told := if gone then Lose(q, id) else q;
    WritingOk(q, id);
    if gone { LoseGrows(q, id, replied); } else { GrowsNone(q, q, replied); }
    PopGrows(told, id, replied);
    GrowsTrans(q, told, PopWrite(told, id), replied);
    GrowsNone(PopWrite(told, id), WriteAnswered(q, id, gone), replied);
    GrowsTrans(q, PopWrite(told, id), WriteAnswered(q, id, gone), replied);
  }

  predicate SameJob(a: Entry, b: Entry) {
    a.id == b.id && a.state == b.state && a.cancelRequested == b.cancelRequested
  }

  lemma FreedGrows(q: Queue, id: JobId, replied: map<JobId, bool>)
    requires id in replied
    ensures
      var told := Release(PopWrite(q, id), id);
      && Grows(q, told, replied)
      && (id in q.entries ==> id in told.entries && SameJob(told.entries[id], q.entries[id]))
  {
    hide Grows, PopWrite;
    PopGrows(q, id, replied);
    var popped := PopWrite(q, id);
    GrowsNone(popped, Release(popped, id), replied);
    GrowsTrans(q, popped, Release(popped, id), replied);
    PopKeeps(q, id);
  }

  lemma PopKeeps(q: Queue, id: JobId)
    ensures id in q.entries ==> id in PopWrite(q, id).entries && SameJob(PopWrite(q, id).entries[id], q.entries[id])
  {
  }

  lemma AcquireAnsweredGrows(q: Queue, id: JobId, reply: Reply, now: int, replied: map<JobId, bool>)
    requires Inv(q) && Awaits(q, id, false, true) && id in replied && (reply == Answered ==> replied[id])
    ensures Grows(q, AcquireAnswered(q, id, reply, now), replied)
  {
    hide Inv, PopWrite, Release, Pump, Lose, Begin, Grows, Evolves;
    AskingPlace(q, id);
    IdOf(q, id);
    WritingOk(q, id);
    var asked := if reply == LeaseGone then Lose(q, id) else q;
    if reply == LeaseGone { LoseGrows(q, id, replied); LoseInv(q, id); LoseHead(q, id); } else { GrowsNone(q, q, replied); }
    if reply == LeaseGone || Terminal(q.entries[id].state) {
      if Terminal(q.entries[id].state) { LoseTerminal(q, id); }
      GoneGrows(q, asked, id, now, replied);
    } else {
      AnswerGrows(q, id, reply, now, replied);
    }
  }

  lemma GoneGrows(q: Queue, asked: Queue, id: JobId, now: int, replied: map<JobId, bool>)
    requires Inv(asked) && Grows(q, asked, replied)
    requires id in replied && id in asked.starting && Awaits(asked, id, false, true) && Terminal(asked.entries[id].state)
    ensures
      var told := Release(PopWrite(asked, id), id);
      Grows(q, Pump(told, now), replied) && id in told.entries && Terminal(told.entries[id].state)
  {
    hide Inv, PopWrite, Release, Pump, Grows;
    var told := Release(PopWrite(asked, id), id);
    FreedGrows(asked, id, replied);
    GrowsTrans(q, asked, told, replied);
    AnsweredSame(asked, id);
    ThenPumpGrows(q, told, now, replied);
  }

  lemma AnswerGrows(q: Queue, id: JobId, reply: Reply, now: int, replied: map<JobId, bool>)
    requires Inv(q) && Awaits(q, id, false, true) && !Terminal(q.entries[id].state) && id in replied
    requires reply == Answered ==> replied[id]
    ensures reply != LeaseGone ==> Grows(q, AcquireAnswered(q, id, reply, now), replied)
  {
    hide Inv, PopWrite, Release, Pump, Begin, Grows, Evolves;
    FreedGrows(q, id, replied);
    if reply == Answered { GrantedGrows(q, id, replied); }
    BackInLineGrows(q, id, now + if q.cfg.heartbeatMs.Some? then q.cfg.heartbeatMs.value else 0, now, replied);
  }

  lemma AskingNotStopped(q: Queue, id: JobId)
    requires Inv(q) && id in q.entries && q.entries[id].state == Queued
    ensures !q.entries[id].cancelRequested && id !in q.deciding
  {
    Here(q, id);
  }

  lemma PopDeciding(q: Queue, id: JobId)
    ensures PopWrite(q, id).deciding == q.deciding
  {
  }

  lemma GrantedGrows(q: Queue, id: JobId, replied: map<JobId, bool>)
    requires Inv(q) && Awaits(q, id, false, true) && !Terminal(q.entries[id].state) && id in replied && replied[id]
    ensures
      var told := Release(PopWrite(q, id), id);
      id in told.entries && Grows(q, Begin(told, id, true), replied)
  {
    hide Inv, PopWrite, Release, Begin, Grows, Evolves;
    AskingPlace(q, id);
    IdOf(q, id);
    var told := Release(PopWrite(q, id), id);
    FreedGrows(q, id, replied);
    AskingNotStopped(q, id);
    ReleaseDeciding(PopWrite(q, id), id);
    PopDeciding(q, id);
    BeginGrows(told, id, true, replied);
    GrowsTrans(q, told, Begin(told, id, true), replied);
  }

  lemma BackInLineGrows(q: Queue, id: JobId, due: int, now: int, replied: map<JobId, bool>)
    requires Inv(q) && Awaits(q, id, false, true) && !Terminal(q.entries[id].state) && id in replied
    ensures
      var told := Release(PopWrite(q, id), id);
      && id in told.entries
      && Grows(q, Pump(told.(entries := told.entries[id := told.entries[id].(dueAt := Some(due))],
                             queued := told.queued + [id]), now), replied)
  {
    hide Inv, PopWrite, Release, Pump, Grows, Evolves;
    AskingPlace(q, id);
    var told := Release(PopWrite(q, id), id);
    FreedGrows(q, id, replied);
    DelayGrows(told, id, due, replied);
    BackInLineInv(q, id, due);
    var back := told.(entries := told.entries[id := told.entries[id].(dueAt := Some(due))], queued := told.queued + [id]);
    GrowsTrans(q, told, back, replied);
    ThenPumpGrows(q, back, now, replied);
  }

  lemma DelayGrows(q: Queue, id: JobId, due: int, replied: map<JobId, bool>)
    requires id in q.entries && q.entries[id].state == Queued
    ensures Grows(q, q.(entries := q.entries[id := q.entries[id].(dueAt := Some(due))], queued := q.queued + [id]), replied)
  {
    hide Grows, Evolves, Follows;
    DelayedEvolves(q.cfg, q.entries[id], Some(due));
    GrowsOne(q, q.(entries := q.entries[id := q.entries[id].(dueAt := Some(due))], queued := q.queued + [id]),
             id, q.entries[id].(dueAt := Some(due)), replied);
  }

  lemma DelayedEvolves(cfg: Config, e: Entry, due: Option<int>)
    ensures Evolves(e, e.(dueAt := due)) && Follows(cfg, e, e.(dueAt := due))
  {
  }

  lemma BackInLineInv(q: Queue, id: JobId, due: int)
    requires Inv(q) && id in q.starting && Awaits(q, id, false, true) && !Terminal(q.entries[id].state)
    ensures
      var told := Release(PopWrite(q, id), id);
      && id in told.entries
      && Inv(told.(entries := told.entries[id := told.entries[id].(dueAt := Some(due))], queued := told.queued + [id]))
  {
    hide Inv, PopWrite, Release;
    AnsweredInv(q, id, Some(due), q.queued + [id]);
    AnsweredShape(q, id);
    var e := q.entries[id];
    Overwritten(q.entries, id, e.(chain := e.chain[1..]), e.(chain := e.chain[1..], dueAt := Some(due)));
  }

  lemma HandlerReturnedGrows(q: Queue, id: JobId, threw: bool, now: int, replied: map<JobId, bool>)
    requires Inv(q) && id in q.active && id in q.entries && q.entries[id].state == Running
    ensures Grows(q, HandlerReturned(q, id, threw, now), replied)
  {
    hide Inv, Release, Pump, Settle, Grows, Evolves, Follows;
    Here(q, id);
    var freed := Release(q, id);
    ReleaseDeciding(q, id);
    GrowsNone(q, freed, replied);
    match Outcome(q.entries[id], threw)
    case Some(outcome) =>
      var ended := Settle(freed, id, outcome, Some(LeaseLostMessage(id)));
      SettleGrows(freed, id, outcome, Some(LeaseLostMessage(id)), replied);
      GrowsTrans(q, freed, ended, replied);
      FinishInv(q, id, outcome, Some(LeaseLostMessage(id)));
      ThenPumpGrows(q, ended, now, replied);
    case None =>
      EvolvesSelf(q.entries[id]);
      FollowsSelf(q.cfg, q.entries[id]);
      assert q.entries[id := q.entries[id]] == q.entries;
      GrowsOne(q, HandlerReturned(q, id, threw, now), id, q.entries[id], replied);
  }

  lemma ReleaseDeciding(q: Queue, id: JobId)
    ensures Release(q, id).deciding == q.deciding && Release(q, id).closed == q.closed
  {
  }

  lemma PolicyAnsweredGrows(q: Queue, id: JobId, delayMs: Option<nat>, cause: string, now: int, replied: map<JobId, bool>)
    requires Inv(q) && id in q.deciding && id in q.entries && q.entries[id].state == Running
    requires delayMs.Some? ==> Allowed(q, id)
    ensures Grows(q, PolicyAnswered(q, id, delayMs, cause, now), replied)
  {
    hide Inv, Pump, Settle, Again, Grows;
    IdOf(q, id);
    var heard := Heard(q, id, delayMs);
    if q.entries[id].cancelRequested {
      SettleGrows(q, id, Cancelled, None, replied);
      GiveUpInv(q, id, Cancelled, None);
      ThenForgets(q, Settle(q, id, Cancelled, None), id, now, replied);
    } else if heard == None {
      SettleGrows(q, id, Failed, Some(cause), replied);
      GiveUpInv(q, id, Failed, Some(cause));
      ThenForgets(q, Settle(q, id, Failed, Some(cause)), id, now, replied);
    } else {
      AgainGrows(q, id, cause, heard.value, now, replied);
      AgainInv(q, id, cause, heard.value, now);
      ThenForgets(q, Again(q, id, cause, heard.value, now), id, now, replied);
    }
  }

  lemma ThenForgets(q: Queue, decided: Queue, id: JobId, now: int, replied: map<JobId, bool>)
    requires Grows(q, decided, replied) && Inv(decided.(deciding := decided.deciding - {id}))
    ensures Grows(q, Pump(decided.(deciding := decided.deciding - {id}), now), replied)
  {
    hide Inv, Grows, Pump;
    var r := decided.(deciding := decided.deciding - {id});
    GrowsNone(decided, r, replied);
    GrowsTrans(q, decided, r, replied);
    ThenPumpGrows(q, r, now, replied);
  }

  lemma AgainGrows(q: Queue, id: JobId, cause: string, delayMs: nat, now: int, replied: map<JobId, bool>)
    requires id in q.entries && q.entries[id].id == id && !Terminal(q.entries[id].state) && id in q.deciding
    requires !q.entries[id].cancelRequested
    ensures Grows(q, Again(q, id, cause, delayMs, now), replied)
  {
    hide Evolves, Follows, Grows, Persist, Written;
    var waits := Waits(q.entries[id], cause, delayMs, now);
    var q1 := q.(queued := q.queued + [id]);
    PersistShape(q1, waits, true);
    assert Again(q, id, cause, delayMs, now) == Persist(q1.(entries := q1.entries[id := waits]), id, true);
    WaitsEvolves(q.cfg, q.entries[id], cause, delayMs, now, q.nextTicket);
    GrowsOne(q, Again(q, id, cause, delayMs, now), id, Written(waits, q.nextTicket, true), replied);
  }

  lemma CloseGrows(q: Queue, starting: seq<JobId>, active: seq<JobId>, now: int, replied: map<JobId, bool>)
    requires Inv(q)
    ensures Grows(q, Close(q, starting, active, now), replied)
    ensures Close(q, starting, active, now).closed
  {
    hide Inv, CancelAll;
    var q1 := q.(closed := true, paused := true, wake := None, beatArmed := false);
    SwitchInv(q, false, None, q.waiters, true, true, q.recovered, q.nextBeat);
    GrowsNone(q, q1, replied);
    var q2 := CancelAll(q1, q.queued, now);
    CancelAllInv(q1, q.queued, now);
    CancelAllGrows(q1, q.queued, now, replied);
    var q3 := CancelAll(q2, starting, now);
    CancelAllInv(q2, starting, now);
    CancelAllGrows(q2, starting, now, replied);
    var q4 := CancelAll(q3, active, now);
    CancelAllGrows(q3, active, now, replied);
    GrowsNone(q4, Drain(q4), replied);
    ChainGrows([q, q1, q2, q3, q4, Drain(q4)], replied);
  }

  lemma {:induction false} ChainGrows(qs: seq<Queue>, replied: map<JobId, bool>)
    requires |qs| > 0 && forall k :: 0 < k < |qs| ==> Grows(qs[k - 1], qs[k], replied)
    ensures Grows(qs[0], qs[|qs| - 1], replied)
    ensures qs[0].closed ==> qs[|qs| - 1].closed
    decreases |qs|
  {
    hide Ages, Follows, Sails;
    if |qs| == 1 { GrowsNone(qs[0], qs[0], replied); }
    else {
      ChainGrows(qs[..|qs| - 1], replied);
      GrowsTrans(qs[0], qs[|qs| - 2], qs[|qs| - 1], replied);
    }
    StaysClosed(qs[0], qs[|qs| - 1], replied);
  }

  lemma StaysClosed(q: Queue, q': Queue, replied: map<JobId, bool>)
    requires Grows(q, q', replied)
    ensures q.closed ==> q'.closed
  {
    hide Evolves, Follows, Sails;
  }

  lemma ThenAdoptGrows(q: Queue, beat: nat, now: int, replied: map<JobId, bool>)
    requires Inv(q)
    ensures Grows(q, ThenAdopt(q, beat, now), replied)
  {
    hide Inv, Pump, Grows;
    GrowsNone(q, q.(beats := q.beats[beat := Adopting]), replied);
    GrowsNone(q, q.(beats := q.beats - {beat}), replied);
    BeatsDropped(q, beat);
    BeatInv(q, q.beats - {beat});
    ThenPumpGrows(q, q.(beats := q.beats - {beat}), now, replied);
  }

  lemma BeatFiresGrows(q: Queue, now: int, replied: map<JobId, bool>)
    requires Inv(q)
    ensures Grows(q, BeatFires(q, now), replied)
  {
    hide Inv, ThenAdopt, Held, Grows;
    var fired := q.(beatArmed := false, nextBeat := q.nextBeat + 1);
    SwitchInv(q, false, q.wake, q.waiters, q.paused, q.closed, q.recovered, q.nextBeat + 1);
    GrowsNone(q, fired, replied);
    GrowsNone(q, fired.(beats := q.beats[q.nextBeat := Renewing(Held(q))]), replied);
    ThenAdoptGrows(fired, q.nextBeat, now, replied);
    GrowsTrans(q, fired, ThenAdopt(fired, q.nextBeat, now), replied);
  }

  lemma RenewAnsweredGrows(q: Queue, beat: nat, lost: seq<JobId>, now: int, replied: map<JobId, bool>)
    requires Inv(q) && Enabled(q, RenewReply(beat, lost, now))
    ensures Grows(q, RenewAnswered(q, beat, lost, now), replied)
  {
    hide Inv, LoseAll, ThenAdopt, Grows;
    RenewedAccepted(q, beat, lost);
    LoseAllInv(q, lost);
    LoseAllGrows(q, lost, replied);
    ThenAdoptGrows(LoseAll(q, lost), beat, now, replied);
    GrowsTrans(q, LoseAll(q, lost), RenewAnswered(q, beat, lost, now), replied);
  }

  lemma AdoptAnsweredGrows(q: Queue, beat: nat, jobs: seq<StoredJob>, now: int, replied: map<JobId, bool>)
    requires Inv(q) && q.cfg.hasStore
    ensures Grows(q, AdoptAnswered(q, beat, jobs, now), replied)
  {
    hide Inv, RestoreAll, Pump, Grows;
    var took := RestoreAll(q, jobs, now);
    RestoreAllInv(q, jobs, now);
    RestoreAllGrows(q, jobs, now, replied);
    BeatsDropped(took, beat);
    BeatInv(took, took.beats - {beat});
    GrowsNone(took, took.(beats := took.beats - {beat}), replied);
    GrowsTrans(q, took, took.(beats := took.beats - {beat}), replied);
    ThenPumpGrows(q, took.(beats := took.beats - {beat}), now, replied);
  }

  lemma RecoverGrows(q: Queue, jobs: seq<StoredJob>, now: int, replied: map<JobId, bool>)
    requires Inv(q) && q.cfg.hasStore
    ensures Grows(q, RecoverAnswered(q.(recovered := true), jobs, now), replied)
  {
    hide Inv, RestoreAll, Held, Grows;
    var q1 := q.(recovered := true);
    SwitchInv(q, q.beatArmed, q.wake, q.waiters, q.paused, q.closed, true, q.nextBeat);
    GrowsNone(q, q1, replied);
    RestoreAllGrows(q1, jobs, now, replied);
    var q2 := RestoreAll(q1, jobs, now);
    GrowsNone(q2, ScheduleBeat(q2), replied);
    ChainGrows([q, q1, q2, ScheduleBeat(q2)], replied);
  }

  lemma SwitchGrows(q: Queue, ev: Event, replied: map<JobId, bool>)
    requires Inv(q) && Enabled(q, ev)
    requires ev.Paused? || ev.Resumed? || ev.WakeFired? || ev.DrainAsked? || ev.RecoverFailed?
    ensures Grows(q, Apply(q, ev), replied)
  {
    hide Inv, Pump, Grows;
    match ev {
      case Paused => GrowsNone(q, q.(paused := true), replied);
      case RecoverFailed => GrowsNone(q, q.(recovered := true), replied);
      case Resumed(now) =>
        SwitchInv(q, q.beatArmed, q.wake, q.waiters, false, q.closed, q.recovered, q.nextBeat);
        GrowsNone(q, q.(paused := false), replied);
        ThenPumpGrows(q, q.(paused := false), now, replied);
      case WakeFired(now) =>
        SwitchInv(q, q.beatArmed, None, q.waiters, q.paused, q.closed, q.recovered, q.nextBeat);
        GrowsNone(q, q.(wake := None), replied);
        ThenPumpGrows(q, q.(wake := None), now, replied);
      case DrainAsked => GrowsNone(q, Drain(q), replied);
    }
  }

  /** The job whose store write a section hears the reply to, and whether that grants it its lane. */
  function Replied(ev: Event): map<JobId, bool> {
    match ev
    case CreateReply(id, _, _, _) => map[id := false]
    case WriteReply(id, _) => map[id := false]
    case AcquireReply(id, reply, _) => map[id := reply == Answered]
    case _ => map[]
  }

  /** Every section moves every job forward, or leaves it. */
  lemma StepGrows(q: Queue, ev: Event)
    requires Inv(q)
    ensures Grows(q, Step(q, ev), Replied(ev))
  {
    hide Inv, Grows, Enqueue, CreateAnswered, WriteAnswered, AcquireAnswered, HandlerReturned, PolicyAnswered, Cancel, Close,
         BeatFires, RenewAnswered, AdoptAnswered, Pump, RestoreAll, ScheduleBeat, Drain, Resume, RecoverAnswered;
    var replied := Replied(ev);
    if Enabled(q, ev) {
      match ev
      case Enqueued(job, now) => EnqueueGrows(q, job, now, replied);
      case CreateReply(id, landed, cause, now) => CreateAnsweredGrows(q, id, landed, cause, now, replied);
      case WriteReply(id, gone) => WriteAnsweredGrows(q, id, gone, replied);
      case AcquireReply(id, reply, now) => AcquireAnsweredGrows(q, id, reply, now, replied);
      case HandlerDone(id, threw, now) => HandlerReturnedGrows(q, id, threw, now, replied);
      case PolicyReply(id, delayMs, cause, now) => PolicyAnsweredGrows(q, id, delayMs, cause, now, replied);
      case CancelAsked(id, now) => CancelGrows(q, id, now, replied);
      case Closed(starting, active, now) => CloseGrows(q, starting, active, now, replied);
      case BeatFired(now) => BeatFiresGrows(q, now, replied);
      case RenewReply(beat, lost, now) => RenewAnsweredGrows(q, beat, lost, now, replied);
      case AdoptReply(beat, jobs, now) => AdoptAnsweredGrows(q, beat, jobs, now, replied);
      case RecoverReply(jobs, now) => RecoverGrows(q, jobs, now, replied);
      case _ => SwitchGrows(q, ev, replied);
    } else { GrowsNone(q, q, replied); }
  }

  lemma GrowsAges(q: Queue, q': Queue, replied: map<JobId, bool>)
    requires Grows(q, q', replied)
    ensures Ages(q, q')
  {
    hide Ages, Follows, Sails;
  }

  lemma AgesSelf(q: Queue)
    ensures Ages(q, q)
  {
    hide Grows;
    GrowsNone(q, q, map[]);
    GrowsAges(q, q, map[]);
  }

  /**
   * What a run may do to a job, for every job and every run: a job that has ended stays ended, its attempts
   * never go down, and a lost claim is never regained, written under, completed, or put to the policy again.
   */
  lemma {:induction false} RunAges(q: Queue, evs: seq<Event>)
    requires Inv(q)
    ensures Ages(q, Run(q, evs))
    decreases |evs|
  {
    hide Inv, Step, Ages, Grows;
    if evs == [] { AgesSelf(q); }
    else {
      StepInv(q, evs[0]);
      StepGrows(q, evs[0]);
      GrowsAges(q, Step(q, evs[0]), Replied(evs[0]));
      RunAges(Step(q, evs[0]), evs[1..]);
      AgesTrans(q, Step(q, evs[0]), Run(q, evs));
    }
  }
}
