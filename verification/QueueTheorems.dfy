/** What the invariant and the history amount to, for every queue any run can reach. */
module QueueTheorems {
  import opened Jobs
  import opened QueueSpec
  import opened QueueInvariant
  import opened QueueRuns
  import opened QueueHistory

  /** A queue some run reaches from a new one. */
  ghost function Reached(cfg: Config, paused: bool, evs: seq<Event>): Queue
  {
    Run(Fresh(cfg, paused), evs)
  }

  lemma ReachedInv(cfg: Config, paused: bool, evs: seq<Event>)
    requires ValidConfig(cfg)
    ensures Inv(Reached(cfg, paused, evs)) && Reached(cfg, paused, evs).cfg == cfg
  {
    hide Inv;
    FreshInv(cfg, paused);
    RunInv(Fresh(cfg, paused), evs);
    RunAges(Fresh(cfg, paused), evs);
  }

  // ---- Slots and lanes ----

  ghost predicate Busy(q: Queue, id: JobId) {
    id in q.entries && (id in q.starting || id in q.active)
  }

  lemma NotBoth(q: Queue, id: JobId)
    requires Inv(q)
    ensures !(id in q.active && id in q.starting)
  {
    hide Lanes, History, Records, Tickets, BeatsOk;
    if id in q.active { Here(q, id); }
  }

  /** In every reachable state the slots are not exceeded, no two busy jobs share a lane, and the busy lanes are theirs. */
  lemma SlotsAndLanes(cfg: Config, paused: bool, evs: seq<Event>, a: JobId, b: JobId, lane: Lane)
    requires ValidConfig(cfg)
    ensures
      var q := Reached(cfg, paused, evs);
      && |q.active| + |q.starting| <= cfg.concurrency && q.active !! q.starting
      && (Busy(q, a) && Busy(q, b) && a != b && q.entries[a].lane.Some? ==> q.entries[a].lane != q.entries[b].lane)
      && (lane in q.holder <==> exists id :: Busy(q, id) && q.entries[id].lane == Some(lane))
  {
    hide Inv, Reached;
    var q := Reached(cfg, paused, evs);
    ReachedInv(cfg, paused, evs);
    if exists x :: x in q.active && x in q.starting {
      var x :| x in q.active && x in q.starting;
      NotBoth(q, x);
    }
    SlotsHeld(q);
    LanesHeld(q, a, b, lane);
  }

  lemma SlotsHeld(q: Queue)
    requires Inv(q)
    ensures |q.active| + |q.starting| <= q.cfg.concurrency
  {
  }

  lemma LanesHeld(q: Queue, a: JobId, b: JobId, lane: Lane)
    requires Inv(q)
    ensures Busy(q, a) && Busy(q, b) && a != b && q.entries[a].lane.Some? ==> q.entries[a].lane != q.entries[b].lane
    ensures lane in q.holder <==> exists id :: Busy(q, id) && q.entries[id].lane == Some(lane)
  {
    hide History, Records, Tickets, BeatsOk, Places;
    if lane in q.holder { assert Busy(q, q.holder[lane]); }
  }

  /** Every job that has not ended is in exactly one place, and is remembered; the memory of ended ones is bounded. */
  lemma OnePlace(cfg: Config, paused: bool, evs: seq<Event>, id: JobId)
    requires ValidConfig(cfg)
    ensures
      var q := Reached(cfg, paused, evs);
      && |q.finished| <= cfg.historyLimit
      && (id in q.entries && !Terminal(q.entries[id].state) ==>
           && id in q.known
           && (id in q.queued || id in q.starting || id in q.active || id in q.deciding)
           && (id in q.queued ==> id !in q.starting && id !in q.active && id !in q.deciding)
           && (id in q.starting ==> id !in q.active && id !in q.deciding)
           && (id in q.active ==> id !in q.deciding))
      && (id in q.entries && Terminal(q.entries[id].state) ==>
           && id !in q.queued && id !in q.active && id !in q.deciding
           && (id in q.known <==> id in q.finished))
  {
    var q := Reached(cfg, paused, evs);
    ReachedInv(cfg, paused, evs);
    hide Reached, Records, Tickets, BeatsOk, Lanes;
  }

  lemma Counted(id: JobId, chain: seq<StoreOp>, writes: map<nat, JobId>)
    requires Tokened(id, chain, writes) && chain != [] && !chain[0].Acquire?
    ensures writes != map[]
  {
    assert chain[0].ticket in writes;
  }

  /** A queue that calls itself idle has settled every job it was given, and has no write left unanswered. */
  lemma IdleMeansWritten(cfg: Config, paused: bool, evs: seq<Event>, id: JobId)
    requires ValidConfig(cfg)
    ensures
      var q := Reached(cfg, paused, evs);
      Idle(q) && id in q.entries ==> Terminal(q.entries[id].state) && q.entries[id].chain == []
  {
    var q := Reached(cfg, paused, evs);
    ReachedInv(cfg, paused, evs);
    hide Reached;
    if Idle(q) && id in q.entries {
      Here(q, id);
      assert Tokened(id, q.entries[id].chain, q.writes);
      if q.entries[id].chain != [] { Counted(id, q.entries[id].chain, q.writes); }
    }
  }

  // ---- Ends ----

  /** Nothing settles twice: whatever happens after a job has ended, it stays as it ended. */
  lemma EndsOnce(cfg: Config, paused: bool, before: seq<Event>, after: seq<Event>, id: JobId)
    requires ValidConfig(cfg)
    ensures
      var q := Reached(cfg, paused, before);
      id in q.entries && Terminal(q.entries[id].state) ==>
        id in Run(q, after).entries && Run(q, after).entries[id].state == q.entries[id].state
  {
    hide Inv;
    ReachedInv(cfg, paused, before);
    RunAges(Reached(cfg, paused, before), after);
  }

  /**
   * A lost claim goes silent. Once a job is marked lost, nothing more is chained for it, it never completes,
   * the policy is not asked about it, a handler called for it later has an aborted signal, and that is called
   * at most once more, and not at all unless the job was in line or awaiting a retry decision when it was lost.
   */
  lemma LostGoesSilent(cfg: Config, paused: bool, before: seq<Event>, after: seq<Event>, id: JobId)
    requires ValidConfig(cfg)
    ensures
      var q, q' := Reached(cfg, paused, before), Run(Reached(cfg, paused, before), after);
      id in q.entries && q.entries[id].durability == Lost ==>
        && id in q'.entries
        && Rest(q.entries[id].chain, q'.entries[id].chain)
        && (q'.entries[id].state == Complete ==> q.entries[id].state == Complete)
        && (id in q'.deciding ==> id in q.deciding)
        && (!Terminal(q'.entries[id].state) ==> q'.entries[id].aborted)
        && q'.entries[id].attempt <= q.entries[id].attempt + (if id in q.deciding || q.entries[id].state == Queued then 1 else 0)
        && (id !in q.deciding && q.entries[id].state != Queued ==>
             && q'.entries[id].attempt == q.entries[id].attempt && id !in q'.deciding && q'.entries[id].state != Queued)
  {
    hide Inv, Reached, Run, Ages, Rest;
    var q := Reached(cfg, paused, before);
    ReachedInv(cfg, paused, before);
    RunInv(q, after);
    RunAges(q, after);
    if id in q.entries && q.entries[id].durability == Lost {
      SilentSince(q, Run(q, after), id);
      CalledSince(q, Run(q, after), id);
    }
  }

  lemma SilentSince(q: Queue, q': Queue, id: JobId)
    requires Inv(q') && Ages(q, q') && id in q.entries && q.entries[id].durability == Lost
    ensures
      && id in q'.entries && Rest(q.entries[id].chain, q'.entries[id].chain)
      && (q'.entries[id].state == Complete ==> q.entries[id].state == Complete)
      && (id in q'.deciding ==> id in q.deciding)
      && (!Terminal(q'.entries[id].state) ==> q'.entries[id].aborted)
  {
    hide Inv, Rest;
    Here(q', id);
  }

  lemma CalledSince(q: Queue, q': Queue, id: JobId)
    requires Ages(q, q') && id in q.entries && q.entries[id].durability == Lost
    ensures id in q'.entries && q.entries[id].attempt <= q'.entries[id].attempt && Left(q', id) <= Left(q, id)
  {
    hide Rest;
  }

  /**
   * A cancellation wins. From the moment a running job is asked to stop, its handler is not called again, it
   * does not go back in line whatever the retry policy says, and it ends as cancelled, or as failed if its
   * claim was lost.
   */
  lemma CancelWins(cfg: Config, paused: bool, before: seq<Event>, after: seq<Event>, id: JobId)
    requires ValidConfig(cfg)
    ensures
      var q, q' := Reached(cfg, paused, before), Run(Reached(cfg, paused, before), after);
      id in q.entries && q.entries[id].cancelRequested && !Terminal(q.entries[id].state) ==>
        && id in q'.entries && q'.entries[id].attempt == q.entries[id].attempt
        && (!Terminal(q'.entries[id].state) ==> q'.entries[id].state == Running && q'.entries[id].aborted)
        && (Terminal(q'.entries[id].state) ==>
             q'.entries[id].state == Cancelled || (q'.entries[id].state == Failed && q'.entries[id].leaseLost))
  {
    var q, q' := Reached(cfg, paused, before), Run(Reached(cfg, paused, before), after);
    ReachedInv(cfg, paused, before);
    RunInv(q, after);
    hide Inv, Reached, Run;
    RunAges(q, after);
    if id in q.entries && q.entries[id].cancelRequested && !Terminal(q.entries[id].state) {
      Here(q, id);
      Here(q', id);
    }
  }

  /** Retries end: under a backoff policy a job gets at most max(1, maxAttempts - born) handler calls here. */
  lemma RetriesEnd(cfg: Config, paused: bool, evs: seq<Event>, id: JobId)
    requires ValidConfig(cfg) && cfg.maxAttempts.Some?
    ensures
      var q := Reached(cfg, paused, evs);
      id in q.entries ==>
        var e := q.entries[id];
        0 <= e.attempt - e.born <= Max(1, cfg.maxAttempts.value - e.born)
  {
    var q := Reached(cfg, paused, evs);
    ReachedInv(cfg, paused, evs);
    hide Inv, Reached;
    if id in q.entries { Here(q, id); }
  }
}
