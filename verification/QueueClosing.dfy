/** What a close does to every job at once, and how those it signals end. */
module QueueClosing {
  import opened Jobs
  import opened Sequences
  import opened QueueSpec
  import opened QueueInvariant
  import opened QueueRuns
  import opened QueueTheorems
  import opened QueueService
  import opened QueueOutcomes

  // ---- Cancelling a list of jobs, on a closed queue ----

  /** What becomes of a job when a list is cancelled that may name it. */
  ghost predicate Fate(before: Entry, after: Entry, named: bool) {
    var ok :=
      if !named || Terminal(before.state) then after == before
      else if before.state == Queued then
        Ended(before, after, Cancelled, "") && after == before.(state := Cancelled, chain := after.chain)
      else after == before.(cancelRequested := true, aborted := true);
    ok
  }

  /** Every job met its fate, those named are out of the line, and nothing else about any place, lane or beat changed. */
  ghost predicate Swept(q: Queue, r: Queue, ids: set<JobId>) {
    var ok :=
      && r.cfg == q.cfg && r.starting == q.starting && r.active == q.active && r.deciding == q.deciding && r.holder == q.holder
      && r.beats == q.beats && r.closed == q.closed && r.paused == q.paused && r.beatArmed == q.beatArmed && r.recovered == q.recovered
      && (q.wake == None ==> r.wake == None)
      && (forall x :: x in r.queued <==> x in q.queued && x !in ids)
      && (forall x :: x in r.entries <==> x in q.entries)
      && (forall x :: x in q.entries ==> Fate(q.entries[x], r.entries[x], x in ids));
    ok
  }

  ghost predicate AllSilent(q: Queue, ids: set<JobId>) {
    forall x :: x in ids && x in q.entries && q.entries[x].state == Queued ==> Silent(q.entries[x])
  }

  /** What is left to write, and who is left to tell. */
  ghost predicate Squared(q: Queue, r: Queue, ids: set<JobId>) {
    var ok :=
      && (r.writes == map[] <==> q.writes == map[] && AllSilent(q, ids))
      && (if Idle(q) then r == q else if Idle(r) then r.waiters == 0 else r.waiters == q.waiters);
    ok
  }

  lemma FateTrans(a: Entry, b: Entry, c: Entry, first: bool, second: bool)
    requires Fate(a, b, first) && Fate(b, c, second)
    ensures Fate(a, c, first || second)
  {
  }

  lemma SweptTrans(a: Queue, b: Queue, c: Queue, s: set<JobId>, t: set<JobId>)
    requires Swept(a, b, s) && Swept(b, c, t)
    ensures Swept(a, c, s + t)
  {
    hide Fate;
    forall x | x in a.entries ensures Fate(a.entries[x], c.entries[x], x in s + t) {
      FateTrans(a.entries[x], b.entries[x], c.entries[x], x in s, x in t);
    }
  }

  lemma SquaredTrans(a: Queue, b: Queue, c: Queue, s: set<JobId>, t: set<JobId>)
    requires Swept(a, b, s) && Squared(a, b, s) && Squared(b, c, t)
    ensures Squared(a, c, s + t)
  {
    hide Idle;
    forall x | x in a.entries ensures FateSilent(a.entries[x], b.entries[x], x in s) { FateKeepsSilent(a.entries[x], b.entries[x], x in s); }
    assert AllSilent(a, s + t) <==> AllSilent(a, s) && AllSilent(b, t);
  }

  /** A job named in line leaves it; any other keeps its state and its durability. */
  ghost predicate FateSilent(before: Entry, after: Entry, named: bool) {
    && (named && before.state == Queued ==> after.state != Queued)
    && (!named ==> after == before)
    && (after.state == Queued ==> after == before)
  }

  lemma FateKeepsSilent(before: Entry, after: Entry, named: bool)
    requires Fate(before, after, named)
    ensures FateSilent(before, after, named)
  {
  }

  // ---- One job ----

  lemma {:induction false} ShutPump(q: Queue, now: int)
    requires q.paused && q.closed
    ensures Pump(q, now) == CheckIdle(q.(wake := None))
  {
    assert Fill(q, now) == q;
  }

  lemma SettleShape(q: Queue, id: JobId, outcome: JobState, error: Option<string>)
    requires id in q.entries && q.entries[id].id == id && !Terminal(q.entries[id].state) && Terminal(outcome)
    ensures
      var r, over := Settle(q, id, outcome, error), Over(q.entries[id], outcome, error);
      r == q.(entries := q.entries[id := Written(over, q.nextTicket, false)],
              writes := if Silent(over) then q.writes else q.writes[q.nextTicket := id],
              nextTicket := r.nextTicket, finished := r.finished, known := r.known)
  {
    hide Persist, Evict, Written;
    PersistShape(q, Over(q.entries[id], outcome, error), false);
  }

  lemma CancelledFate(e: Entry, ticket: nat)
    requires e.state == Queued
    ensures Fate(e, Written(Over(e, Cancelled, None), ticket, false), true)
  {
    hide Record;
  }

  lemma SameFate(e: Entry)
    ensures Fate(e, e, false) && (Terminal(e.state) ==> Fate(e, e, true))
  {
  }

  /** A job in line, or asking for its lane, as it is taken out and ended. */
  ghost predicate TakenOut(q: Queue, mid: Queue, id: JobId) {
    var ok :=
      && id in q.entries && Fate(q.entries[id], if id in mid.entries then mid.entries[id] else q.entries[id], true)
      && mid.queued == Without(q.queued, id)
      && mid == q.(queued := mid.queued, entries := mid.entries, writes := mid.writes, nextTicket := mid.nextTicket,
                   finished := mid.finished, known := mid.known)
      && id in mid.entries && mid.entries == q.entries[id := mid.entries[id]]
      && mid.writes == (if Silent(q.entries[id]) then q.writes else q.writes[q.nextTicket := id]);
    ok
  }

  lemma WithdrawnOut(q: Queue, id: JobId)
    requires id in q.entries && q.entries[id].id == id && q.entries[id].state == Queued
    ensures TakenOut(q, Withdraw(q, id, Cancelled, None), id)
  {
    hide Settle, Written, Fate, Without;
    SettleShape(q.(queued := Without(q.queued, id)), id, Cancelled, None);
    CancelledFate(q.entries[id], q.nextTicket);
  }

  lemma OutSwept(q: Queue, mid: Queue, id: JobId)
    requires TakenOut(q, mid, id) && NoDup(q.queued) && q.paused && q.closed
    ensures Swept(q, CheckIdle(mid.(wake := None)), {id})
  {
    hide Fate, NoDup, Without, Idle;
    WithoutNoDup(q.queued, id);
    forall x | x in q.entries ensures Fate(q.entries[x], mid.entries[x], x in {id}) { SameFate(q.entries[x]); }
  }

  lemma OutSquared(q: Queue, mid: Queue, id: JobId)
    requires TakenOut(q, mid, id) && q.entries[id].state == Queued && (id in q.queued || id in q.starting)
    ensures Squared(q, CheckIdle(mid.(wake := None)), {id})
  {
    hide Fate, Without;
    assert q.writes[q.nextTicket := id] != map[] by { assert q.nextTicket in q.writes[q.nextTicket := id]; }
  }

  lemma SignalledSwept(q: Queue, id: JobId)
    requires id in q.entries && q.entries[id].state == Running && id !in q.queued && (id in q.active || id in q.deciding)
    ensures
      var r := q.(entries := q.entries[id := q.entries[id].(cancelRequested := true, aborted := true)]);
      Swept(q, r, {id}) && Squared(q, r, {id})
  {
    hide Fate;
    var r := q.(entries := q.entries[id := q.entries[id].(cancelRequested := true, aborted := true)]);
    forall x | x in q.entries ensures Fate(q.entries[x], r.entries[x], x in {id}) {
      SameFate(q.entries[x]);
      if x == id { SignalledFate(q.entries[id]); }
    }
    assert !Idle(q) && !Idle(r);
  }

  lemma SignalledFate(e: Entry)
    requires e.state == Running
    ensures Fate(e, e.(cancelRequested := true, aborted := true), true)
  {
  }

  /** A name that is no job's, or only that of one over already, changes nothing. */
  lemma NothingSwept(q: Queue, id: JobId)
    requires id !in q.queued && (id in q.entries ==> Terminal(q.entries[id].state))
    ensures Swept(q, q, {id}) && Squared(q, q, {id})
  {
    hide Fate;
    forall x | x in q.entries ensures Fate(q.entries[x], q.entries[x], x in {id}) { SameFate(q.entries[x]); }
  }

  lemma CancelSweeps(q: Queue, id: JobId, now: int)
    requires Inv(q) && q.paused && q.closed
    ensures Swept(q, Cancel(q, id, now), {id}) && Squared(q, Cancel(q, id, now), {id})
  {
    hide Inv, Pump, Withdraw, EntryOk, NoDup, Swept, Squared, TakenOut, CheckIdle;
    LineOk(q);
    if id in q.entries && !Terminal(q.entries[id].state) {
      Here(q, id);
      if q.entries[id].state == Queued {
        var mid := Withdraw(q, id, Cancelled, None);
        WithdrawnOut(q, id);
        OutShut(q, mid, id);
        ShutPump(mid, now);
        OutSwept(q, mid, id);
        OutSquared(q, mid, id);
      } else { SignalledSwept(q, id); }
    } else {
      if id in q.entries { Here(q, id); }
      NothingSwept(q, id);
    }
  }

  lemma OutShut(q: Queue, mid: Queue, id: JobId)
    requires TakenOut(q, mid, id)
    ensures mid.paused == q.paused && mid.closed == q.closed
  {
  }

  // ---- All of them ----

  lemma {:induction false} CancelAllSweeps(q: Queue, ids: seq<JobId>, now: int)
    requires Inv(q) && q.paused && q.closed
    ensures
      var r, named := CancelAll(q, ids, now), set x | x in ids;
      Inv(r) && r.paused && r.closed && Swept(q, r, named) && Squared(q, r, named)
    decreases |ids|
  {
    hide Inv, Cancel, Swept, Squared;
    if ids == [] { NoneSwept(q); assert (set x | x in ids) == {}; }
    else {
      var q1, rest := Cancel(q, ids[0], now), ids[1..];
      CancelInv(q, ids[0], now);
      CancelSweeps(q, ids[0], now);
      SweptShut(q, q1, {ids[0]});
      CancelAllSweeps(q1, rest, now);
      var more := set x | x in rest;
      assert (set x | x in ids) == {ids[0]} + more;
      SweptTrans(q, q1, CancelAll(q1, rest, now), {ids[0]}, more);
      SquaredTrans(q, q1, CancelAll(q1, rest, now), {ids[0]}, more);
    }
  }

  lemma SweptShut(q: Queue, r: Queue, ids: set<JobId>)
    requires Swept(q, r, ids)
    ensures r.paused == q.paused && r.closed == q.closed
  {
  }

  lemma NoneSwept(q: Queue)
    ensures Swept(q, q, {}) && Squared(q, q, {})
  {
    hide Fate;
    forall x | x in q.entries ensures Fate(q.entries[x], q.entries[x], x in {}) { SameFate(q.entries[x]); }
  }

  /** The three lists a close cancels, one after another. */
  lemma CloseSweeps(q: Queue, starting: seq<JobId>, active: seq<JobId>, now: int)
    requires Inv(q)
    ensures
      var shut := q.(closed := true, paused := true, wake := None, beatArmed := false);
      var named := (set x | x in q.queued) + (set x | x in starting) + (set x | x in active);
      exists r :: Swept(shut, r, named) && Squared(shut, r, named) && Close(q, starting, active, now) == Drain(r)
  {
    hide Inv, CancelAll, Drain, Swept, Squared;
    var shut := q.(closed := true, paused := true, wake := None, beatArmed := false);
    SwitchInv(q, false, None, q.waiters, true, true, q.recovered, q.nextBeat);
    var s1, s2, s3 := (set x | x in q.queued), (set x | x in starting), (set x | x in active);
    CancelAllSweeps(shut, q.queued, now);
    var q1 := CancelAll(shut, q.queued, now);
    CancelAllSweeps(q1, starting, now);
    var q2 := CancelAll(q1, starting, now);
    CancelAllSweeps(q2, active, now);
    var q3 := CancelAll(q2, active, now);
    SweptTrans(shut, q1, q2, s1, s2);
    SquaredTrans(shut, q1, q2, s1, s2);
    SweptTrans(shut, q2, q3, s1 + s2, s3);
    SquaredTrans(shut, q2, q3, s1 + s2, s3);
  }

  // ---- What a close comes to ----

  /** Nothing is running, asking, being decided or being written, and what is in line has nothing to write. */
  ghost predicate NothingElse(q: Queue) {
    && q.starting == {} && q.active == {} && q.deciding == map[] && q.writes == map[]
    && forall id :: id in q.queued && id in q.entries ==> Silent(q.entries[id])
  }

  /**
   * What a close does to one job, wherever it stands. In line or asking for its lane, it is cancelled there and
   * then and in no line; running, it is signalled and goes on running until its handler returns; over, or waiting
   * for its retry to be decided, it is left as it was.
   */
  ghost predicate ClosedOn(q: Queue, r: Queue, id: JobId)
    requires id in q.entries
  {
    && id in r.entries && id !in r.queued
    && (id in q.queued || (id in q.starting && !Terminal(q.entries[id].state)) ==> Ended(q.entries[id], r.entries[id], Cancelled, ""))
    && (id in q.active ==> id in r.active && r.entries[id] == q.entries[id].(cancelRequested := true, aborted := true))
    && (Terminal(q.entries[id].state) || id in q.deciding ==> r.entries[id] == q.entries[id])
  }

  /** Shut for good, with an empty line, no timer set, and every job asking, running or being decided where it was. */
  ghost predicate LeftShut(q: Queue, r: Queue) {
    && r.closed && r.paused && r.queued == [] && r.wake == None && !r.beatArmed
    && r.starting == q.starting && r.active == q.active && r.deciding == q.deciding && r.holder == q.holder && r.beats == q.beats
  }

  lemma SweptClosed(q: Queue, shut: Queue, r: Queue, starting: seq<JobId>, active: seq<JobId>, id: JobId)
    requires Inv(q) && shut == q.(closed := true, paused := true, wake := None, beatArmed := false) && id in q.entries
    requires forall x :: x in starting <==> x in q.starting
    requires forall x :: x in active <==> x in q.active
    requires Swept(shut, r, (set x | x in q.queued) + (set x | x in starting) + (set x | x in active))
    ensures ClosedOn(q, r, id)
  {
    hide EntryOk, NoDup, Inv, Ended;
    Here(q, id);
  }

  lemma SweptEmpty(q: Queue, shut: Queue, r: Queue, named: set<JobId>)
    requires shut == q.(closed := true, paused := true, wake := None, beatArmed := false)
    requires Swept(shut, r, named) && forall x :: x in q.queued ==> x in named
    ensures LeftShut(q, r)
  {
    hide Fate;
    SomeoneIn(r.queued);
  }

  lemma SomeoneIn(line: seq<JobId>)
    ensures line == [] || exists x :: x in line
  {
    if line != [] { assert line[0] in line; }
  }

  lemma SquaredIdle(q: Queue, shut: Queue, r: Queue, starting: seq<JobId>, active: seq<JobId>)
    requires Inv(q) && shut == q.(closed := true, paused := true, wake := None, beatArmed := false)
    requires forall x :: x in starting <==> x in q.starting
    requires forall x :: x in active <==> x in q.active
    requires LeftShut(q, r)
    requires Squared(shut, r, (set x | x in q.queued) + (set x | x in starting) + (set x | x in active))
    ensures Idle(r) <==> NothingElse(q)
    ensures r.waiters == if !NothingElse(q) || Idle(q) then q.waiters else 0
  {
    hide Inv;
    LineQueued(q);
  }

  lemma LineQueued(q: Queue)
    requires Inv(q)
    ensures forall id :: id in q.queued ==> id in q.entries && q.entries[id].state == Queued
  {
    hide Lanes, History, Records, Tickets, BeatsOk;
  }

  lemma Drained(q: Queue, r: Queue, id: JobId)
    requires LeftShut(q, r) && id in q.entries && ClosedOn(q, r, id)
    ensures LeftShut(q, Drain(r)) && ClosedOn(q, Drain(r), id) && Drain(r).waiters == if Idle(r) then r.waiters else r.waiters + 1
  {
    hide Ended, Idle;
  }

  lemma DrainedShut(q: Queue, r: Queue)
    requires LeftShut(q, r)
    ensures LeftShut(q, Drain(r)) && Drain(r).waiters == if Idle(r) then r.waiters else r.waiters + 1
  {
    hide Idle;
  }

  /**
   * What a close does in any reachable queue: every job meets the fate its place gives it, the queue is left shut,
   * and the caller joins the waiters unless that left nothing to wait for, when everyone is told.
   */
  lemma CloseSettles(cfg: Config, paused: bool, before: seq<Event>, close: Event, id: JobId)
    requires ValidConfig(cfg) && close.Closed? && Enabled(Reached(cfg, paused, before), close)
    ensures
      var q := Reached(cfg, paused, before);
      var r := Step(q, close);
      && LeftShut(q, r) && (id in q.entries ==> ClosedOn(q, r, id))
      && (Idle(r) <==> NothingElse(q))
      && r.waiters == if !NothingElse(q) then q.waiters + 1 else if Idle(q) then q.waiters else 0
  {
    hide Inv, Reached, Close, Drain, Swept, Squared, LeftShut, ClosedOn, NothingElse, Idle;
    var q := Reached(cfg, paused, before);
    ReachedInv(cfg, paused, before);
    var starting, active := close.starting, close.active;
    var shut := q.(closed := true, paused := true, wake := None, beatArmed := false);
    var named := (set x | x in q.queued) + (set x | x in starting) + (set x | x in active);
    CloseSweeps(q, starting, active, close.now);
    var r :| Swept(shut, r, named) && Squared(shut, r, named) && Close(q, starting, active, close.now) == Drain(r);
    SweptEmpty(q, shut, r, named);
    SquaredIdle(q, shut, r, starting, active);
    DrainedShut(q, r);
    DrainIdle(r);
    if id in q.entries {
      SweptClosed(q, shut, r, starting, active, id);
      Drained(q, r, id);
    }
  }

  lemma DrainIdle(q: Queue)
    ensures Idle(Drain(q)) <==> Idle(q)
  {
  }

  /**
   * A job running when the queue closes ends cancelled, or failed if its claim was lost: whatever happens after,
   * its handler is not called again, it does not go back in line, and that is how it ends if it does.
   */
  lemma ClosedRunningEnds(cfg: Config, paused: bool, before: seq<Event>, close: Event, after: seq<Event>, id: JobId)
    requires ValidConfig(cfg) && close.Closed? && Enabled(Reached(cfg, paused, before), close)
    requires id in Reached(cfg, paused, before).active && id in Reached(cfg, paused, before).entries
    ensures
      var q := Reached(cfg, paused, before);
      var r := Run(Step(q, close), after);
      && id in r.entries && r.entries[id].attempt == q.entries[id].attempt
      && (!Terminal(r.entries[id].state) ==> r.entries[id].state == Running && r.entries[id].aborted)
      && (Terminal(r.entries[id].state) ==>
           r.entries[id].state == Cancelled || (r.entries[id].state == Failed && r.entries[id].leaseLost))
  {
    hide Inv, Reached, Step, Run, Enabled;
    var q := Reached(cfg, paused, before);
    CloseSettles(cfg, paused, before, close, id);
    RunAppend(Fresh(cfg, paused), before, close);
    ReachedOneMore(cfg, paused, before, close);
    ReachedInv(cfg, paused, before);
    ActiveRunning(q, id);
    CancelWins(cfg, paused, before + [close], after, id);
  }

  lemma ActiveRunning(q: Queue, id: JobId)
    requires Inv(q) && id in q.active && id in q.entries
    ensures q.entries[id].state == Running
  {
    hide EntryOk;
    Here(q, id);
  }

  lemma {:induction false} RunAppend(q: Queue, evs: seq<Event>, ev: Event)
    ensures Run(q, evs + [ev]) == Step(Run(q, evs), ev)
    decreases |evs|
  {
    hide Step;
    if evs == [] { assert evs + [ev] == [ev] && [ev][1..] == []; }
    else {
      assert (evs + [ev])[1..] == evs[1..] + [ev];
      RunAppend(Step(q, evs[0]), evs[1..], ev);
    }
  }

  lemma ReachedOneMore(cfg: Config, paused: bool, evs: seq<Event>, ev: Event)
    requires Run(Fresh(cfg, paused), evs + [ev]) == Step(Run(Fresh(cfg, paused), evs), ev)
    ensures Reached(cfg, paused, evs + [ev]) == Step(Reached(cfg, paused, evs), ev)
  {
    hide Run, Step;
  }
}
