/** What one answer comes to for the job it is about, pumps and all. */
module QueueOutcomes {
  import opened Jobs
  import opened Sequences
  import opened QueueSpec
  import opened QueueInvariant
  import opened QueueRuns
  import opened QueueService

  // ---- What a pump leaves alone ----

  /** Still in line, and as it was. */
  ghost predicate InLine(q: Queue, id: JobId, e: Entry) {
    var ok := id in q.queued && id in q.entries && q.entries[id] == e && id !in q.active && id !in q.starting;
    ok
  }

  /** Out of the line, and as it was. */
  ghost predicate OutOfLine(q: Queue, id: JobId, e: Entry) {
    var ok := id !in q.queued && id in q.entries && q.entries[id] == e && id !in q.active && id !in q.starting;
    ok
  }

  /** Starting or asking changes one job, takes it out of line, and frees no lane. */
  ghost predicate Started(q: Queue, r: Queue, id: JobId) {
    var ok :=
      && (forall x :: x in q.entries && x != id ==> x in r.entries && r.entries[x] == q.entries[x])
      && (forall lane :: lane in q.holder ==> lane in r.holder)
      && (forall x :: x in r.active ==> x in q.active || x == id) && (forall x :: x in r.starting ==> x in q.starting || x == id)
      && (forall x :: x in q.active ==> x in r.active) && (forall x :: x in q.starting ==> x in r.starting);
    ok
  }

  lemma BeginStarts(q: Queue, id: JobId)
    requires id in q.entries
    ensures Started(q, Begin(q, id, false), id) && Begin(q, id, false).queued == q.queued
  {
    hide Record;
  }

  lemma AskStarts(q: Queue, id: JobId)
    requires id in q.entries && q.entries[id].lane.Some?
    ensures Started(q, Ask(q, id), id) && Ask(q, id).queued == q.queued
  {
    hide Record;
  }

  lemma LaunchStarts(q: Queue, k: nat)
    requires k < |q.queued| && q.queued[k] in q.entries
    ensures Started(q, Launch(q, k), q.queued[k]) && Launch(q, k).queued == DropAt(q.queued, k)
  {
    hide Started, Begin, Ask;
    var id := q.queued[k];
    var taken := q.(queued := DropAt(q.queued, k));
    if SharesLanes(q.cfg, q.entries[id]) { AskStarts(taken, id); } else { BeginStarts(taken, id); }
    StartedFrom(q, taken, Launch(q, k), id);
  }

  lemma StartedFrom(q: Queue, taken: Queue, r: Queue, id: JobId)
    requires Started(taken, r, id) && taken == q.(queued := taken.queued)
    ensures Started(q, r, id)
  {
  }

  lemma LaunchLeaves(q: Queue, k: nat, now: int, id: JobId, e: Entry)
    requires k < |q.queued| && Eligible(q, now, q.queued[k]) && InLine(q, id, e) && !CanStart(q.holder, e, now)
    ensures InLine(Launch(q, k), id, e) && !CanStart(Launch(q, k).holder, e, now)
  {
    hide Launch;
    LaunchStarts(q, k);
    assert id != q.queued[k];
    var j :| 0 <= j < |q.queued| && q.queued[j] == id;
    var rest := DropAt(q.queued, k);
    assert id in rest by { if j < k { assert rest[j] == id; } else { assert rest[j - 1] == id; } }
  }

  lemma LaunchAvoids(q: Queue, k: nat, id: JobId, e: Entry)
    requires k < |q.queued| && q.queued[k] in q.entries && OutOfLine(q, id, e)
    ensures OutOfLine(Launch(q, k), id, e)
  {
    hide Launch;
    LaunchStarts(q, k);
  }

  lemma {:induction false} FillLeaves(q: Queue, now: int, id: JobId, e: Entry)
    requires InLine(q, id, e) && !CanStart(q.holder, e, now)
    ensures InLine(Fill(q, now), id, e)
    decreases |q.queued|
  {
    hide Launch, InLine, CanStart;
    var best := Best(q, now, |q.queued|);
    if SlotFree(q) && best != -1 {
      LaunchLeaves(q, best, now, id, e);
      LaunchSwitches(q, best);
      FillLeaves(Launch(q, best), now, id, e);
    }
  }

  lemma {:induction false} FillAvoids(q: Queue, now: int, id: JobId, e: Entry)
    requires OutOfLine(q, id, e)
    ensures OutOfLine(Fill(q, now), id, e)
    decreases |q.queued|
  {
    hide Launch, OutOfLine;
    var best := Best(q, now, |q.queued|);
    if SlotFree(q) && best != -1 {
      LaunchAvoids(q, best, id, e);
      LaunchSwitches(q, best);
      FillAvoids(Launch(q, best), now, id, e);
    }
  }

  /**
   * A pump starts nothing early: a job whose first write is unanswered, whose lane is held, or whose delay
   * has not run out stays in line exactly as it was, however many others start before it.
   */
  lemma HeldBack(q: Queue, now: int, id: JobId)
    requires id in q.queued && id in q.entries && id !in q.active && id !in q.starting
    ensures
      var e, r := q.entries[id], Pump(q, now);
      e.durability == Pending || (e.lane.Some? && e.lane.value in q.holder) || (e.dueAt.Some? && e.dueAt.value > now) ==>
        InLine(r, id, e)
  {
    hide Fill, Pump;
    PumpShape(q, now);
    if !CanStart(q.holder, q.entries[id], now) { FillLeaves(q, now, id, q.entries[id]); }
  }

  /** What is chained when a job is begun on: its lane claim, or its row as it now runs, unless the row is not this process's. */
  ghost predicate BegunChain(before: Entry, after: Entry, asking: bool) {
    if asking then after.chain == before.chain + [Acquire(ClaimOf(before))]
    else if Silent(before) then after.chain == before.chain
    else
      && |after.chain| == |before.chain| + 1 && after.chain[..|before.chain|] == before.chain
      && after.chain[|before.chain|].Save? && after.chain[|before.chain|].job == Record(after)
  }

  /** A job a pump has begun on: asked its lane for, its attempts as they were, or running, with one more; and written down so. */
  ghost predicate Began(q: Queue, id: JobId, e: Entry) {
    var ok :=
      && id !in q.queued && id in q.entries && q.entries[id].priority == e.priority && q.entries[id].durability == e.durability
      && q.entries[id].payload == e.payload && q.entries[id].lane == e.lane && q.entries[id].enqueuedAt == e.enqueuedAt
      && q.entries[id].error == e.error && BegunChain(e, q.entries[id], id in q.starting)
      && (|| (id in q.starting && q.entries[id].attempt == e.attempt && q.entries[id].state == e.state)
          || (id in q.active && q.entries[id].attempt == e.attempt + 1 && q.entries[id].state == Running));
    ok
  }

  lemma BegunRow(before: Entry, going: Entry, ticket: nat)
    requires going == Going(before)
    ensures BegunChain(before, Written(going, ticket, true), false)
  {
  }

  lemma PersistRow(q: Queue, id: JobId)
    requires id in q.entries
    ensures
      var r := Persist(q, id, true);
      && id in r.entries && r.entries[id] == Written(q.entries[id], q.nextTicket, true)
      && r.queued == q.queued && r.active == q.active && r.starting == q.starting
  {
    hide Record;
  }

  lemma BeginBegins(q: Queue, id: JobId, e: Entry)
    requires id in q.entries && q.entries[id] == e && id !in q.queued && id !in q.starting
    ensures Began(Begin(q, id, false), id, e)
  {
    hide Persist, BegunChain, Written;
    PersistRow(q.(entries := q.entries[id := Going(e)], active := q.active + {id},
                  holder := if e.lane.Some? then q.holder[e.lane.value := id] else q.holder), id);
    BegunRow(e, Going(e), q.nextTicket);
  }

  lemma AskBegins(q: Queue, id: JobId, e: Entry)
    requires id in q.entries && q.entries[id] == e && id !in q.queued && e.lane.Some?
    ensures Began(Ask(q, id), id, e)
  {
    hide ClaimOf;
  }

  lemma LaunchBegins(q: Queue, k: nat, id: JobId, e: Entry)
    requires k < |q.queued| && q.queued[k] == id && InLine(q, id, e) && NoDup(q.queued)
    ensures Began(Launch(q, k), id, e)
  {
    hide Begin, Ask, Began;
    var taken := q.(queued := DropAt(q.queued, k));
    assert id !in taken.queued;
    if SharesLanes(q.cfg, e) { AskBegins(taken, id, e); } else { BeginBegins(taken, id, e); }
  }

  lemma LaunchKeepsBegun(q: Queue, k: nat, id: JobId, e: Entry)
    requires k < |q.queued| && q.queued[k] in q.entries && Began(q, id, e)
    ensures Began(Launch(q, k), id, e)
  {
    hide Launch;
    LaunchStarts(q, k);
  }

  lemma LaunchLines(q: Queue, k: nat, id: JobId, e: Entry)
    requires k < |q.queued| && q.queued[k] in q.entries && q.queued[k] != id && InLine(q, id, e)
    ensures InLine(Launch(q, k), id, e)
  {
    hide Launch;
    LaunchStarts(q, k);
    var j :| 0 <= j < |q.queued| && q.queued[j] == id;
    var rest := DropAt(q.queued, k);
    assert id in rest by { if j < k { assert rest[j] == id; } else { assert rest[j - 1] == id; } }
  }

  lemma {:induction false} FillEither(q: Queue, now: int, id: JobId, e: Entry)
    requires NoDup(q.queued) && (InLine(q, id, e) || Began(q, id, e))
    ensures InLine(Fill(q, now), id, e) || Began(Fill(q, now), id, e)
    decreases |q.queued|
  {
    hide Launch, InLine, Began, NoDup;
    var best := Best(q, now, |q.queued|);
    if SlotFree(q) && best != -1 {
      LaunchStarts(q, best);
      DropAtNoDup(q.queued, best);
      if Began(q, id, e) { LaunchKeepsBegun(q, best, id, e); }
      else if q.queued[best] == id { LaunchBegins(q, best, id, e); }
      else { LaunchLines(q, best, id, e); }
      LaunchSwitches(q, best);
      FillEither(Launch(q, best), now, id, e);
    }
  }

  /** A pump leaves a job in line as it was, or begins on it. */
  lemma PumpEither(q: Queue, now: int, id: JobId, e: Entry)
    requires NoDup(q.queued) && InLine(q, id, e)
    ensures InLine(Pump(q, now), id, e) || Began(Pump(q, now), id, e)
    ensures !CanStart(q.holder, e, now) ==> InLine(Pump(q, now), id, e)
  {
    hide Fill, Pump, NoDup;
    PumpShape(q, now);
    FillEither(q, now, id, e);
    if !CanStart(q.holder, e, now) { FillLeaves(q, now, id, e); }
  }

  /** A pump does nothing to a job that is not in line. */
  lemma PumpAvoids(q: Queue, now: int, id: JobId)
    requires id !in q.queued && id in q.entries && id !in q.active && id !in q.starting
    ensures OutOfLine(Pump(q, now), id, q.entries[id])
  {
    hide Fill, Pump;
    PumpShape(q, now);
    FillAvoids(q, now, id, q.entries[id]);
  }

  /** Not in line, as it was, and in whatever other place it was. */
  ghost predicate Spared(q: Queue, r: Queue, id: JobId) {
    var ok :=
      && id in q.entries && id in r.entries && r.entries[id] == q.entries[id] && id !in r.queued
      && (id in r.active <==> id in q.active) && (id in r.starting <==> id in q.starting);
    ok
  }

  lemma LaunchSpares(q: Queue, k: nat, id: JobId)
    requires k < |q.queued| && q.queued[k] in q.entries && id !in q.queued && id in q.entries
    ensures Spared(q, Launch(q, k), id)
  {
    hide Launch;
    LaunchStarts(q, k);
    assert q.queued[k] != id && id !in DropAt(q.queued, k);
  }

  lemma {:induction false} FillSpares(q: Queue, now: int, id: JobId)
    requires id !in q.queued && id in q.entries
    ensures Spared(q, Fill(q, now), id)
    decreases |q.queued|
  {
    hide Launch;
    var best := Best(q, now, |q.queued|);
    if SlotFree(q) && best != -1 {
      LaunchSpares(q, best, id);
      LaunchSwitches(q, best);
      FillSpares(Launch(q, best), now, id);
    }
  }

  /** A pump does nothing to a job that is not in line, wherever it is. */
  lemma PumpSpares(q: Queue, now: int, id: JobId)
    requires id !in q.queued && id in q.entries
    ensures Spared(q, Pump(q, now), id)
  {
    hide Fill, Pump;
    PumpShape(q, now);
    FillSpares(q, now, id);
  }

  // ---- A handler comes back ----

  lemma SettledEntry(q: Queue, id: JobId, outcome: JobState, error: Option<string>)
    requires id in q.entries && q.entries[id].id == id && !Terminal(q.entries[id].state) && Terminal(outcome)
    ensures
      var r := Settle(q, id, outcome, error);
      && r.queued == q.queued && r.active == q.active && r.starting == q.starting && r.deciding == q.deciding
      && id in r.entries
      && r.entries[id].state == outcome && r.entries[id].attempt == q.entries[id].attempt
      && r.entries[id].error == (if outcome == Failed then error else q.entries[id].error)
      && r.entries[id].chain
         == if Silent(q.entries[id]) then q.entries[id].chain else q.entries[id].chain + [Remove(q.nextTicket)]
  {
    hide Settle;
    SettleEntries(q, id, outcome, error);
    SettleFrame(q, id, outcome, error);
  }

  /** A job ended so, for this reason if it failed, with its row to be removed if the row is still this process's. */
  ghost predicate Ended(before: Entry, after: Entry, outcome: JobState, cause: string) {
    var ok :=
      && after.state == outcome && after.attempt == before.attempt
      && after.error == (if outcome == Failed then Some(cause) else before.error)
      && |after.chain| == |before.chain| + (if Silent(before) then 0 else 1)
      && (forall k :: 0 <= k < |before.chain| ==> after.chain[k] == before.chain[k])
      && (!Silent(before) ==> after.chain[|before.chain|].Remove?);
    ok
  }

  lemma EndedSo(q: Queue, id: JobId, outcome: JobState, error: Option<string>, cause: string)
    requires id in q.entries && q.entries[id].id == id && !Terminal(q.entries[id].state) && Terminal(outcome)
    requires outcome == Failed ==> error == Some(cause)
    ensures id in Settle(q, id, outcome, error).entries
    ensures Ended(q.entries[id], Settle(q, id, outcome, error).entries[id], outcome, cause)
  {
    hide Settle;
    SettledEntry(q, id, outcome, error);
  }

  /** A job whose handler is done with it, out of its slot and its lane. */
  lemma FinishedEnds(q: Queue, id: JobId, threw: bool, outcome: JobState, cause: string, now: int)
    requires id in q.entries && q.entries[id].id == id && id !in q.queued && id !in q.starting && !Terminal(q.entries[id].state)
    requires Outcome(q.entries[id], threw) == Some(outcome) && (outcome == Failed ==> cause == LeaseLostMessage(id))
    ensures
      var r := HandlerReturned(q, id, threw, now);
      id in r.entries && Ended(q.entries[id], r.entries[id], outcome, cause) && OutOfLine(r, id, r.entries[id])
  {
    hide Pump, Settle, Ended;
    var freed := Release(q, id);
    SettledEntry(freed, id, outcome, Some(LeaseLostMessage(id)));
    EndedSo(freed, id, outcome, Some(LeaseLostMessage(id)), cause);
    PumpAvoids(Settle(freed, id, outcome, Some(LeaseLostMessage(id))), now, id);
  }

  /**
   * When a handler comes back the job leaves its slot. A lost claim fails it, else a cancellation cancels it,
   * else returning completes it: its row is removed unless it was lost. Only a job that threw, was not
   * cancelled and kept its claim goes to the policy, which is asked unless there is none or the queue closed.
   */
  lemma HandlerSettles(q: Queue, id: JobId, threw: bool, now: int)
    requires Inv(q) && id in q.active && id in q.entries && q.entries[id].state == Running
    ensures
      var e, r := q.entries[id], Apply(q, HandlerDone(id, threw, now));
      && id in r.entries && id !in r.active && id !in r.starting && id !in r.queued
      && (e.durability == Lost ==> Ended(e, r.entries[id], Failed, LeaseLostMessage(id)))
      && (e.durability != Lost && e.cancelRequested ==> Ended(e, r.entries[id], Cancelled, ""))
      && (e.durability != Lost && !e.cancelRequested && !threw ==> Ended(e, r.entries[id], Complete, ""))
      && (e.durability != Lost && !e.cancelRequested && threw ==>
           id in r.deciding && r.entries[id] == e && (r.deciding[id] <==> q.cfg.hasRetry && !q.closed))
  {
    hide Inv, Pump, Settle, Release, Ended;
    Here(q, id);
    var e := q.entries[id];
    if Outcome(e, threw).Some? {
      FinishedEnds(q, id, threw, Outcome(e, threw).value, if e.leaseLost then LeaseLostMessage(id) else "", now);
    } else {
      ThrownRests(q, id);
    }
  }

  lemma ThrownRests(q: Queue, id: JobId)
    requires id in q.entries && id !in q.queued
    ensures
      var r := Release(q, id);
      r.entries == q.entries && r.queued == q.queued && id !in r.active && id !in r.starting
  {
  }

  /** Ending a job puts it last in the history, which drops the oldest past its limit and forgets exactly those. */
  lemma SettleRemembers(q: Queue, id: JobId, outcome: JobState, error: Option<string>)
    requires Inv(q) && id in q.entries && !Terminal(q.entries[id].state) && Terminal(outcome)
    ensures
      var r, all := Settle(q, id, outcome, error), q.finished + [id];
      var over := if |all| <= q.cfg.historyLimit then 0 else |all| - q.cfg.historyLimit;
      && r.finished == all[over..]
      && forall x :: x in r.known <==> x in q.known && x !in all[..over]
  {
    hide Inv, Persist, Evict, EntryOk, NoDup;
    Here(q, id);
    var e := q.entries[id];
    var ended := e.(state := outcome, error := if outcome == Failed then error else e.error);
    EvictDrops(Persist(q.(entries := q.entries[id := ended]), id, false), id);
  }

  lemma EvictDrops(q: Queue, id: JobId)
    requires |q.finished| <= q.cfg.historyLimit
    ensures
      var r, all := Evict(q.(finished := q.finished + [id])), q.finished + [id];
      var over := if |all| <= q.cfg.historyLimit then 0 else |all| - q.cfg.historyLimit;
      && r.finished == all[over..]
      && forall x :: x in r.known <==> x in q.known && x !in all[..over]
  {
    hide Evict;
    var all := q.finished + [id];
    EvictOnce(q.(finished := all));
    assert all[..1] == [all[0]];
  }

  // ---- The policy answers ----

  /**
   * An answer that is not a retry ends the job: cancelled if someone asked for that, whatever the answer, and
   * otherwise failed with the handler's own reason. It is out of every place, its attempts as they were, and its
   * row is removed if it is still this process's.
   */
  lemma PolicyEnds(q: Queue, id: JobId, delayMs: Option<nat>, cause: string, now: int)
    requires Inv(q) && Enabled(q, PolicyReply(id, delayMs, cause, now))
    requires q.entries[id].cancelRequested || !q.deciding[id] || delayMs == None
    ensures
      var e, r := q.entries[id], Apply(q, PolicyReply(id, delayMs, cause, now));
      && id in r.entries && id !in r.deciding && id !in r.queued && id !in r.active && id !in r.starting
      && Ended(e, r.entries[id], if e.cancelRequested then Cancelled else Failed, cause)
  {
    hide Inv, Pump, Settle, Ended;
    Here(q, id);
    var outcome := if q.entries[id].cancelRequested then Cancelled else Failed;
    var error := if q.entries[id].cancelRequested then None else Some(cause);
    SettledEntry(q, id, outcome, error);
    var ended := Settle(q, id, outcome, error);
    var decided := ended.(deciding := ended.deciding - {id});
    EndedSo(q, id, outcome, error, cause);
    PumpAvoids(decided, now, id);
    PumpShape(decided, now);
    FillStops(decided, now);
  }

  // ---- A cancellation ----

  /**
   * A cancellation ends a job that is in line or asking for its lane at once, with no handler called. A running
   * one, or one whose retry is being decided, is signalled and left where it is; any other, nothing is done about.
   */
  lemma CancelSettles(q: Queue, id: JobId, now: int)
    requires Inv(q)
    ensures
      var r := Apply(q, CancelAsked(id, now));
      if id !in q.entries || id !in q.known || Terminal(q.entries[id].state) then r == q
      else if id in q.queued || id in q.starting then
        id in r.entries && id !in r.queued && id !in r.active && Ended(q.entries[id], r.entries[id], Cancelled, "")
      else
        r == q.(entries := q.entries[id := q.entries[id].(cancelRequested := true, aborted := true)])
  {
    hide Inv, Pump, Withdraw, Ended, EntryOk, NoDup;
    if id in q.entries && id in q.known && !Terminal(q.entries[id].state) {
      Here(q, id);
      if q.entries[id].state == Queued { QueuedCancels(q, id, now); }
    }
  }

  lemma QueuedCancels(q: Queue, id: JobId, now: int)
    requires id in q.entries && q.entries[id].id == id && q.entries[id].state == Queued && id !in q.active && NoDup(q.queued)
    ensures
      var r := Pump(Withdraw(q, id, Cancelled, None), now);
      id in r.entries && id !in r.queued && id !in r.active && Ended(q.entries[id], r.entries[id], Cancelled, "")
  {
    hide Pump, Settle, Ended, NoDup, Without;
    var out := q.(queued := Without(q.queued, id));
    WithoutNoDup(q.queued, id);
    SettledEntry(out, id, Cancelled, None);
    EndedSo(out, id, Cancelled, None, "");
    PumpSpares(Settle(out, id, Cancelled, None), now, id);
  }

  // ---- A lane claim is granted ----

  /** Running, on one more attempt, under the very row the job's one claim asked for, with nothing more to write. */
  ghost predicate RunsAsClaimed(before: Entry, after: Entry) {
    var ok :=
      && after.state == Running && after.attempt == before.attempt + 1 && after.chain == [] && after.dueAt == None
      && before.chain == [Acquire(Record(after))];
    ok
  }

  /** A granted claim is what the store was asked to write, and the job keeps the lane it asked for. */
  lemma GrantRuns(q: Queue, id: JobId, now: int)
    requires Inv(q) && Enabled(q, AcquireReply(id, Reply.Answered, now)) && !Terminal(q.entries[id].state)
    ensures
      var e, r := q.entries[id], Apply(q, AcquireReply(id, Reply.Answered, now));
      && id in r.active && id !in r.starting && id !in r.queued && id in r.entries && RunsAsClaimed(e, r.entries[id])
      && (e.lane.Some? ==> e.lane.value in r.holder && r.holder[e.lane.value] == id)
  {
    hide Inv, Apply, AcquireAnswered, ClaimOf, Going, Enabled, RunsAsClaimed;
    AwaitsMeans(q, id, now);
    AskedAlone(q, id);
    GrantApplies(q, id, now);
    GrantedStep(q, id, now);
    ClaimIsRow(q.entries[id]);
  }

  lemma GrantApplies(q: Queue, id: JobId, now: int)
    requires id in q.entries
    ensures Apply(q, AcquireReply(id, Reply.Answered, now)) == AcquireAnswered(q, id, Reply.Answered, now)
  {
    hide AcquireAnswered;
  }

  lemma GrantedStep(q: Queue, id: JobId, now: int)
    requires id in q.entries && q.entries[id].id == id && !Terminal(q.entries[id].state)
    requires |q.entries[id].chain| == 1 && q.entries[id].chain[0].Acquire?
    requires q.entries[id].lane.Some? ==> q.entries[id].lane.value in q.holder && q.holder[q.entries[id].lane.value] == id
    ensures AcquireAnswered(q, id, Reply.Answered, now)
      == q.(entries := q.entries[id := Going(q.entries[id].(chain := []))], starting := q.starting - {id},
            active := q.active - {id} + {id})
  {
    hide Begin, Release, PopWrite, Going, Pump, Lose;
    var e := q.entries[id];
    assert e.chain[1..] == [];
    AnsweredShape(q, id);
    GrantedShape(q, id);
  }

  lemma AwaitsMeans(q: Queue, id: JobId, now: int)
    requires Enabled(q, AcquireReply(id, Reply.Answered, now))
    ensures Awaits(q, id, false, true) && id in q.entries && q.entries[id].chain != [] && q.entries[id].chain[0].Acquire?
  {
  }

  /** The row a claim asks for is the job's own, once it is going. */
  lemma ClaimIsRow(e: Entry)
    requires e.chain == [Acquire(ClaimOf(e))]
    ensures RunsAsClaimed(e, Going(e.(chain := [])))
  {
  }

  /** A job asking for its lane holds it here, and has that claim as the one write left to be answered. */
  lemma AskedAlone(q: Queue, id: JobId)
    requires Inv(q) && Awaits(q, id, false, true) && !Terminal(q.entries[id].state)
    ensures
      var e := q.entries[id];
      && e.id == id && id in q.starting && id !in q.queued && e.chain == [Acquire(ClaimOf(e))]
      && (e.lane.Some? ==> e.lane.value in q.holder && q.holder[e.lane.value] == id)
  {
    hide Inv, ClaimOf, EntryOk, NoDup;
    AskingPlace(q, id);
    Here(q, id);
    if q.entries[id].lane.Some? { HoldsLane(q, id); }
    LastAsked(q.cfg, q.entries[id]);
  }

  lemma LastAsked(cfg: Config, e: Entry)
    requires EntryOk(cfg, e, true) && !Terminal(e.state) && e.chain != [] && e.chain[0].Acquire?
    ensures e.chain == [Acquire(ClaimOf(e))]
  {
    hide ClaimOf, FlagsOk, InBudget, OpOk;
    var k: nat :| OnlyAcquire(e.chain, k);
    assert e.chain[|e.chain| - 1].Acquire?;
  }

  // ---- A job goes back in line ----

  /**
   * Losing a race for a lane costs a job nothing: refused, or asked of a store that failed, it is back in line
   * with its attempts as they were, to be asked again a heartbeat later; if that is at once, it may be already.
   */
  lemma RefusalCostsNothing(q: Queue, id: JobId, reply: Reply, now: int)
    requires Inv(q) && id in q.starting && Awaits(q, id, false, true) && (reply == Refused || reply == Broken)
    requires !Terminal(q.entries[id].state)
    ensures
      var e, r := q.entries[id], Apply(q, AcquireReply(id, reply, now));
      var backoff := if q.cfg.heartbeatMs.Some? then q.cfg.heartbeatMs.value else 0;
      var waiting := e.(chain := e.chain[1..], dueAt := Some(now + backoff));
      (backoff > 0 ==> InLine(r, id, waiting)) && (InLine(r, id, waiting) || Began(r, id, waiting))
  {
    hide Inv, Pump, Release, PopWrite, InLine, Began, NoDup;
    Here(q, id);
    Answered(q, id);
    AppendNoDup(q.queued, id);
    var told := Release(PopWrite(q, id), id);
    var due := now + if q.cfg.heartbeatMs.Some? then q.cfg.heartbeatMs.value else 0;
    var waiting := told.entries[id].(dueAt := Some(due));
    var lined := told.(entries := told.entries[id := waiting], queued := told.queued + [id]);
    assert InLine(lined, id, waiting) by { JoinsLine(told, id, waiting); }
    PumpEither(lined, now, id, waiting);
  }

  lemma JoinsLine(q: Queue, id: JobId, e: Entry)
    requires id !in q.active && id !in q.starting
    ensures InLine(q.(entries := q.entries[id := e], queued := q.queued + [id]), id, e)
  {
  }

  /** A claim answered and given up: out of its chain, its slot and its lane. */
  lemma Answered(q: Queue, id: JobId)
    requires id in q.entries && q.entries[id].chain != [] && id !in q.active
    ensures
      var told := Release(PopWrite(q, id), id);
      && told.cfg == q.cfg && id in told.entries && told.queued == q.queued
      && told.entries[id] == q.entries[id].(chain := q.entries[id].chain[1..])
      && id !in told.active && id !in told.starting
  {
  }

  /** A job as a retry leaves it: in line after its delay, with its attempts as they were, and to be saved so. */
  ghost predicate Retrying(before: Entry, after: Entry, cause: string, due: int) {
    var ok :=
      && after.state == Queued && after.attempt == before.attempt && after.error == Some(cause)
      && after.dueAt == Some(due) && after.notBefore == Some(due)
      && |after.chain| == |before.chain| + (if Silent(before) then 0 else 1)
      && (forall k :: 0 <= k < |before.chain| ==> after.chain[k] == before.chain[k])
      && (!Silent(before) ==> after.chain[|before.chain|].Save? && after.chain[|before.chain|].job == Record(after));
    ok
  }

  /**
   * A retry waits out its delay: the job is back in line, due that long after the answer; if that is at once, it
   * may have been begun on already.
   */
  lemma RetryWaits(q: Queue, id: JobId, delayMs: nat, cause: string, now: int)
    requires Inv(q) && id in q.deciding && id in q.entries && q.entries[id].state == Running
    requires !q.entries[id].cancelRequested && q.deciding[id]
    ensures
      var e, r := q.entries[id], Apply(q, PolicyReply(id, Some(delayMs), cause, now));
      && id !in r.deciding
      && exists waiting :: Retrying(e, waiting, cause, now + delayMs)
           && (delayMs > 0 ==> InLine(r, id, waiting)) && (InLine(r, id, waiting) || Began(r, id, waiting))
  {
    hide Inv, Pump, Again, Fill, ScheduleWake, InLine, Began, NoDup;
    Here(q, id);
    LinedAgain(q, id, cause, delayMs, now);
    AppendNoDup(q.queued, id);
    var again := Again(q, id, cause, delayMs, now);
    var decided := again.(deciding := again.deciding - {id});
    var waiting := again.entries[id];
    assert Retrying(q.entries[id], waiting, cause, now + delayMs);
    assert InLine(decided, id, waiting) by { StandsInLine(decided, id); }
    PumpEither(decided, now, id, waiting);
    PumpShape(decided, now);
    FillStops(decided, now);
  }

  lemma StandsInLine(q: Queue, id: JobId)
    requires id in q.queued && id in q.entries && id !in q.active && id !in q.starting
    ensures InLine(q, id, q.entries[id])
  {
  }

  /** A failed job back in line, before anything is pumped. */
  lemma LinedAgain(q: Queue, id: JobId, cause: string, delayMs: nat, now: int)
    requires id in q.entries && q.entries[id].id == id
    ensures
      var e, r := q.entries[id], Again(q, id, cause, delayMs, now);
      && r.queued == q.queued + [id] && id in r.entries && r.active == q.active && r.starting == q.starting
      && r.entries[id].state == Queued && r.entries[id].attempt == e.attempt && r.entries[id].error == Some(cause)
      && r.entries[id].dueAt == Some(now + delayMs) && r.entries[id].notBefore == Some(now + delayMs)
      && r.entries[id].chain
         == if Silent(e) then e.chain else e.chain + [Save(q.nextTicket, Record(r.entries[id]))]
  {
    hide Persist;
    var e := q.entries[id].(state := Queued, error := Some(cause), notBefore := Some(now + delayMs), dueAt := Some(now + delayMs));
    PersistShape(q.(queued := q.queued + [id]), e, true);
  }

  /**
   * A stored job as it was left: its payload, priority, age, attempts and error, what is left of its backoff, and its
   * row in the store; its lane is the one this queue's rule now gives it.
   */
  predicate AsLeft(cfg: Config, job: StoredJob, e: Entry, now: int) {
    && e.id == job.id && e.payload == job.payload && e.lane == cfg.reviveLane(job.payload, job.lane)
    && e.enqueuedAt == job.enqueuedAt && e.notBefore == job.nextAttemptAt && e.born == job.attempt && !e.aborted
    && e.state == Queued && e.attempt == job.attempt && e.priority == job.priority && e.error == job.error
    && e.dueAt == (if job.nextAttemptAt.Some? then Some(Max(now, job.nextAttemptAt.value)) else None)
    && e.durability == Stored && e.chain == [] && !e.cancelRequested && !e.leaseLost
  }

  /**
   * A job the store hands over joins the line exactly when its id is not one this queue remembers. Then it is
   * there as it was left, and waits out any backoff left to it; with none, it may have been begun on already. One
   * the queue remembers is dropped, whatever became of it here.
   */
  lemma RestoresAsLeft(q: Queue, job: StoredJob, now: int)
    requires Inv(q) && (job.id in q.entries ==> job.id in q.known)
    ensures
      var r := Restore(q, job, now);
      if job.id in q.known then r == q
      else exists e :: AsLeft(q.cfg, job, e, now) && (InLine(r, job.id, e) || Began(r, job.id, e))
             && (job.nextAttemptAt.Some? && job.nextAttemptAt.value > now ==> InLine(r, job.id, e))
  {
    hide Pump, Inv, InLine, Began, NoDup;
    if job.id in q.known {
      Remembered(q, job.id);
    } else {
      NotHereYet(q, job.id);
      LineOk(q);
      AppendNoDup(q.queued, job.id);
      var e := Restored(q.cfg, job, now);
      JoinsLine(q.(known := q.known + {job.id}), job.id, e);
      PumpEither(AddQueued(q, e), now, job.id, e);
      assert AsLeft(q.cfg, job, e, now);
    }
  }

  lemma Remembered(q: Queue, id: JobId)
    requires Inv(q) && id in q.known
    ensures id in q.entries
  {
    hide Places, Lanes, Records, Tickets, BeatsOk;
  }

  lemma NotHereYet(q: Queue, id: JobId)
    requires Inv(q) && id !in q.entries
    ensures id !in q.active && id !in q.starting && id !in q.queued
  {
    hide Lanes, History, Records, Tickets, BeatsOk;
  }

  // ---- A job that was never written down ----

  /** A job whose first write fails never runs: it ends failed, with the store's own reason, and nothing is left to write. */
  lemma UnwrittenNeverRuns(q: Queue, id: JobId, cause: string, now: int)
    requires Inv(q) && Enabled(q, CreateReply(id, false, cause, now)) && !Terminal(q.entries[id].state)
    ensures
      var e, r := q.entries[id], Apply(q, CreateReply(id, false, cause, now));
      && id in r.entries && id !in r.queued && id !in r.active && id !in r.starting
      && r.entries[id].state == Failed && r.entries[id].error == Some(cause) && r.entries[id].attempt == e.attempt
      && |r.entries[id].chain| == |e.chain|
  {
    hide Inv, Pump, Settle, PopWrite;
    Here(q, id);
    var out := q.(queued := Without(q.queued, id));
    LineOk(q);
    WithoutNoDup(q.queued, id);
    SettledEntry(out, id, Failed, Some(cause));
    var told := Settle(out, id, Failed, Some(cause));
    PoppedEntry(told, id);
    PumpAvoids(PopWrite(told, id), now, id);
  }

  lemma PoppedEntry(q: Queue, id: JobId)
    requires id in q.entries && q.entries[id].chain != []
    ensures
      var r := PopWrite(q, id);
      && r.queued == q.queued && r.active == q.active && r.starting == q.starting && id in r.entries
      && r.entries[id] == q.entries[id].(chain := q.entries[id].chain[1..])
  {
  }
}
