/**
 * What every atomic section of the queue keeps.
 *
 * The parts of the invariant are each bound to one name, `ok`, so that a proof carries a part as one fact.
 */
module QueueInvariant {
  import opened Jobs
  import opened Sequences
  import opened QueueSpec

  type Entries = map<JobId, Entry>

  // ---- Where a job is ----

  /** A job that has not ended is in exactly one place; one that has ended may only be awaiting a lane answer. */
  predicate Placed(s: JobState, queued: bool, starting: bool, active: bool, deciding: bool) {
    match s
    case Queued => queued != starting && !active && !deciding
    case Running => active != deciding && !queued && !starting
    case _ => !queued && !active && !deciding
  }

  ghost predicate Places(es: Entries, queued: seq<JobId>, starting: set<JobId>, active: set<JobId>, deciding: map<JobId, bool>) {
    var ok :=
      && NoDup(queued)
      && (forall id :: id in queued || id in starting || id in active || id in deciding ==> id in es)
      && (forall id :: id in es ==> es[id].id == id)
      && (forall id :: id in es ==> Placed(es[id].state, id in queued, id in starting, id in active, id in deciding));
    ok
  }

  // ---- Slots and lanes ----

  /** Each busy lane has one holder, and each job starting or running holds its lane. */
  ghost predicate Lanes(es: Entries, starting: set<JobId>, active: set<JobId>, holder: map<Lane, JobId>) {
    var ok :=
      && (forall id :: (id in starting || id in active) && id in es && es[id].lane.Some? ==>
           es[id].lane.value in holder && holder[es[id].lane.value] == id)
      && (forall lane :: lane in holder ==>
           (holder[lane] in starting || holder[lane] in active)
           && holder[lane] in es && es[holder[lane]].lane == Some(lane));
    ok
  }

  // ---- What is remembered ----

  ghost predicate History(es: Entries, known: set<JobId>, finished: seq<JobId>, limit: nat) {
    var ok :=
      && NoDup(finished) && |finished| <= limit
      && (forall id :: id in finished ==> id in known)
      && (forall id :: id in known ==> id in es)
      && (forall id :: id in es && !Terminal(es[id].state) ==> id in known && id !in finished)
      && (forall id :: id in es && Terminal(es[id].state) && id in known ==> id in finished);
    ok
  }

  // ---- What is being written ----

  predicate OpOk(cfg: Config, e: Entry, op: StoreOp) {
    match op
    case Create(_, job) => job.id == e.id && job.state == Queued
    case Save(_, job) => job.id == e.id && (job.state == Queued || job.state == Running) && (Shared(cfg) ==> Discreet(job))
    case Remove(_) => Terminal(e.state) && e.durability != Lost
    case Acquire(job) => job.id == e.id && job.state == Running && job.lane == e.lane
  }

  ghost predicate OnlyAcquire(chain: seq<StoreOp>, k: nat) {
    k < |chain| && forall j :: 0 <= j < |chain| ==> (chain[j].Acquire? <==> j == k)
  }

  ghost predicate ChainOk(cfg: Config, e: Entry, starting: bool) {
    && (forall k :: 0 <= k < |e.chain| ==> OpOk(cfg, e, e.chain[k]))
    && (forall k :: 1 <= k < |e.chain| ==> !e.chain[k].Create?)
    && (starting ==> exists k: nat :: OnlyAcquire(e.chain, k))
    && (!starting ==> forall k :: 0 <= k < |e.chain| ==> !e.chain[k].Acquire?)
    && (starting && !Terminal(e.state) ==> e.chain != [] && e.chain[|e.chain| - 1] == Acquire(ClaimOf(e)))
  }

  /** What holds of a job's flags whether or not it has ended. */
  predicate BaseFlags(cfg: Config, e: Entry, starting: bool) {
    && (e.durability == Unstored <==> !cfg.hasStore)
    && (e.durability == Unstored ==> e.chain == [])
    && (e.leaseLost <==> e.durability == Lost)
    && (e.cancelRequested ==> e.aborted)
    && (e.chain != [] && e.chain[0].Create? ==> e.durability == Pending && !starting)
  }

  predicate FlagsOk(cfg: Config, e: Entry, starting: bool) {
    && BaseFlags(cfg, e, starting)
    && (!Terminal(e.state) ==>
      && (e.leaseLost ==> e.aborted && !starting)
      && (e.cancelRequested ==> e.state == Running)
      && (e.durability == Pending ==> e.state == Queued && !starting && |e.chain| == 1 && e.chain[0].Create?)
      && (Shared(cfg) && e.lane.Some? && (e.state == Running || e.leaseLost) ==> e.chain == []))
  }

  /** Under a backoff policy: the handler calls made so far, and whether another may still be coming. */
  predicate InBudget(cfg: Config, e: Entry) {
    cfg.maxAttempts.Some? ==>
      && (e.state == Queued ==> e.attempt == e.born || e.attempt < cfg.maxAttempts.value)
      && e.born <= e.attempt <= Max(e.born + 1, cfg.maxAttempts.value)
  }

  ghost predicate EntryOk(cfg: Config, e: Entry, starting: bool) {
    var ok := ChainOk(cfg, e, starting) && FlagsOk(cfg, e, starting) && InBudget(cfg, e);
    ok
  }

  ghost predicate Records(cfg: Config, es: Entries, starting: set<JobId>) {
    forall id :: id in es ==> EntryOk(cfg, es[id], id in starting)
  }

  // ---- What is counted ----

  predicate Counts(op: StoreOp, t: nat) {
    !op.Acquire? && op.ticket == t
  }

  ghost predicate Chained(chain: seq<StoreOp>, t: nat) {
    exists k :: 0 <= k < |chain| && Counts(chain[k], t)
  }

  /** The writes counted are exactly the writes chained: each has its own token, and no token is left over. */
  ghost predicate Tickets(es: Entries, writes: map<nat, JobId>, next: nat) {
    var ok :=
      && (forall t :: t in writes ==> t < next && writes[t] in es && Chained(es[writes[t]].chain, t))
      && (forall id :: id in es ==> Tokened(id, es[id].chain, writes));
    ok
  }

  ghost predicate Tokened(id: JobId, chain: seq<StoreOp>, writes: map<nat, JobId>) {
    && (forall k :: 0 <= k < |chain| && !chain[k].Acquire? ==> chain[k].ticket in writes && writes[chain[k].ticket] == id)
    && (forall j, k :: 0 <= j < k < |chain| && !chain[j].Acquire? ==> !Counts(chain[k], chain[j].ticket))
  }

  // ---- Beats ----

  /** A beat asks about jobs the store had accepted. */
  ghost predicate BeatsOk(es: Entries, beats: map<nat, Beat>) {
    forall n, id :: n in beats && beats[n].Renewing? && id in beats[n].ids ==>
      id in es && es[id].durability != Pending && es[id].durability != Unstored
  }

  // ---- The invariant ----

  ghost predicate Inv(q: Queue) {
    var ok :=
      && ValidConfig(q.cfg)
      && Places(q.entries, q.queued, q.starting, q.active, q.deciding)
      && |q.active| + |q.starting| <= q.cfg.concurrency
      && Lanes(q.entries, q.starting, q.active, q.holder)
      && History(q.entries, q.known, q.finished, q.cfg.historyLimit)
      && Records(q.cfg, q.entries, q.starting)
      && Tickets(q.entries, q.writes, q.nextTicket)
      && BeatsOk(q.entries, q.beats);
    ok
  }

  lemma FreshInv(cfg: Config, paused: bool)
    requires ValidConfig(cfg)
    ensures Inv(Fresh(cfg, paused))
  {
  }

  // ---- One entry at a time: what each part of the invariant asks of a step ----

  lemma PlacesStep(es: Entries, queued: seq<JobId>, starting: set<JobId>, active: set<JobId>, deciding: map<JobId, bool>,
                   e: Entry, queued': seq<JobId>, starting': set<JobId>, active': set<JobId>, deciding': map<JobId, bool>)
    requires Places(es, queued, starting, active, deciding)
    requires NoDup(queued')
    requires forall id :: id != e.id ==>
      (id in queued' <==> id in queued) && (id in starting' <==> id in starting)
      && (id in active' <==> id in active) && (id in deciding' <==> id in deciding)
    requires Placed(e.state, e.id in queued', e.id in starting', e.id in active', e.id in deciding')
    ensures Places(es[e.id := e], queued', starting', active', deciding')
  {
  }

  /** The job keeps whatever it held, or held nothing and still does. */
  lemma LanesKept(es: Entries, starting: set<JobId>, active: set<JobId>, holder: map<Lane, JobId>, e: Entry,
                  starting': set<JobId>, active': set<JobId>)
    requires Lanes(es, starting, active, holder)
    requires forall id :: (id in starting' || id in active') <==> (id in starting || id in active)
    requires if e.id in es then es[e.id].lane == e.lane else e.id !in starting && e.id !in active
    ensures Lanes(es[e.id := e], starting', active', holder)
  {
  }

  lemma LanesTaken(es: Entries, starting: set<JobId>, active: set<JobId>, holder: map<Lane, JobId>, e: Entry,
                   starting': set<JobId>, active': set<JobId>)
    requires Lanes(es, starting, active, holder)
    requires e.id in es && es[e.id].lane == e.lane && e.id !in starting && e.id !in active
    requires e.lane.Some? ==> e.lane.value !in holder
    requires e.id in starting' || e.id in active'
    requires forall id :: id != e.id ==> ((id in starting' || id in active') <==> (id in starting || id in active))
    ensures Lanes(es[e.id := e], starting', active', if e.lane.Some? then holder[e.lane.value := e.id] else holder)
  {
  }

  lemma LanesGivenBack(es: Entries, starting: set<JobId>, active: set<JobId>, holder: map<Lane, JobId>, id: JobId)
    requires Lanes(es, starting, active, holder)
    requires id in es && (id in starting || id in active)
    ensures Lanes(es, starting - {id}, active - {id},
                  if es[id].lane.Some? then holder - {es[id].lane.value} else holder)
    ensures es[id].lane.Some? ==> es[id].lane.value in holder
  {
  }

  lemma HistoryKept(es: Entries, known: set<JobId>, finished: seq<JobId>, limit: nat, e: Entry)
    requires History(es, known, finished, limit)
    requires e.id in es && (Terminal(e.state) <==> Terminal(es[e.id].state))
    ensures History(es[e.id := e], known, finished, limit)
  {
  }

  lemma HistoryJoined(es: Entries, known: set<JobId>, finished: seq<JobId>, limit: nat, e: Entry)
    requires History(es, known, finished, limit)
    requires e.id !in es && !Terminal(e.state)
    ensures History(es[e.id := e], known + {e.id}, finished, limit)
  {
    assert e.id !in finished;
  }

  lemma HistoryBounded(es: Entries, known: set<JobId>, finished: seq<JobId>, limit: nat)
    requires History(es, known, finished, limit)
    ensures |finished| <= limit
  {
  }

  /** Remembering one more job evicts the oldest past the limit, and nothing else. */
  lemma HistoryEnded(es: Entries, known: set<JobId>, finished: seq<JobId>, limit: nat, e: Entry)
    requires History(es, known, finished, limit)
    requires e.id in es && !Terminal(es[e.id].state) && Terminal(e.state)
    ensures
      var all := finished + [e.id];
      if |all| <= limit then History(es[e.id := e], known, all, limit)
      else |all[1..]| <= limit && History(es[e.id := e], known - {all[0]}, all[1..], limit)
  {
    AppendNoDup(finished, e.id);
    TailNoDup(finished + [e.id]);
    var all := finished + [e.id];
    assert forall id :: id in all <==> id == all[0] || id in all[1..];
  }

  lemma RecordsStep(cfg: Config, es: Entries, starting: set<JobId>, e: Entry, starting': set<JobId>)
    requires Records(cfg, es, starting)
    requires forall id :: id != e.id ==> (id in starting' <==> id in starting)
    requires EntryOk(cfg, e, e.id in starting')
    ensures Records(cfg, es[e.id := e], starting')
  {
  }

  lemma TicketsKept(es: Entries, writes: map<nat, JobId>, next: nat, e: Entry)
    requires Tickets(es, writes, next)
    requires if e.id in es then es[e.id].chain == e.chain else e.chain == []
    ensures Tickets(es[e.id := e], writes, next)
  {
  }

  lemma TicketsChained(es: Entries, writes: map<nat, JobId>, next: nat, e: Entry, op: StoreOp)
    requires Tickets(es, writes, next)
    requires e.chain == (if e.id in es then es[e.id].chain else []) + [op]
    requires !op.Acquire? && op.ticket == next
    ensures Tickets(es[e.id := e], writes[next := e.id], next + 1)
  {
    var before := if e.id in es then es[e.id].chain else [];
    var es', writes' := es[e.id := e], writes[next := e.id];
    assert Counts(e.chain[|before|], next);
    forall t | t in writes' ensures t < next + 1 && writes'[t] in es' && Chained(es'[writes'[t]].chain, t) {
      if t != next && writes[t] == e.id { ChainedGrows(before, op, t); }
    }
    forall id | id in es' ensures Tokened(id, es'[id].chain, writes') {
      if id in es { assert Tokened(id, es[id].chain, writes); }
    }
  }

  lemma ChainedGrows(chain: seq<StoreOp>, op: StoreOp, t: nat)
    requires Chained(chain, t)
    ensures Chained(chain + [op], t)
  {
    var k :| 0 <= k < |chain| && Counts(chain[k], t);
    assert (chain + [op])[k] == chain[k];
  }

  lemma TicketsAsked(es: Entries, writes: map<nat, JobId>, next: nat, e: Entry, op: StoreOp)
    requires Tickets(es, writes, next)
    requires e.id in es && e.chain == es[e.id].chain + [op] && op.Acquire?
    ensures Tickets(es[e.id := e], writes, next)
  {
    var es' := es[e.id := e];
    forall t | t in writes ensures Chained(es'[writes[t]].chain, t) {
      if writes[t] == e.id { ChainedGrows(es[e.id].chain, op, t); }
    }
    forall id | id in es' ensures Tokened(id, es'[id].chain, writes) {
      assert Tokened(id, es[id].chain, writes);
    }
  }

  lemma TicketsPopped(es: Entries, writes: map<nat, JobId>, next: nat, e: Entry)
    requires Tickets(es, writes, next)
    requires e.id in es && es[e.id].chain != [] && e.chain == es[e.id].chain[1..]
    ensures
      var head := es[e.id].chain[0];
      Tickets(es[e.id := e], if head.Acquire? then writes else writes - {head.ticket}, next)
  {
    var before := es[e.id].chain;
    var head := before[0];
    var writes' := if head.Acquire? then writes else writes - {head.ticket};
    var es' := es[e.id := e];
    assert Tokened(e.id, before, writes);
    assert forall k :: 0 <= k < |e.chain| ==> e.chain[k] == before[k + 1];
    forall t | t in writes' ensures writes'[t] in es' && Chained(es'[writes'[t]].chain, t) {
      if writes[t] == e.id {
        var k :| 0 <= k < |before| && Counts(before[k], t);
        assert Counts(e.chain[k - 1], t);
      }
    }
    forall id | id in es' ensures Tokened(id, es'[id].chain, writes') {
      assert Tokened(id, es[id].chain, writes);
      if id != e.id && !head.Acquire? {
        assert forall k :: 0 <= k < |es[id].chain| && !es[id].chain[k].Acquire? ==> es[id].chain[k].ticket != head.ticket;
      }
    }
  }

  /** Once the store has accepted a job, it is never again waiting for its first write. */
  lemma BeatsKept(es: Entries, beats: map<nat, Beat>, e: Entry)
    requires BeatsOk(es, beats)
    requires e.id in es ==> e.durability == es[e.id].durability || e.durability == Stored || e.durability == Lost
    ensures BeatsOk(es[e.id := e], beats)
  {
  }

  /** What the invariant says of one job. */
  lemma Here(q: Queue, id: JobId)
    requires Inv(q) && id in q.entries
    ensures
      var e := q.entries[id];
      && e.id == id
      && Placed(e.state, id in q.queued, id in q.starting, id in q.active, id in q.deciding)
      && EntryOk(q.cfg, e, id in q.starting)
      && (!Terminal(e.state) ==> id in q.known)
    ensures NoDup(q.queued) && |q.finished| <= q.cfg.historyLimit
  {
  }

  // ---- Writes ----

  function Written(e: Entry, ticket: nat, save: bool): (r: Entry)
    ensures r == e.(chain := r.chain)
  {
    if Silent(e) then e
    else e.(chain := e.chain + [if save then Save(ticket, Record(e)) else Remove(ticket)])
  }

  lemma Overwritten(es: Entries, id: JobId, a: Entry, b: Entry)
    ensures es[id := a][id := b] == es[id := b]
  {
  }

  lemma PersistShape(q: Queue, e: Entry, save: bool)
    ensures
      Persist(q.(entries := q.entries[e.id := e]), e.id, save)
      == q.(entries := q.entries[e.id := Written(e, q.nextTicket, save)],
            writes := if Silent(e) then q.writes else q.writes[q.nextTicket := e.id],
            nextTicket := if Silent(e) then q.nextTicket else q.nextTicket + 1)
  {
    Overwritten(q.entries, e.id, e, Written(e, q.nextTicket, save));
  }

  /** A write chained for an entry just changed, whose chain was left alone until now. */
  lemma PersistTickets(q: Queue, e: Entry, save: bool)
    requires Tickets(q.entries, q.writes, q.nextTicket)
    requires e.chain == if e.id in q.entries then q.entries[e.id].chain else []
    ensures
      var r := Persist(q.(entries := q.entries[e.id := e]), e.id, save);
      Tickets(r.entries, r.writes, r.nextTicket)
  {
    hide Tickets;
    var e' := Written(e, q.nextTicket, save);
    PersistShape(q, e, save);
    if Silent(e) { TicketsKept(q.entries, q.writes, q.nextTicket, e); }
    else {
      TicketsChained(q.entries, q.writes, q.nextTicket, e', if save then Save(q.nextTicket, Record(e)) else Remove(q.nextTicket));
    }
  }

  /** `e` as it is once it has settled. */
  function Over(e: Entry, outcome: JobState, error: Option<string>): Entry {
    e.(state := outcome, error := if outcome == Failed then error else e.error)
  }

  lemma SettleEntries(q: Queue, id: JobId, outcome: JobState, error: Option<string>)
    requires id in q.entries && !Terminal(q.entries[id].state) && Terminal(outcome)
    requires q.entries[id].id == id
    ensures Settle(q, id, outcome, error).entries
      == q.entries[id := Written(Over(q.entries[id], outcome, error), q.nextTicket, false)]
  {
    hide Persist, Written;
    PersistShape(q, Over(q.entries[id], outcome, error), false);
  }

  lemma EvictOnce(q: Queue)
    requires |q.finished| <= q.cfg.historyLimit + 1
    ensures Evict(q) ==
      if |q.finished| <= q.cfg.historyLimit then q
      else q.(finished := q.finished[1..], known := q.known - {q.finished[0]})
  {
    if |q.finished| > q.cfg.historyLimit {
      var q1 := q.(finished := q.finished[1..], known := q.known - {q.finished[0]});
      assert Evict(q1) == q1;
    }
  }

  /** Settling changes the entry, the history and the writes, and nothing else. */
  lemma SettleShape(q: Queue, e: Entry, outcome: JobState, error: Option<string>)
    requires !Terminal(e.state) && Terminal(outcome) && |q.finished| <= q.cfg.historyLimit
    ensures
      var all := q.finished + [e.id];
      var kept := |all| <= q.cfg.historyLimit;
      Settle(q.(entries := q.entries[e.id := e]), e.id, outcome, error)
      == Persist(q.(entries := q.entries[e.id := Over(e, outcome, error)]), e.id, false).(
           known := if kept then q.known else q.known - {all[0]},
           finished := if kept then all else all[1..])
  {
    hide Persist, Evict, Written;
    var over := Over(e, outcome, error);
    var q0, q1 := q.(entries := q.entries[e.id := e]), q.(entries := q.entries[e.id := over]);
    Overwritten(q.entries, e.id, e, over);
    assert q0.entries[e.id] == e;
    assert Settle(q0, e.id, outcome, error) == Remember(Persist(q1, e.id, false), e.id);
    PersistShape(q, over, false);
    var q2 := Persist(q1, e.id, false);
    assert q2.finished == q.finished && q2.known == q.known && q2.cfg == q.cfg;
    EvictOnce(q2.(finished := q2.finished + [e.id]));
  }

  lemma SettleParts(q: Queue, e: Entry, outcome: JobState, error: Option<string>)
    requires Tickets(q.entries, q.writes, q.nextTicket)
    requires History(q.entries, q.known, q.finished, q.cfg.historyLimit)
    requires e.id in q.entries && e.chain == q.entries[e.id].chain
    requires !Terminal(q.entries[e.id].state) && !Terminal(e.state) && Terminal(outcome)
    ensures
      var r := Settle(q.(entries := q.entries[e.id := e]), e.id, outcome, error);
      && r == q.(entries := q.entries[e.id := Written(Over(e, outcome, error), q.nextTicket, false)],
                 known := r.known, finished := r.finished, writes := r.writes, nextTicket := r.nextTicket)
      && Tickets(r.entries, r.writes, r.nextTicket)
      && History(r.entries, r.known, r.finished, r.cfg.historyLimit)
  {
    hide Tickets, History, Settle, Persist, Evict, Written;
    HistoryBounded(q.entries, q.known, q.finished, q.cfg.historyLimit);
    var over := Over(e, outcome, error);
    HistoryEnded(q.entries, q.known, q.finished, q.cfg.historyLimit, Written(over, q.nextTicket, false));
    SettleShape(q, e, outcome, error);
    PersistTickets(q, over, false);
    PersistShape(q, over, false);
  }

  // ---- One entry: each change it goes through keeps its own part ----

  lemma AskedOk(cfg: Config, e: Entry)
    requires EntryOk(cfg, e, false)
    requires e.state == Queued && SharesLanes(cfg, e)
    ensures
      var e' := e.(chain := e.chain + [Acquire(ClaimOf(e))]);
      EntryOk(cfg, e', true)
  {
    var e' := e.(chain := e.chain + [Acquire(ClaimOf(e))]);
    assert OnlyAcquire(e'.chain, |e.chain|);
    assert forall k :: 0 <= k < |e.chain| ==> e'.chain[k] == e.chain[k];
    assert ClaimOf(e') == ClaimOf(e);
  }

  /** `e` as its handler starts. */
  function Going(e: Entry): Entry {
    e.(state := Running, attempt := e.attempt + 1, notBefore := None, dueAt := None)
  }

  lemma BegunOk(cfg: Config, e: Entry, ticket: nat)
    requires ValidConfig(cfg) && EntryOk(cfg, e, false)
    requires e.state == Queued && e.durability != Pending && !SharesLanes(cfg, e)
    ensures
      var e' := Written(Going(e), ticket, true);
      EntryOk(cfg, e', false)
  {
    var e' := Written(Going(e), ticket, true);
    assert forall k :: 0 <= k < |e.chain| ==> e'.chain[k] == e.chain[k];
  }

  lemma ClaimedOk(cfg: Config, e: Entry)
    requires EntryOk(cfg, e, true)
    requires e.state == Queued && e.chain != [] && e.chain[0].Acquire?
    ensures e.chain[1..] == []
    ensures
      var e' := Going(e.(chain := e.chain[1..]));
      EntryOk(cfg, e', false)
  {
    var k: nat :| OnlyAcquire(e.chain, k);
    assert e.chain[|e.chain| - 1].Acquire?;
  }

  /** The job after its lane answer, the claim gone from its chain. */
  lemma AnsweredOk(cfg: Config, e: Entry, due: Option<int>)
    requires EntryOk(cfg, e, true)
    requires e.chain != [] && e.chain[0].Acquire?
    requires e.state == Queued || Terminal(e.state)
    ensures
      var e' := e.(chain := e.chain[1..], dueAt := due);
      EntryOk(cfg, e', false)
  {
    var k: nat :| OnlyAcquire(e.chain, k);
    var e' := e.(chain := e.chain[1..], dueAt := due);
    assert forall j :: 0 <= j < |e'.chain| ==> e'.chain[j] == e.chain[j + 1];
  }

  lemma EndedOk(cfg: Config, e: Entry, outcome: JobState, error: Option<string>, ticket: nat, starting: bool)
    requires ChainOk(cfg, e, starting) && BaseFlags(cfg, e, starting) && InBudget(cfg, e) && Terminal(outcome)
    ensures
      var e' := Written(Over(e, outcome, error), ticket, false);
      EntryOk(cfg, e', starting)
  {
    var e' := Written(Over(e, outcome, error), ticket, false);
    assert forall k :: 0 <= k < |e.chain| ==> e'.chain[k] == e.chain[k];
    if starting {
      var k: nat :| OnlyAcquire(e.chain, k);
      assert OnlyAcquire(e'.chain, k);
    }
  }

  lemma PoppedOk(cfg: Config, e: Entry, starting: bool)
    requires EntryOk(cfg, e, starting)
    requires e.chain != [] && !e.chain[0].Acquire? && (e.chain[0].Create? ==> Terminal(e.state))
    ensures
      var e' := e.(chain := e.chain[1..]);
      EntryOk(cfg, e', starting)
  {
    var e' := e.(chain := e.chain[1..]);
    assert forall j :: 0 <= j < |e'.chain| ==> e'.chain[j] == e.chain[j + 1];
    assert ClaimOf(e') == ClaimOf(e);
    if starting {
      var k: nat :| OnlyAcquire(e.chain, k);
      assert OnlyAcquire(e'.chain, k - 1);
    }
  }

  lemma LandedOk(cfg: Config, e: Entry)
    requires EntryOk(cfg, e, false)
    requires e.chain != [] && e.chain[0].Create?
    ensures
      var e' := e.(durability := Stored, chain := e.chain[1..]);
      EntryOk(cfg, e', false)
  {
    var e' := e.(durability := Stored, chain := e.chain[1..]);
    assert forall j :: 0 <= j < |e'.chain| ==> e'.chain[j] == e.chain[j + 1];
  }

  /** `e` as it goes back in line. */
  function Waits(e: Entry, cause: string, delayMs: nat, now: int): Entry {
    e.(state := Queued, error := Some(cause), notBefore := Some(now + delayMs), dueAt := Some(now + delayMs))
  }

  lemma WaitsOk(cfg: Config, e: Entry, cause: string, delayMs: nat, now: int, ticket: nat)
    requires EntryOk(cfg, e, false)
    requires e.state == Running && !e.cancelRequested
    requires cfg.maxAttempts.Some? ==> e.attempt < cfg.maxAttempts.value
    ensures
      var e' := Written(Waits(e, cause, delayMs, now), ticket, true);
      EntryOk(cfg, e', false)
  {
    var e' := Written(Waits(e, cause, delayMs, now), ticket, true);
    assert forall k :: 0 <= k < |e.chain| ==> e'.chain[k] == e.chain[k];
  }

  lemma SignalledOk(cfg: Config, e: Entry)
    requires EntryOk(cfg, e, false) && e.state == Running
    ensures
      var e' := e.(cancelRequested := true, aborted := true);
      EntryOk(cfg, e', false)
    ensures e.durability != Unstored ==>
      var e' := e.(durability := Lost, leaseLost := true, aborted := true);
      EntryOk(cfg, e', false)
  {
  }

  // ---- One section's step at a time ----

  lemma AskInv(q: Queue, k: nat, now: int)
    requires Inv(q) && k < |q.queued| && Eligible(q, now, q.queued[k]) && SlotFree(q)
    requires SharesLanes(q.cfg, q.entries[q.queued[k]])
    ensures Inv(Launch(q, k))
  {
    hide Places, Lanes, History, Records, Tickets, BeatsOk, NoDup, EntryOk, DropAt;
    var id := q.queued[k];
    var e := q.entries[id];
    assert id in q.queued;
    Here(q, id);
    DropAtNoDup(q.queued, k);
    AskedOk(q.cfg, e);
    var e' := e.(chain := e.chain + [Acquire(ClaimOf(e))]);
    var queued' := DropAt(q.queued, k);
    var starting' := q.starting + {id};
    assert Launch(q, k) == q.(queued := queued', entries := q.entries[id := e'], starting := starting',
                              holder := q.holder[e.lane.value := id]);
    PlacesStep(q.entries, q.queued, q.starting, q.active, q.deciding, e', queued', starting', q.active, q.deciding);
    LanesTaken(q.entries, q.starting, q.active, q.holder, e', starting', q.active);
    HistoryKept(q.entries, q.known, q.finished, q.cfg.historyLimit, e');
    RecordsStep(q.cfg, q.entries, q.starting, e', starting');
    TicketsAsked(q.entries, q.writes, q.nextTicket, e', Acquire(ClaimOf(e)));
    BeatsKept(q.entries, q.beats, e');
  }

  lemma BeginShape(q: Queue, e: Entry, claimed: bool)
    ensures
      Begin(q.(entries := q.entries[e.id := e]), e.id, claimed)
      == q.(entries := q.entries[e.id := if claimed then Going(e) else Written(Going(e), q.nextTicket, true)],
            writes := if claimed || Silent(e) then q.writes else q.writes[q.nextTicket := e.id],
            nextTicket := if claimed || Silent(e) then q.nextTicket else q.nextTicket + 1,
            active := q.active + {e.id},
            holder := if e.lane.Some? then q.holder[e.lane.value := e.id] else q.holder)
  {
    hide Persist, Written;
    var base := q.(active := q.active + {e.id},
                   holder := if e.lane.Some? then q.holder[e.lane.value := e.id] else q.holder);
    PersistShape(base, Going(e), true);
    Overwritten(q.entries, e.id, e, Going(e));
  }

  lemma BeginInv(q: Queue, k: nat, now: int)
    requires Inv(q) && k < |q.queued| && Eligible(q, now, q.queued[k]) && SlotFree(q)
    requires !SharesLanes(q.cfg, q.entries[q.queued[k]])
    ensures Inv(Launch(q, k))
  {
    hide Places, Lanes, History, Records, Tickets, BeatsOk, NoDup, EntryOk, DropAt, Begin, Written;
    var id := q.queued[k];
    var e := q.entries[id];
    assert id in q.queued;
    Here(q, id);
    DropAtNoDup(q.queued, k);
    BegunOk(q.cfg, e, q.nextTicket);
    var e' := Written(Going(e), q.nextTicket, true);
    var queued' := DropAt(q.queued, k);
    var active' := q.active + {id};
    assert q.entries[id := e] == q.entries;
    var taken := q.(queued := queued');
    assert taken.(entries := taken.entries[id := e]) == taken;
    BeginShape(taken, e, false);
    PersistTickets(q, Going(e), true);
    PersistShape(q, Going(e), true);
    PlacesStep(q.entries, q.queued, q.starting, q.active, q.deciding, e', queued', q.starting, active', q.deciding);
    LanesTaken(q.entries, q.starting, q.active, q.holder, e', q.starting, active');
    HistoryKept(q.entries, q.known, q.finished, q.cfg.historyLimit, e');
    RecordsStep(q.cfg, q.entries, q.starting, e', q.starting);
    BeatsKept(q.entries, q.beats, e');
  }

  lemma LaunchInv(q: Queue, k: nat, now: int)
    requires Inv(q) && k < |q.queued| && Eligible(q, now, q.queued[k]) && SlotFree(q)
    ensures Inv(Launch(q, k))
  {
    hide Inv, Launch, Eligible, SlotFree;
    assert q.queued[k] in q.entries by { EligibleKnown(q, now, q.queued[k]); }
    if SharesLanes(q.cfg, q.entries[q.queued[k]]) { AskInv(q, k, now); } else { BeginInv(q, k, now); }
  }

  lemma EligibleKnown(q: Queue, now: int, id: JobId)
    requires Eligible(q, now, id)
    ensures id in q.entries
  {
  }

  lemma {:induction false} FillInv(q: Queue, now: int)
    requires Inv(q)
    ensures Inv(Fill(q, now))
    decreases |q.queued|
  {
    hide Inv;
    var best := Best(q, now, |q.queued|);
    if SlotFree(q) && best != -1 {
      LaunchInv(q, best, now);
      assert |Launch(q, best).queued| < |q.queued|;
      FillInv(Launch(q, best), now);
    }
  }

  /** The timers and the waiters are no part of the invariant. */
  lemma PumpInv(q: Queue, now: int)
    requires Inv(q)
    ensures Inv(Pump(q, now))
  {
    hide Places, Lanes, History, Records, Tickets, BeatsOk, Fill;
    FillInv(q, now);
  }

  /** A new entry goes to the back of the line. */
  lemma AddQueuedInv(q: Queue, e: Entry)
    requires Inv(q) && e.id !in q.entries && e.state == Queued && e.chain == []
    requires EntryOk(q.cfg, e, false)
    ensures Inv(AddQueued(q, e))
  {
    hide Lanes, History, Records, Tickets, BeatsOk, NoDup, EntryOk;
    NotPlaced(q, e.id);
    AppendNoDup(q.queued, e.id);
    var queued' := q.queued + [e.id];
    PlacesStep(q.entries, q.queued, q.starting, q.active, q.deciding, e, queued', q.starting, q.active, q.deciding);
    LanesKept(q.entries, q.starting, q.active, q.holder, e, q.starting, q.active);
    HistoryJoined(q.entries, q.known, q.finished, q.cfg.historyLimit, e);
    RecordsStep(q.cfg, q.entries, q.starting, e, q.starting);
    TicketsKept(q.entries, q.writes, q.nextTicket, e);
    BeatsKept(q.entries, q.beats, e);
  }

  lemma NotPlaced(q: Queue, id: JobId)
    requires Inv(q) && id !in q.entries
    ensures id !in q.queued && id !in q.starting && id !in q.active && id !in q.deciding && NoDup(q.queued)
  {
  }

  lemma CreateInv(q: Queue, job: StoredJob)
    requires Inv(q) && job.id !in q.entries
    ensures
      var (q', e) := Created(q, NewEntry(q.cfg, job));
      Inv(AddQueued(q', e))
  {
    var e0 := NewEntry(q.cfg, job);
    if !q.cfg.hasStore { AddQueuedInv(q, e0); }
    else { CreateStoredInv(q, e0); }
  }

  lemma CreateStoredInv(q: Queue, e0: Entry)
    requires Inv(q) && e0.id !in q.entries && q.cfg.hasStore
    requires e0.state == Queued && e0.durability == Pending && e0.chain == []
    requires !e0.leaseLost && !e0.cancelRequested && e0.born == e0.attempt
    ensures
      var (q', e) := Created(q, e0);
      Inv(AddQueued(q', e))
  {
    hide Lanes, History, Records, Tickets, BeatsOk, NoDup;
    var op := Create(q.nextTicket, Record(e0));
    var e := e0.(chain := [op]);
    NotPlaced(q, e.id);
    AppendNoDup(q.queued, e.id);
    var queued' := q.queued + [e.id];
    PlacesStep(q.entries, q.queued, q.starting, q.active, q.deciding, e, queued', q.starting, q.active, q.deciding);
    LanesKept(q.entries, q.starting, q.active, q.holder, e, q.starting, q.active);
    HistoryJoined(q.entries, q.known, q.finished, q.cfg.historyLimit, e);
    RecordsStep(q.cfg, q.entries, q.starting, e, q.starting);
    TicketsChained(q.entries, q.writes, q.nextTicket, e, op);
    BeatsKept(q.entries, q.beats, e);
  }

  /** Settling a queued job, whether it is in line or awaiting its lane; `e` is the job as it settles. */
  lemma WithdrawInv(q: Queue, e: Entry, outcome: JobState, error: Option<string>)
    requires Inv(q) && e.id in q.entries && q.entries[e.id].state == Queued && Terminal(outcome)
    requires e.state == Queued && e.chain == q.entries[e.id].chain && e.lane == q.entries[e.id].lane
    requires e.durability == q.entries[e.id].durability || e.durability == Lost
    requires BaseFlags(q.cfg, e, e.id in q.starting) && ChainOk(q.cfg, e, e.id in q.starting) && InBudget(q.cfg, e)
    ensures Inv(Withdraw(q.(entries := q.entries[e.id := e]), e.id, outcome, error))
  {
    hide Places, Lanes, History, Records, Tickets, BeatsOk, NoDup, EntryOk, BaseFlags, Settle, Without, Written;
    var id := e.id;
    Here(q, id);
    WithoutNoDup(q.queued, id);
    var queued' := Without(q.queued, id);
    var q1 := q.(queued := queued');
    var e' := Written(Over(e, outcome, error), q.nextTicket, false);
    EndedOk(q.cfg, e, outcome, error, q.nextTicket, id in q.starting);
    SettleParts(q1, e, outcome, error);
    PlacesStep(q.entries, q.queued, q.starting, q.active, q.deciding, e', queued', q.starting, q.active, q.deciding);
    LanesKept(q.entries, q.starting, q.active, q.holder, e', q.starting, q.active);
    RecordsStep(q.cfg, q.entries, q.starting, e', q.starting);
    BeatsKept(q.entries, q.beats, e');
  }

  /** A job that stays where it is may change its flags, its chain and its error. */
  lemma SwapInv(q: Queue, e: Entry, writes: map<nat, JobId>, next: nat)
    requires Inv(q) && e.id in q.entries
    requires e.state == q.entries[e.id].state && e.lane == q.entries[e.id].lane
    requires e.durability == q.entries[e.id].durability || e.durability == Stored || e.durability == Lost
    requires EntryOk(q.cfg, e, e.id in q.starting)
    requires Tickets(q.entries[e.id := e], writes, next)
    ensures Inv(q.(entries := q.entries[e.id := e], writes := writes, nextTicket := next))
  {
    hide Places, Lanes, History, Records, Tickets, BeatsOk, NoDup, EntryOk;
    Here(q, e.id);
    PlacesStep(q.entries, q.queued, q.starting, q.active, q.deciding, e, q.queued, q.starting, q.active, q.deciding);
    LanesKept(q.entries, q.starting, q.active, q.holder, e, q.starting, q.active);
    HistoryKept(q.entries, q.known, q.finished, q.cfg.historyLimit, e);
    RecordsStep(q.cfg, q.entries, q.starting, e, q.starting);
    BeatsKept(q.entries, q.beats, e);
  }

  lemma Ticketed(q: Queue)
    requires Inv(q)
    ensures Tickets(q.entries, q.writes, q.nextTicket)
  {
  }

  /** A write other than a lane claim leaves the chain. */
  lemma PopInv(q: Queue, id: JobId)
    requires Inv(q) && id in q.entries && q.entries[id].chain != [] && !q.entries[id].chain[0].Acquire?
    requires q.entries[id].chain[0].Create? ==> Terminal(q.entries[id].state)
    ensures Inv(PopWrite(q, id))
  {
    hide Inv, Tickets, NoDup, EntryOk, Placed;
    Here(q, id);
    var e := q.entries[id];
    var e' := e.(chain := e.chain[1..]);
    PoppedOk(q.cfg, e, id in q.starting);
    Ticketed(q);
    TicketsPopped(q.entries, q.writes, q.nextTicket, e');
    SwapInv(q, e', q.writes - {e.chain[0].ticket}, q.nextTicket);
  }

  lemma LandedInv(q: Queue, id: JobId)
    requires Inv(q) && id in q.entries && id !in q.starting
    requires q.entries[id].chain != [] && q.entries[id].chain[0].Create?
    ensures Inv(PopWrite(q.(entries := q.entries[id := q.entries[id].(durability := Stored)]), id))
  {
    hide Inv, Tickets, NoDup, EntryOk, Placed;
    Here(q, id);
    var e := q.entries[id];
    var e' := e.(durability := Stored, chain := e.chain[1..]);
    LandedOk(q.cfg, e);
    Overwritten(q.entries, id, e.(durability := Stored), e');
    Ticketed(q);
    TicketsPopped(q.entries, q.writes, q.nextTicket, e');
    SwapInv(q, e', q.writes - {e.chain[0].ticket}, q.nextTicket);
  }

  /** A running job is signalled, because it was cancelled or because its claim was lost. */
  lemma SignalInv(q: Queue, id: JobId, e: Entry)
    requires Inv(q) && id in q.entries && q.entries[id].state == Running
    requires
      || e == q.entries[id].(cancelRequested := true, aborted := true)
      || (e == q.entries[id].(durability := Lost, leaseLost := true, aborted := true) && q.entries[id].durability != Unstored)
    ensures Inv(q.(entries := q.entries[id := e]))
  {
    hide Inv, Tickets, NoDup, EntryOk;
    Here(q, id);
    SignalledOk(q.cfg, q.entries[id]);
    Ticketed(q);
    TicketsKept(q.entries, q.writes, q.nextTicket, e);
    SwapInv(q, e, q.writes, q.nextTicket);
  }

  // ---- The lane answer ----

  lemma HoldsLane(q: Queue, id: JobId)
    requires Inv(q) && id in q.entries && (id in q.starting || id in q.active) && q.entries[id].lane.Some?
    ensures q.entries[id].lane.value in q.holder && q.holder[q.entries[id].lane.value] == id
  {
  }

  function HolderWithout(q: Queue, e: Entry): map<Lane, JobId> {
    if e.lane.Some? then q.holder - {e.lane.value} else q.holder
  }

  lemma AnsweredShape(q: Queue, id: JobId)
    requires id in q.entries && q.entries[id].chain != [] && q.entries[id].chain[0].Acquire?
    ensures Release(PopWrite(q, id), id)
      == q.(entries := q.entries[id := q.entries[id].(chain := q.entries[id].chain[1..])],
            starting := q.starting - {id}, active := q.active - {id}, holder := HolderWithout(q, q.entries[id]))
  {
  }

  lemma GrantedShape(q: Queue, id: JobId)
    requires id in q.entries && q.entries[id].id == id && q.entries[id].chain != [] && q.entries[id].chain[0].Acquire?
    requires q.entries[id].lane.Some? ==>
      q.entries[id].lane.value in q.holder && q.holder[q.entries[id].lane.value] == id
    ensures Begin(Release(PopWrite(q, id), id), id, true)
      == q.(entries := q.entries[id := Going(q.entries[id].(chain := q.entries[id].chain[1..]))],
            starting := q.starting - {id}, active := q.active - {id} + {id})
  {
    hide Begin, Release, PopWrite;
    var e := q.entries[id];
    AnsweredShape(q, id);
    var freed := q.(starting := q.starting - {id}, active := q.active - {id}, holder := HolderWithout(q, e));
    BeginShape(freed, e.(chain := e.chain[1..]), true);
    if e.lane.Some? { assert (q.holder - {e.lane.value})[e.lane.value := id] == q.holder; }
  }

  /** Granted: the slot and the lane pass from starting to running without being given up. */
  lemma GrantedInv(q: Queue, id: JobId)
    requires Inv(q) && id in q.starting && id in q.entries && q.entries[id].state == Queued
    requires q.entries[id].chain != [] && q.entries[id].chain[0].Acquire?
    ensures Inv(Begin(Release(PopWrite(q, id), id), id, true))
  {
    hide Places, Lanes, History, Records, Tickets, BeatsOk, NoDup, EntryOk, Begin, Release, PopWrite;
    Here(q, id);
    var e := q.entries[id];
    if e.lane.Some? { HoldsLane(q, id); }
    GrantedShape(q, id);
    var popped := e.(chain := e.chain[1..]);
    var e' := Going(popped);
    ClaimedOk(q.cfg, e);
    var starting', active' := q.starting - {id}, q.active - {id} + {id};
    PlacesStep(q.entries, q.queued, q.starting, q.active, q.deciding, e', q.queued, starting', active', q.deciding);
    LanesKept(q.entries, q.starting, q.active, q.holder, e', starting', active');
    HistoryKept(q.entries, q.known, q.finished, q.cfg.historyLimit, e');
    RecordsStep(q.cfg, q.entries, q.starting, e', starting');
    TicketsPopped(q.entries, q.writes, q.nextTicket, e');
    BeatsKept(q.entries, q.beats, e');
  }

  lemma AnsweredPlaces(q: Queue, e: Entry, queued: seq<JobId>)
    requires Inv(q) && e.id in q.starting && e.id in q.entries && e.state == q.entries[e.id].state
    requires queued == if Terminal(e.state) then q.queued else q.queued + [e.id]
    ensures Places(q.entries[e.id := e], queued, q.starting - {e.id}, q.active - {e.id}, q.deciding)
  {
    hide Places, Lanes, History, Records, Tickets, BeatsOk, NoDup, EntryOk;
    Here(q, e.id);
    if !Terminal(e.state) { AppendNoDup(q.queued, e.id); }
    PlacesStep(q.entries, q.queued, q.starting, q.active, q.deciding, e, queued, q.starting - {e.id}, q.active - {e.id}, q.deciding);
  }

  lemma AnsweredRest(q: Queue, id: JobId, due: Option<int>)
    requires Inv(q) && id in q.starting && id in q.entries
    requires q.entries[id].chain != [] && q.entries[id].chain[0].Acquire?
    ensures
      var e := q.entries[id].(chain := q.entries[id].chain[1..], dueAt := due);
      && Lanes(q.entries[id := e], q.starting - {id}, q.active - {id}, HolderWithout(q, q.entries[id]))
      && Records(q.cfg, q.entries[id := e], q.starting - {id})
      && Tickets(q.entries[id := e], q.writes, q.nextTicket)
  {
    hide Places, Lanes, History, Records, Tickets, BeatsOk, NoDup, EntryOk, HolderWithout;
    Here(q, id);
    var e := q.entries[id].(chain := q.entries[id].chain[1..], dueAt := due);
    AnsweredOk(q.cfg, q.entries[id], due);
    LanesFreed(q, id);
    LanesKept(q.entries, q.starting - {id}, q.active - {id}, HolderWithout(q, q.entries[id]), e, q.starting - {id}, q.active - {id});
    RecordsStep(q.cfg, q.entries, q.starting, e, q.starting - {id});
    TicketsPopped(q.entries, q.writes, q.nextTicket, e);
  }

  /** The job answered, its slot and lane given back; in line again if it has not ended. */
  lemma AnsweredInv(q: Queue, id: JobId, due: Option<int>, queued: seq<JobId>)
    requires Inv(q) && id in q.starting && id in q.entries
    requires q.entries[id].chain != [] && q.entries[id].chain[0].Acquire?
    requires queued == if Terminal(q.entries[id].state) then q.queued else q.queued + [id]
    ensures
      var e := q.entries[id].(chain := q.entries[id].chain[1..], dueAt := due);
      Inv(q.(entries := q.entries[id := e], queued := queued,
             starting := q.starting - {id}, active := q.active - {id}, holder := HolderWithout(q, q.entries[id])))
  {
    hide Places, Lanes, History, Records, Tickets, BeatsOk, HolderWithout;
    IdOf(q, id);
    var e := q.entries[id].(chain := q.entries[id].chain[1..], dueAt := due);
    AnsweredPlaces(q, e, queued);
    AnsweredRest(q, id, due);
    HistoryKept(q.entries, q.known, q.finished, q.cfg.historyLimit, e);
    BeatsKept(q.entries, q.beats, e);
  }

  lemma IdOf(q: Queue, id: JobId)
    requires Inv(q) && id in q.entries
    ensures q.entries[id].id == id
  {
  }

  // ---- The handler's return ----

  lemma FinishInv(q: Queue, id: JobId, outcome: JobState, error: Option<string>)
    requires Inv(q) && id in q.active && id in q.entries && q.entries[id].state == Running && Terminal(outcome)
    ensures Inv(Settle(Release(q, id), id, outcome, error))
  {
    hide Places, Lanes, History, Records, Tickets, BeatsOk, NoDup, EntryOk, Settle, Written, HolderWithout;
    Here(q, id);
    var e := q.entries[id];
    var freed := q.(starting := q.starting - {id}, active := q.active - {id}, holder := HolderWithout(q, e));
    ReleaseShape(q, id);
    SettleParts(freed, e, outcome, error);
    EndedRunning(q.cfg, e, outcome, error, q.nextTicket);
    var e' := Written(Over(e, outcome, error), q.nextTicket, false);
    PlacesStep(q.entries, q.queued, q.starting, q.active, q.deciding, e', q.queued, freed.starting, freed.active, q.deciding);
    LanesFreed(q, id);
    LanesKept(q.entries, freed.starting, freed.active, freed.holder, e', freed.starting, freed.active);
    RecordsStep(q.cfg, q.entries, q.starting, e', freed.starting);
    BeatsKept(q.entries, q.beats, e');
  }

  lemma ReleaseShape(q: Queue, id: JobId)
    requires id in q.entries
    ensures Release(q, id) == q.(starting := q.starting - {id}, active := q.active - {id}, holder := HolderWithout(q, q.entries[id]))
    ensures
      var freed := Release(q, id);
      freed == freed.(entries := freed.entries[id := q.entries[id]])
  {
    assert q.entries[id := q.entries[id]] == q.entries;
  }

  lemma LanesFreed(q: Queue, id: JobId)
    requires Inv(q) && id in q.entries && (id in q.starting || id in q.active)
    ensures Lanes(q.entries, q.starting - {id}, q.active - {id}, HolderWithout(q, q.entries[id]))
  {
    hide Lanes, Places, History, Records, Tickets, BeatsOk;
    LanesGivenBack(q.entries, q.starting, q.active, q.holder, id);
  }

  lemma EndedRunning(cfg: Config, e: Entry, outcome: JobState, error: Option<string>, ticket: nat)
    requires EntryOk(cfg, e, false) && Terminal(outcome)
    ensures EntryOk(cfg, Written(Over(e, outcome, error), ticket, false), false)
  {
    EndedOk(cfg, e, outcome, error, ticket, false);
  }

  /** The handler threw: slot and lane go back, and the policy is asked. */
  lemma DecideInv(q: Queue, id: JobId, asked: bool)
    requires Inv(q) && id in q.active && id in q.entries && q.entries[id].state == Running
    ensures Inv(Release(q, id).(deciding := q.deciding[id := asked]))
  {
    hide Places, Lanes, History, Records, Tickets, BeatsOk, NoDup, EntryOk;
    Here(q, id);
    var e := q.entries[id];
    var freed := Release(q, id);
    assert q.entries[id := e] == q.entries;
    PlacesStep(q.entries, q.queued, q.starting, q.active, q.deciding, e, q.queued, freed.starting, freed.active, q.deciding[id := asked]);
    LanesGivenBack(q.entries, q.starting, q.active, q.holder, id);
    RecordsStep(q.cfg, q.entries, q.starting, e, freed.starting);
  }

  lemma GiveUpInv(q: Queue, id: JobId, outcome: JobState, error: Option<string>)
    requires Inv(q) && id in q.deciding && id in q.entries && q.entries[id].state == Running && Terminal(outcome)
    ensures
      var r := Settle(q, id, outcome, error);
      Inv(r.(deciding := r.deciding - {id}))
  {
    hide Places, Lanes, History, Records, Tickets, BeatsOk, NoDup, EntryOk, Settle, Written;
    Here(q, id);
    var e := q.entries[id];
    assert q.entries[id := e] == q.entries;
    assert q.(entries := q.entries[id := e]) == q;
    SettleParts(q, e, outcome, error);
    EndedRunning(q.cfg, e, outcome, error, q.nextTicket);
    var e' := Written(Over(e, outcome, error), q.nextTicket, false);
    PlacesStep(q.entries, q.queued, q.starting, q.active, q.deciding, e', q.queued, q.starting, q.active, q.deciding - {id});
    LanesKept(q.entries, q.starting, q.active, q.holder, e', q.starting, q.active);
    RecordsStep(q.cfg, q.entries, q.starting, e', q.starting);
    BeatsKept(q.entries, q.beats, e');
  }

  /** A backoff policy lets a job run again only while it has attempts left. */
  predicate Allowed(q: Queue, id: JobId) {
    q.cfg.maxAttempts.Some? && id in q.entries ==> q.entries[id].attempt < q.cfg.maxAttempts.value
  }

  lemma AgainInv(q: Queue, id: JobId, cause: string, delayMs: nat, now: int)
    requires Inv(q) && id in q.deciding && id in q.entries && q.entries[id].state == Running
    requires !q.entries[id].cancelRequested && Allowed(q, id)
    ensures
      var r := Again(q, id, cause, delayMs, now);
      Inv(r.(deciding := r.deciding - {id}))
  {
    hide Places, Lanes, History, Records, Tickets, BeatsOk, NoDup, EntryOk, Persist, Written;
    Here(q, id);
    var e := q.entries[id];
    var waits := Waits(e, cause, delayMs, now);
    var e' := Written(waits, q.nextTicket, true);
    var queued' := q.queued + [id];
    var q1 := q.(queued := queued');
    AppendNoDup(q.queued, id);
    WaitsOk(q.cfg, e, cause, delayMs, now, q.nextTicket);
    PersistTickets(q1, waits, true);
    PersistShape(q1, waits, true);
    assert Again(q, id, cause, delayMs, now) == Persist(q1.(entries := q1.entries[id := waits]), id, true);
    PlacesStep(q.entries, q.queued, q.starting, q.active, q.deciding, e', queued', q.starting, q.active, q.deciding - {id});
    LanesKept(q.entries, q.starting, q.active, q.holder, e', q.starting, q.active);
    HistoryKept(q.entries, q.known, q.finished, q.cfg.historyLimit, e');
    RecordsStep(q.cfg, q.entries, q.starting, e', q.starting);
    BeatsKept(q.entries, q.beats, e');
  }
}
