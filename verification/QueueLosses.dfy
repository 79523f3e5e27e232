/** Exactly when a job whose claim was lost during its retry decision goes back in line. */
module QueueLosses {
  import opened Jobs
  import opened Sequences
  import opened QueueSpec
  import opened QueueInvariant
  import opened QueueRuns
  import opened QueueHistory
  import opened QueueTheorems
  import opened QueueService
  import opened QueueOutcomes
  import opened QueueRenewals

  /** The policy was really asked about the job, answered with a delay, and no one had cancelled it by then. */
  ghost predicate Returns(q: Queue, ev: Event) {
    && ev.PolicyReply? && ev.delayMs.Some?
    && ev.id in q.deciding && q.deciding[ev.id] && ev.id in q.entries && !q.entries[ev.id].cancelRequested
  }

  // ---- A pump ends nothing ----

  ghost predicate Unended(q: Queue, id: JobId) {
    var ok := id in q.entries && !Terminal(q.entries[id].state);
    ok
  }

  lemma BeginGoes(q: Queue, x: JobId, id: JobId)
    requires x in q.entries && Unended(q, id)
    ensures Unended(Begin(q, x, false), id)
  {
    hide Record;
  }

  lemma AskGoes(q: Queue, x: JobId, id: JobId)
    requires x in q.entries && q.entries[x].lane.Some? && Unended(q, id)
    ensures Unended(Ask(q, x), id)
  {
    hide ClaimOf;
  }

  lemma {:induction false} FillGoes(q: Queue, now: int, id: JobId)
    requires Unended(q, id)
    ensures Unended(Fill(q, now), id)
    decreases |q.queued|
  {
    hide Launch, Unended;
    var best := Best(q, now, |q.queued|);
    if SlotFree(q) && best != -1 {
      LaunchGoes(q, best, id);
      LaunchSwitches(q, best);
      FillGoes(Launch(q, best), now, id);
    }
  }

  lemma LaunchGoes(q: Queue, k: nat, id: JobId)
    requires k < |q.queued| && q.queued[k] in q.entries && Unended(q, id)
    ensures Unended(Launch(q, k), id)
  {
    hide Begin, Ask, DropAt;
    var taken := q.(queued := DropAt(q.queued, k));
    assert Unended(taken, id);
    if SharesLanes(q.cfg, q.entries[q.queued[k]]) { AskGoes(taken, q.queued[k], id); }
    else { BeginGoes(taken, q.queued[k], id); }
  }

  lemma PumpGoes(q: Queue, now: int, id: JobId)
    requires Unended(q, id)
    ensures Unended(Pump(q, now), id)
  {
    hide Fill, Pump;
    FillGoes(q, now, id);
    PumpShape(q, now);
  }

  // ---- The policy's answer ----

  /** A job put to the policy goes on from the answer exactly when it returns, and otherwise ends there. */
  lemma AnswerReturns(q: Queue, ev: Event)
    requires Inv(q) && Enabled(q, ev) && ev.PolicyReply?
    ensures Unended(Apply(q, ev), ev.id) <==> Returns(q, ev)
    ensures ev.id in Apply(q, ev).entries && ev.id !in Apply(q, ev).deciding
    ensures ev.id in q.entries && (!Returns(q, ev) ==> Apply(q, ev).entries[ev.id].attempt == q.entries[ev.id].attempt)
  {
    hide Inv, Pump, Settle, Again;
    var id := ev.id;
    Here(q, id);
    StepBeats(q, ev);
    if Returns(q, ev) {
      LinedAgain(q, id, ev.cause, ev.delayMs.value, ev.now);
      var again := Again(q, id, ev.cause, ev.delayMs.value, ev.now);
      PumpGoes(again.(deciding := again.deciding - {id}), ev.now, id);
    } else {
      var outcome := if q.entries[id].cancelRequested then Cancelled else Failed;
      var error := if q.entries[id].cancelRequested then None else Some(ev.cause);
      SettledEntry(q, id, outcome, error);
      var ended := Settle(q, id, outcome, error);
      PumpAvoids(ended.(deciding := ended.deciding - {id}), ev.now, id);
    }
  }

  // ---- A lost job in the meantime ----

  /** A job whose claim is lost while the policy is deciding about it. */
  ghost predicate Undecided(q: Queue, id: JobId, calls: nat) {
    var ok := id in q.entries && q.entries[id].durability == Lost && id in q.deciding && q.entries[id].attempt == calls;
    ok
  }

  /** One that will not be called again: it is neither in line nor being decided. */
  ghost predicate Finished(q: Queue, id: JobId, calls: nat) {
    var ok :=
      && id in q.entries && q.entries[id].durability == Lost && id !in q.deciding && q.entries[id].state != Queued
      && q.entries[id].attempt == calls;
    ok
  }

  lemma DecidingStays(q: Queue, ev: Event, id: JobId)
    requires Inv(q) && Enabled(q, ev) && id in q.deciding && !(ev.PolicyReply? && ev.id == id)
    ensures id in Step(q, ev).deciding
  {
    hide Inv, Apply, Attends, Wants, Held, Enabled;
    StepBeats(q, ev);
  }

  lemma StepUndecided(q: Queue, ev: Event, id: JobId, calls: nat)
    requires Inv(q) && Undecided(q, id, calls)
    ensures
      var r := Step(q, ev);
      if !Enabled(q, ev) || !(ev.PolicyReply? && ev.id == id) then Undecided(r, id, calls)
      else Returns(q, ev) || Finished(r, id, calls)
  {
    hide Inv, Apply, Enabled, Evolves, Grows, Returns;
    if Enabled(q, ev) {
      StepGrows(q, ev);
      GrowsAges(q, Step(q, ev), Replied(ev));
      StaysLost(q.entries[id], Step(q, ev).entries[id]);
      NeverFalls(q.entries[id], Step(q, ev).entries[id]);
      if ev.PolicyReply? && ev.id == id { AnswerReturns(q, ev); }
      else { DecidingStays(q, ev, id); }
    }
  }

  lemma NeverFalls(e: Entry, e': Entry)
    requires Evolves(e, e')
    ensures e.attempt <= e'.attempt
  {
  }

  lemma StepFinished(q: Queue, ev: Event, id: JobId, calls: nat)
    requires Inv(q) && Finished(q, id, calls)
    ensures Finished(Step(q, ev), id, calls)
  {
    hide Inv, Apply, Enabled, Evolves, Grows;
    if Enabled(q, ev) {
      StepGrows(q, ev);
      GrowsAges(q, Step(q, ev), Replied(ev));
      StaysLost(q.entries[id], Step(q, ev).entries[id]);
      NeverFalls(q.entries[id], Step(q, ev).entries[id]);
    }
  }

  lemma {:induction false} RunFinished(q: Queue, evs: seq<Event>, id: JobId, calls: nat)
    requires Inv(q) && Finished(q, id, calls)
    ensures Finished(Run(q, evs), id, calls)
    decreases |evs|
  {
    hide Inv, Step, Finished;
    if evs != [] {
      StepInv(q, evs[0]);
      StepFinished(q, evs[0], id, calls);
      RunFinished(Step(q, evs[0]), evs[1..], id, calls);
    }
  }

  /** Some answer of the run returns the job. */
  ghost predicate Returned(q: Queue, evs: seq<Event>, id: JobId)
    decreases |evs|
  {
    evs != [] && ((Enabled(q, evs[0]) && Returns(q, evs[0]) && evs[0].id == id) || Returned(Step(q, evs[0]), evs[1..], id))
  }

  lemma {:induction false} RunUndecided(q: Queue, evs: seq<Event>, id: JobId, calls: nat)
    requires Inv(q) && Undecided(q, id, calls) && !Returned(q, evs, id)
    ensures Undecided(Run(q, evs), id, calls) || Finished(Run(q, evs), id, calls)
    decreases |evs|
  {
    hide Inv, Step, Undecided, Finished, Returns;
    if evs != [] {
      StepInv(q, evs[0]);
      StepUndecided(q, evs[0], id, calls);
      if Undecided(Step(q, evs[0]), id, calls) { RunUndecided(Step(q, evs[0]), evs[1..], id, calls); }
      else { RunFinished(Step(q, evs[0]), evs[1..], id, calls); }
    }
  }

  /**
   * Exactly when a lost job comes back. When the policy answers about a job whose claim was lost while it was
   * deciding, the job goes back in line exactly when the policy was really asked, answered with a delay, and no
   * one has cancelled the job since; otherwise it has ended, and whatever happens its handler is never called again.
   */
  lemma LostReturnsExactly(cfg: Config, paused: bool, before: seq<Event>, ev: Event, after: seq<Event>)
    requires ValidConfig(cfg)
    ensures
      var q := Reached(cfg, paused, before);
      ev.PolicyReply? && Enabled(q, ev) && q.entries[ev.id].durability == Lost ==>
        var r, r' := Step(q, ev), Run(Step(q, ev), after);
        && ev.id in r.entries && ev.id in r'.entries
        && (!Terminal(r.entries[ev.id].state) <==>
             ev.delayMs.Some? && q.deciding[ev.id] && !q.entries[ev.id].cancelRequested)
        && (Terminal(r.entries[ev.id].state) ==> r'.entries[ev.id].attempt == q.entries[ev.id].attempt)
  {
    hide Inv, Reached, Run, Apply, Enabled;
    var q := Reached(cfg, paused, before);
    ReachedInv(cfg, paused, before);
    if ev.PolicyReply? && Enabled(q, ev) && ev.id in q.entries && q.entries[ev.id].durability == Lost {
      PolicyOpen(q, ev);
      AnswerReturns(q, ev);
      StepInv(q, ev);
      var calls := q.entries[ev.id].attempt;
      if !Returns(q, ev) {
        StepUndecided(q, ev, ev.id, calls);
        RunFinished(Step(q, ev), after, ev.id, calls);
      } else {
        RunAges(Step(q, ev), after);
      }
    } else if ev.PolicyReply? && Enabled(q, ev) {
      PolicyOpen(q, ev);
    }
  }

  lemma PolicyOpen(q: Queue, ev: Event)
    requires Enabled(q, ev) && ev.PolicyReply?
    ensures ev.id in q.deciding && ev.id in q.entries && q.entries[ev.id].state == Running
  {
  }

  /**
   * So a job lost while the policy is deciding has its handler called again, in whatever run follows, only if
   * an answer of that run returns it; and then at most once more, with an aborted signal.
   */
  lemma LostCalledOnlyIfReturned(cfg: Config, paused: bool, before: seq<Event>, after: seq<Event>, id: JobId)
    requires ValidConfig(cfg)
    ensures
      var q, r := Reached(cfg, paused, before), Run(Reached(cfg, paused, before), after);
      id in q.deciding && id in q.entries && q.entries[id].durability == Lost ==>
        && id in r.entries && q.entries[id].attempt <= r.entries[id].attempt <= q.entries[id].attempt + 1
        && (r.entries[id].attempt > q.entries[id].attempt ==> Returned(q, after, id))
  {
    hide Inv, Reached, Run, Returned;
    var q := Reached(cfg, paused, before);
    ReachedInv(cfg, paused, before);
    if id in q.deciding && id in q.entries && q.entries[id].durability == Lost {
      RunAges(q, after);
      if !Returned(q, after, id) { RunUndecided(q, after, id, q.entries[id].attempt); }
    }
  }

  // ---- Standing down ----

  /** Stood down from: in line or asking for its lane it has failed for it, anywhere else it is only signalled; nothing is written. */
  ghost predicate StoodDown(before: Entry, after: Entry, chain: seq<StoreOp>) {
    var ok := after ==
      if before.state == Queued
      then
        before.(state := Failed, error := Some("job " + before.id.text + " lost its lease and is now held by another worker"),
                durability := Lost, leaseLost := true, chain := chain)
      else before.(durability := Lost, leaseLost := true, aborted := true, chain := chain);
    ok
  }

  /** Where a job not in line is, is where it was. */
  ghost predicate SamePlace(q: Queue, r: Queue, id: JobId) {
    var ok :=
      id !in r.queued && (id in r.active <==> id in q.active) && (id in r.starting <==> id in q.starting) && r.deciding == q.deciding;
    ok
  }

  ghost predicate Losable(q: Queue, id: JobId) {
    var ok := id in q.entries && !Terminal(q.entries[id].state) && q.entries[id].durability != Lost;
    ok
  }

  lemma LosableKnown(q: Queue, id: JobId)
    requires Inv(q) && Losable(q, id)
    ensures id in q.known && q.entries[id].id == id && (q.entries[id].state != Queued ==> id !in q.queued)
  {
    hide EntryOk;
    Here(q, id);
  }

  /** Losing a job stands it down and touches no other. */
  lemma LoseStandsDown(q: Queue, id: JobId)
    requires Inv(q) && Losable(q, id)
    ensures
      var r := Lose(q, id);
      && id in r.entries && StoodDown(q.entries[id], r.entries[id], q.entries[id].chain) && SamePlace(q, r, id)
  {
    hide Inv, Withdraw, StoodDown;
    LosableKnown(q, id);
    var e := q.entries[id].(durability := Lost, leaseLost := true);
    if e.state == Queued {
      LineOk(q);
      WithoutNoDup(q.queued, id);
      LineStandsDown(q.(entries := q.entries[id := e]), id, q.entries[id]);
    } else { SignalStandsDown(q.entries[id]); }
  }

  lemma SignalStandsDown(e: Entry)
    requires e.state != Queued
    ensures StoodDown(e, e.(durability := Lost, leaseLost := true, aborted := true), e.chain)
  {
  }

  lemma LineStandsDown(q: Queue, id: JobId, before: Entry)
    requires id in q.entries && before.id == id && before.state == Queued && id !in Without(q.queued, id)
    requires q.entries[id] == before.(durability := Lost, leaseLost := true)
    ensures
      var r := Withdraw(q, id, Failed, Some(LeaseLostMessage(id)));
      && id in r.entries && StoodDown(before, r.entries[id], before.chain) && SamePlace(q, r, id)
  {
    hide Settle, Without;
    var out := q.(queued := Without(q.queued, id));
    SettleEntries(out, id, Failed, Some(LeaseLostMessage(id)));
    SettleFrame(out, id, Failed, Some(LeaseLostMessage(id)));
  }

  ghost predicate Left(q: Queue, r: Queue, id: JobId) {
    var ok :=
      && id in q.entries && id in r.entries && r.entries[id] == q.entries[id] && (id in r.queued <==> id in q.queued)
      && (id in r.active <==> id in q.active) && (id in r.starting <==> id in q.starting) && r.deciding == q.deciding;
    ok
  }

  /** Losing another job, or one lost or over already, leaves this one as it was. */
  lemma LoseLeaves(q: Queue, x: JobId, id: JobId)
    requires Inv(q) && id in q.entries && (x != id || !Losable(q, id))
    ensures Left(q, Lose(q, x), id)
  {
    hide Inv, MarkLost, NoDup;
    if x in q.known && Losable(q, x) {
      LineOk(q);
      MarkLeaves(q, x, q.entries[x].(durability := Lost, leaseLost := true), id);
    }
  }

  lemma MarkLeaves(q: Queue, x: JobId, e: Entry, id: JobId)
    requires NoDup(q.queued) && !Terminal(e.state) && x != id && id in q.entries
    ensures Left(q, MarkLost(q, x, e), id)
  {
    hide Withdraw, NoDup;
    if e.state == Queued {
      var marked := q.(entries := q.entries[x := e]);
      WithdrawLeaves(marked, x, Some(LeaseLostMessage(x)), id);
      LeftFrom(q, marked, MarkLost(q, x, e), id);
    }
  }

  lemma WithdrawLeaves(q: Queue, x: JobId, error: Option<string>, id: JobId)
    requires NoDup(q.queued) && x in q.entries && !Terminal(q.entries[x].state) && x != id && id in q.entries
    ensures Left(q, Withdraw(q, x, Failed, error), id)
  {
    hide Settle, Without, NoDup;
    WithoutNoDup(q.queued, x);
    SettleFrame(q.(queued := Without(q.queued, x)), x, Failed, error);
  }

  lemma LeftFrom(q: Queue, mid: Queue, r: Queue, id: JobId)
    requires Left(mid, r, id) && mid == q.(entries := mid.entries) && id in q.entries && mid.entries[id] == q.entries[id]
    ensures Left(q, r, id)
  {
  }

  lemma {:induction false} LoseAllLeaves(q: Queue, ids: seq<JobId>, id: JobId)
    requires Inv(q) && Accepted(q, ids) && id in q.entries && !Losable(q, id)
    ensures Left(q, LoseAll(q, ids), id)
    decreases |ids|
  {
    hide Inv, Lose;
    if ids != [] {
      assert ids[0] in ids;
      assert forall x :: x in ids[1..] ==> x in ids;
      LoseInv(q, ids[0]);
      LoseKeepsAccepted(q, ids[0], ids);
      LoseLeaves(q, ids[0], id);
      LoseAllLeaves(Lose(q, ids[0]), ids[1..], id);
    }
  }

  lemma {:induction false} LoseAllStandsDown(q: Queue, ids: seq<JobId>, id: JobId)
    requires Inv(q) && Accepted(q, ids) && id in ids && Losable(q, id)
    ensures
      var r := LoseAll(q, ids);
      && id in r.entries && StoodDown(q.entries[id], r.entries[id], q.entries[id].chain) && SamePlace(q, r, id)
    decreases |ids|
  {
    hide Inv, Lose, StoodDown;
    assert ids[0] in ids;
    assert forall x :: x in ids[1..] ==> x in ids;
    var q1 := Lose(q, ids[0]);
    LoseInv(q, ids[0]);
    LoseKeepsAccepted(q, ids[0], ids);
    if ids[0] == id {
      LoseStandsDown(q, id);
      DownNotLosable(q.entries[id], q1.entries[id]);
      LoseAllLeaves(q1, ids[1..], id);
    } else {
      LoseLeaves(q, ids[0], id);
      LoseAllStandsDown(q1, ids[1..], id);
    }
  }

  lemma DownNotLosable(before: Entry, after: Entry)
    requires StoodDown(before, after, before.chain)
    ensures after.durability == Lost
  {
  }

  /**
   * A renewal's answer stands the queue down from every unfinished job it names and had not lost before: one in
   * line or asking for its lane ends failed with that reason, any other is signalled where it is, and nothing is
   * written for either.
   */
  lemma RenewalStandsDown(q: Queue, beat: nat, lost: seq<JobId>, now: int, id: JobId)
    requires Inv(q) && Enabled(q, RenewReply(beat, lost, now)) && id in lost && Losable(q, id)
    ensures
      var r := Apply(q, RenewReply(beat, lost, now));
      && id in r.entries && StoodDown(q.entries[id], r.entries[id], q.entries[id].chain) && id !in r.queued
      && (id in r.active <==> id in q.active) && (id in r.starting <==> id in q.starting)
  {
    hide Inv, LoseAll, Pump, StoodDown, Losable;
    RenewedAccepted(q, beat, lost);
    LoseAllStandsDown(q, lost, id);
    var after := LoseAll(q, lost);
    PumpSpares(after.(beats := after.beats - {beat}), now, id);
  }

  /** A write refused because the lease is gone stands the queue down from its job in the same way, and is answered. */
  lemma RefusedWriteStandsDown(q: Queue, id: JobId)
    requires Inv(q) && Enabled(q, WriteReply(id, true)) && Losable(q, id)
    ensures
      var r := Apply(q, WriteReply(id, true));
      && id in r.entries && StoodDown(q.entries[id], r.entries[id], q.entries[id].chain[1..]) && id !in r.queued
      && (id in r.active <==> id in q.active) && (id in r.starting <==> id in q.starting)
  {
    hide Inv, Lose, PopWrite, CheckIdle, Losable;
    LoseStandsDown(q, id);
    var told := Lose(q, id);
    PoppedEntry(told, id);
    IdleShape(PopWrite(told, id));
  }

  /** A lane claim refused because the lease is gone does too: the job fails where it was asking, and its slot is given back. */
  lemma RefusedClaimStandsDown(q: Queue, id: JobId, now: int)
    requires Inv(q) && Enabled(q, AcquireReply(id, LeaseGone, now)) && Losable(q, id)
    ensures
      var r := Apply(q, AcquireReply(id, LeaseGone, now));
      && id in r.entries && StoodDown(q.entries[id], r.entries[id], q.entries[id].chain[1..]) && r.entries[id].state == Failed
      && id !in r.queued && id !in r.active && id !in r.starting
  {
    hide Inv, Lose, PopWrite, Pump, StoodDown, Release, EntryOk;
    AskingPlace(q, id);
    LoseStandsDown(q, id);
    var lost := Lose(q, id);
    DownSame(q.entries[id], lost.entries[id]);
    PoppedEntry(lost, id);
    var popped := PopWrite(lost, id);
    DownPopped(q.entries[id], lost.entries[id], popped.entries[id]);
    GivenBack(popped, id);
    PumpSpares(Release(popped, id), now, id);
  }

  lemma DownSame(before: Entry, after: Entry)
    requires StoodDown(before, after, before.chain)
    ensures after.chain == before.chain
  {
  }

  lemma DownPopped(before: Entry, lost: Entry, popped: Entry)
    requires before.state == Queued && before.chain != [] && StoodDown(before, lost, before.chain)
    requires popped == lost.(chain := lost.chain[1..])
    ensures StoodDown(before, popped, before.chain[1..]) && popped.state == Failed
  {
  }

  lemma GivenBack(q: Queue, id: JobId)
    requires id in q.entries
    ensures
      var r := Release(q, id);
      r.queued == q.queued && r.entries == q.entries && id !in r.active && id !in r.starting
  {
  }
}
