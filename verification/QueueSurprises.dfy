/** Short runs from a new queue that show what the queue does not promise. */
module QueueSurprises {
  import opened Jobs
  import opened Sequences
  import opened QueueSpec
  import opened QueueInvariant
  import opened QueueRuns
  import opened QueueService

  /** A worker on a shared store: one slot, leases renewed and abandoned work adopted on every beat, and a retry policy. */
  const LEASED := Config(1, 10, true, Some(1000), true, true, true, None, (payload: Payload, lane: Option<Lane>) => lane)

  /** A job the store is holding, due at some moment or at once. */
  function Held1(id: JobId, due: Option<int>): StoredJob {
    StoredJob(id, Payload("{}"), None, 0, Queued, 0, 0, due, None)
  }

  // ---- One job, waiting out a delay ----

  /** A new queue that has recovered one job not due until later. */
  function Waiting1(id: JobId, due: int): Queue {
    var e := Restored(LEASED, Held1(id, Some(due)), 0);
    Fresh(LEASED, false).(recovered := true, entries := map[id := e], known := {id}, queued := [id], wake := Some(due), beatArmed := true)
  }

  lemma RecoversWaiting(id: JobId, due: int)
    requires due > 0
    ensures Step(Fresh(LEASED, false), RecoverReply([Held1(id, Some(due))], 0)) == Waiting1(id, due)
  {
    hide Pump;
    var q := Fresh(LEASED, false).(recovered := true);
    var e := Restored(LEASED, Held1(id, Some(due)), 0);
    var q1 := AddQueued(q, e);
    assert q1 == q.(entries := map[id := e], known := {id}, queued := [id]);
    StaysWaiting(q1, id, e, due);
    assert [Held1(id, Some(due))][1..] == [];
    assert RestoreAll(q, [Held1(id, Some(due))], 0) == RestoreAll(Pump(q1, 0), [], 0);
  }

  /** Pumping a queue whose one job is not due yet sets its timers, and changes nothing else. */
  lemma StaysWaiting(q: Queue, id: JobId, e: Entry, due: int)
    requires q.cfg == LEASED && q.entries == map[id := e] && q.known == {id} && q.queued == [id] && !q.paused && !q.closed
    requires e.durability == Stored && e.state == Queued && e.lane == None && e.dueAt == Some(due) && due > 0
    ensures Pump(q, 0) == q.(wake := Some(due), beatArmed := true)
  {
    assert !Eligible(q, 0, id) && Best(q, 0, 0) == -1 && Best(q, 0, 1) == -1;
    assert Fill(q, 0) == q;
    TimersSet(q, id, e, due);
  }

  lemma TimersSet(q: Queue, id: JobId, e: Entry, due: int)
    requires q.cfg == LEASED && q.entries == map[id := e] && q.known == {id} && q.queued == [id] && !q.paused && !q.closed
    requires e.durability == Stored && e.state == Queued && e.lane == None && e.dueAt == Some(due) && due > 0
    ensures CheckIdle(ScheduleBeat(ScheduleWake(q, 0))) == q.(wake := Some(due), beatArmed := true)
  {
    hide Held, Idle;
    assert Earliest(q, 0, 0) == None && Earliest(q, 0, 1) == Some(due);
    var q1 := q.(wake := Some(due));
    HeldOne(q1, id);
    assert ScheduleBeat(q1) == q1.(beatArmed := true);
    NotIdle(q1.(beatArmed := true));
  }

  lemma NotIdle(q: Queue)
    requires q.queued != []
    ensures !Idle(q)
  {
  }

  lemma {:induction false} RunStep(q: Queue, ev: Event, evs: seq<Event>)
    ensures Run(q, [ev] + evs) == Run(Step(q, ev), evs)
  {
    assert ([ev] + evs)[1..] == evs;
  }

  /**
   * Renewals can stack. A section that pumps while a beat is still unanswered sets the heartbeat timer again,
   * so a slow store is asked to renew the same job twice at once.
   */
  lemma RenewalsStack(id: JobId, due: int)
    requires due > 0
    ensures
      var evs := [RecoverReply([Held1(id, Some(due))], 0)] + ([BeatFired(0)] + ([Resumed(0)] + ([BeatFired(0)] + [])));
      Run(Fresh(LEASED, false), evs).beats == map[0 := Renewing({id}), 1 := Renewing({id})]
  {
    hide Run, Pump, ThenAdopt, RestoreAll;
    var e := Restored(LEASED, Held1(id, Some(due)), 0);
    RecoversWaiting(id, due);
    var q1 := Waiting1(id, due);
    HeldOne(q1, id);
    var q2 := q1.(beatArmed := false, nextBeat := 1, beats := map[0 := Renewing({id})]);
    assert Step(q1, BeatFired(0)) == q2;
    StaysWaiting(q2, id, e, due);
    var q3 := q2.(beatArmed := true);
    assert Step(q2, Resumed(0)) == q3 by { assert q2.(paused := false) == q2; }
    HeldOne(q3, id);
    var q4 := Step(q3, BeatFired(0));
    assert q4.beats == map[0 := Renewing({id}), 1 := Renewing({id})];
    RunStep(q3, BeatFired(0), []);
    RunStep(q2, Resumed(0), [BeatFired(0)] + []);
    RunStep(q1, BeatFired(0), [Resumed(0)] + ([BeatFired(0)] + []));
    RunStep(Fresh(LEASED, false), RecoverReply([Held1(id, Some(due))], 0), [BeatFired(0)] + ([Resumed(0)] + ([BeatFired(0)] + [])));
    assert Run(q4, []) == q4 by { RunNothing(q4); }
  }

  lemma RunNothing(q: Queue)
    ensures Run(q, []) == q
  {
  }

  lemma HeldOne(q: Queue, id: JobId)
    requires q.known == {id} && id in q.entries && !Terminal(q.entries[id].state) && q.entries[id].durability == Stored
    ensures Held(q) == {id}
  {
  }

  /** A drain can be left waiting on an idle queue: the renewal that loses the last job does not say so. */
  lemma DrainLeftWaiting(id: JobId, due: int)
    requires due > 0
    ensures
      var evs := [RecoverReply([Held1(id, Some(due))], 0)] + ([DrainAsked] + ([BeatFired(0)] + ([RenewReply(0, [id], 0)] + [])));
      var q := Run(Fresh(LEASED, false), evs);
      Idle(q) && q.waiters == 1
  {
    hide Run, Pump, RestoreAll;
    RecoversWaiting(id, due);
    var q1 := Waiting1(id, due);
    var q2 := q1.(waiters := 1);
    assert Step(q1, DrainAsked) == q2;
    HeldOne(q2, id);
    var q3 := q2.(beatArmed := false, nextBeat := 1, beats := map[0 := Renewing({id})]);
    assert Step(q2, BeatFired(0)) == q3;
    LosesWaiting(q3, id);
    var q4 := Step(q3, RenewReply(0, [id], 0));
    assert [id][1..] == [];
    assert LoseAll(q3, [id]) == LoseAll(Lose(q3, id), []) == Lose(q3, id);
    assert Idle(q4) && q4.waiters == 1;
    RunStep(q3, RenewReply(0, [id], 0), []);
    RunStep(q2, BeatFired(0), [RenewReply(0, [id], 0)] + []);
    RunStep(q1, DrainAsked, [BeatFired(0)] + ([RenewReply(0, [id], 0)] + []));
    RunStep(Fresh(LEASED, false), RecoverReply([Held1(id, Some(due))], 0), [DrainAsked] + ([BeatFired(0)] + ([RenewReply(0, [id], 0)] + [])));
    RunNothing(q4);
  }

  /** Losing the one job of a queue that is writing nothing leaves it idle. */
  lemma LosesWaiting(q: Queue, id: JobId)
    requires q.cfg == LEASED && q.known == {id} && id in q.entries && q.queued == [id] && q.finished == []
    requires q.entries[id].state == Queued && q.entries[id].durability == Stored && q.entries[id].id == id
    requires q.starting == {} && q.active == {} && q.deciding == map[] && q.writes == map[] && q.waiters == 1
    ensures
      var r := Lose(q, id);
      && Idle(r) && r.waiters == 1 && r.cfg == q.cfg && r.paused == q.paused && r.closed == q.closed && r.beats == q.beats
  {
    assert Without([id], id) == [];
  }

  // ---- One job, lost while its retry is being decided ----

  function Started(id: JobId): Entry {
    Restored(LEASED, Held1(id, None), 0).(state := Running, attempt := 1)
  }

  /** A queue whose one job's handler has thrown, and whose retry policy is being asked. */
  function Deciding1(id: JobId): Queue {
    Fresh(LEASED, false).(recovered := true, entries := map[id := Started(id)], known := {id}, deciding := map[id := true],
                          nextTicket := 1, beatArmed := true)
  }

  /** The one job in line, eligible and with no lane to ask for, is started, and that fills the one slot. */
  lemma StartsOne(q: Queue, id: JobId, now: int)
    requires q.cfg == LEASED && q.queued == [id] && q.starting == {} && q.active == {} && !q.paused
    requires Eligible(q, now, id) && q.entries[id].id == id && q.entries[id].lane == None
    ensures
      var e := q.entries[id];
      Fill(q, now) == q.(
        queued := [], active := {id}, entries := q.entries[id := Written(Going(e), q.nextTicket, true)],
        writes := if Silent(e) then q.writes else q.writes[q.nextTicket := id],
        nextTicket := if Silent(e) then q.nextTicket else q.nextTicket + 1)
  {
    hide Begin, Written, Going;
    var e := q.entries[id];
    var taken := q.(queued := []);
    assert DropAt([id], 0) == [];
    assert Best(q, now, 0) == -1 && Best(q, now, 1) == 0;
    assert taken.entries[id := e] == taken.entries;
    assert taken.(entries := taken.entries[id := e]) == taken;
    BeginShape(taken, e, false);
    var r := Begin(taken, id, false);
    assert {} + {id} == {id};
    assert Launch(q, 0) == r && r.active == {id};
    assert Fill(r, now) == r;
  }

  /** The queue a new one becomes once it holds this job: its handler called, and the start being written. */
  function Running1(id: JobId): Queue {
    var e := Started(id);
    Deciding1(id).(entries := map[id := e.(chain := [Save(0, Record(e))])], deciding := map[], active := {id}, writes := map[0 := id])
  }

  lemma RestoresStarted(id: JobId)
    ensures Restore(Fresh(LEASED, false).(recovered := true), Held1(id, None), 0) == Running1(id)
  {
    hide Fill;
    var q := Fresh(LEASED, false).(recovered := true);
    var e := Restored(LEASED, Held1(id, None), 0);
    var q1 := AddQueued(q, e);
    assert q1 == q.(entries := map[id := e], known := {id}, queued := [id]);
    StartsOne(q1, id, 0);
    var q2 := Fill(q1, 0);
    assert Written(Going(e), 0, true) == Started(id).(chain := [Save(0, Record(Started(id)))]);
    HeldOne(q2, id);
    assert Pump(q1, 0) == q2.(beatArmed := true);
  }

  lemma StartsAtOnce(id: JobId)
    ensures Step(Fresh(LEASED, false), RecoverReply([Held1(id, None)], 0)) == Running1(id)
  {
    hide Restore;
    var q := Fresh(LEASED, false).(recovered := true);
    RestoresStarted(id);
    assert [Held1(id, None)][1..] == [];
    assert RestoreAll(q, [Held1(id, None)], 0) == RestoreAll(Running1(id), [], 0);
  }

  lemma ThenThrows(id: JobId)
    ensures Step(Step(Running1(id), WriteReply(id, false)), HandlerDone(id, true, 0)) == Deciding1(id)
  {
    var e := Started(id);
    var q := Running1(id);
    var q1 := q.(entries := map[id := e], writes := map[]);
    assert [Save(0, Record(e))][1..] == [];
    assert map[0 := id] - {0} == map[];
    assert PopWrite(q, id) == q1;
    assert Step(q, WriteReply(id, false)) == q1;
    assert {id} - {id} == {};
    assert Step(q1, HandlerDone(id, true, 0)) == Deciding1(id);
  }

  /** The same queue once the store has said that another worker holds the job. */
  lemma ThenLost(id: JobId)
    ensures
      var q := Step(Step(Deciding1(id), BeatFired(0)), RenewReply(0, [id], 0));
      q == Deciding1(id).(entries := map[id := Started(id).(durability := Lost, leaseLost := true, aborted := true)],
                          beatArmed := false, nextBeat := 1, beats := map[0 := Adopting])
  {
    hide Pump;
    var q := Deciding1(id);
    HeldOne(q, id);
    var q1 := q.(beatArmed := false, nextBeat := 1, beats := map[0 := Renewing({id})]);
    assert Step(q, BeatFired(0)) == q1;
    LosesRunning(q1, id);
  }

  lemma LosesRunning(q: Queue, id: JobId)
    requires q == Deciding1(id).(beatArmed := false, nextBeat := 1, beats := map[0 := Renewing({id})])
    ensures Step(q, RenewReply(0, [id], 0))
      == q.(entries := map[id := Started(id).(durability := Lost, leaseLost := true, aborted := true)], beats := map[0 := Adopting])
  {
    hide Pump;
    assert [id][1..] == [];
    var q2 := q.(entries := map[id := Started(id).(durability := Lost, leaseLost := true, aborted := true)]);
    assert Lose(q, id) == q2;
    assert LoseAll(q, [id]) == LoseAll(q2, []);
  }

  lemma ThenRunsAgain(q: Queue, id: JobId)
    requires q == Deciding1(id).(entries := map[id := Started(id).(durability := Lost, leaseLost := true, aborted := true)],
                                 beatArmed := false, nextBeat := 1, beats := map[0 := Adopting])
    ensures
      var r := Step(q, PolicyReply(id, Some(0), "", 0));
      id in r.active && id in r.entries && r.entries[id].attempt == 2 && r.entries[id].durability == Lost && r.entries[id].aborted
  {
    hide Fill, Pump;
    var lost := q.entries[id];
    var waits := lost.(state := Queued, error := Some(""), notBefore := Some(0), dueAt := Some(0));
    var q1 := q.(entries := map[id := waits], queued := [id], deciding := map[]);
    assert map[id := true] - {id} == map[];
    assert Again(q, id, "", 0, 0).(deciding := map[]) == q1;
    assert Step(q, PolicyReply(id, Some(0), "", 0)) == Pump(q1, 0);
    StartsOne(q1, id, 0);
    PumpShape(q1, 0);
  }

  /**
   * A claim lost while the retry policy is deciding does not stop the retry: the job goes back in line and its
   * handler is called once more, with a signal already aborted.
   */
  lemma LostJobRunsOnceMore(id: JobId)
    ensures
      var evs := [RecoverReply([Held1(id, None)], 0)] + ([WriteReply(id, false)] + ([HandlerDone(id, true, 0)] + ([BeatFired(0)]
        + ([RenewReply(0, [id], 0)] + ([PolicyReply(id, Some(0), "", 0)] + [])))));
      var q := Run(Fresh(LEASED, false), evs);
      id in q.active && id in q.entries && q.entries[id].attempt == 2 && q.entries[id].durability == Lost && q.entries[id].aborted
  {
    hide Run, Step;
    var q0 := Fresh(LEASED, false);
    var q1 := Step(q0, RecoverReply([Held1(id, None)], 0));
    var q2 := Step(q1, WriteReply(id, false));
    var q3 := Step(q2, HandlerDone(id, true, 0));
    var q4 := Step(q3, BeatFired(0));
    var q5 := Step(q4, RenewReply(0, [id], 0));
    var q6 := Step(q5, PolicyReply(id, Some(0), "", 0));
    StartsAtOnce(id);
    ThenThrows(id);
    ThenLost(id);
    ThenRunsAgain(q5, id);
    var e6 := [PolicyReply(id, Some(0), "", 0)] + [];
    var e5 := [RenewReply(0, [id], 0)] + e6;
    var e4 := [BeatFired(0)] + e5;
    var e3 := [HandlerDone(id, true, 0)] + e4;
    RunStep(q0, RecoverReply([Held1(id, None)], 0), [WriteReply(id, false)] + e3);
    RunStep(q1, WriteReply(id, false), e3);
    RunStep(q2, HandlerDone(id, true, 0), e4);
    RunStep(q3, BeatFired(0), e5);
    RunStep(q4, RenewReply(0, [id], 0), e6);
    RunStep(q5, PolicyReply(id, Some(0), "", 0), []);
    RunNothing(q6);
  }

  // ---- Two jobs and one slot ----

  /** The queue that runs the first of two jobs, with the second in line behind it. */
  function Behind(id: JobId, next: JobId): Queue {
    var q := Running1(id);
    q.(entries := q.entries[next := Restored(LEASED, Held1(next, None), 0)], known := {id, next}, queued := [next])
  }

  /** With its one slot taken, the queue puts another job in line and starts nothing. */
  lemma RestoresBehind(id: JobId, next: JobId)
    requires id != next
    ensures Restore(Running1(id), Held1(next, None), 0) == Behind(id, next)
  {
    hide Best, Launch, Held;
    var q := AddQueued(Running1(id), Restored(LEASED, Held1(next, None), 0));
    assert q == Behind(id, next) by { assert {id} + {next} == {id, next}; }
    assert !SlotFree(q) && Fill(q, 0) == q;
    assert Earliest(q, 0, 0) == None && Earliest(q, 0, 1) == None;
  }

  lemma StartsBehind(id: JobId, next: JobId)
    requires id != next
    ensures Step(Fresh(LEASED, false), RecoverReply([Held1(id, None), Held1(next, None)], 0)) == Behind(id, next)
  {
    hide Restore;
    var q := Fresh(LEASED, false).(recovered := true);
    var jobs := [Held1(id, None), Held1(next, None)];
    RestoresStarted(id);
    RestoresBehind(id, next);
    assert jobs[1..] == [Held1(next, None)] && jobs[1..][1..] == [];
    assert RestoreAll(q, jobs, 0) == RestoreAll(Running1(id), jobs[1..], 0) == RestoreAll(Behind(id, next), [], 0);
  }

  /**
   * A handler that throws can leave an open queue with its slot free and a job that may start at once still in
   * line, until the retry policy answers.
   */
  lemma ThrowLeavesStranded(id: JobId, next: JobId)
    requires id != next
    ensures
      var evs := [RecoverReply([Held1(id, None), Held1(next, None)], 0)] + ([HandlerDone(id, true, 0)] + []);
      var q := Run(Fresh(LEASED, false), evs);
      Startable(q, 0, next) && !q.closed && id in q.deciding
  {
    hide Run, Fill;
    var q0 := Fresh(LEASED, false);
    var q1 := Behind(id, next);
    var recovers := RecoverReply([Held1(id, None), Held1(next, None)], 0);
    StartsBehind(id, next);
    var q2 := Step(q1, HandlerDone(id, true, 0));
    assert {id} - {id} == {};
    assert Startable(q2, 0, next) && !q2.closed && id in q2.deciding;
    RunStep(q0, recovers, [HandlerDone(id, true, 0)] + []);
    RunStep(q1, HandlerDone(id, true, 0), []);
    RunNothing(q2);
  }

  // ---- A close that comes before the store answers ----

  /** The queue of a worker closed before its store had answered. */
  function Closed0(): Queue {
    Fresh(LEASED, false).(closed := true, paused := true)
  }

  /** A closed queue puts a job it is handed in line, and does nothing about it. */
  lemma RestoresClosed(id: JobId, due: Option<int>)
    ensures
      var r := Restore(Closed0().(recovered := true), Held1(id, due), 0);
      r.closed && r.queued == [id]
  {
    var line := AddQueued(Closed0().(recovered := true), Restored(LEASED, Held1(id, due), 0));
    assert !SlotFree(line) && Fill(line, 0) == line;
  }

  /** A closed queue can have a job in line: stored jobs asked for before the close are restored when the store answers. */
  lemma CloseLeavesLine(id: JobId, due: Option<int>)
    ensures
      var evs := [Closed([], [], 0)] + ([RecoverReply([Held1(id, due)], 0)] + []);
      var q := Run(Fresh(LEASED, false), evs);
      q.closed && q.queued == [id]
  {
    hide Run, Restore;
    var q0 := Fresh(LEASED, false);
    var q1 := Closed0();
    assert Step(q0, Closed([], [], 0)) == q1;
    var jobs := [Held1(id, due)];
    RestoresClosed(id, due);
    assert jobs[1..] == [];
    var asked := q1.(recovered := true);
    assert RestoreAll(asked, jobs, 0) == RestoreAll(Restore(asked, jobs[0], 0), [], 0);
    var q2 := Step(q1, RecoverReply(jobs, 0));
    assert q2.closed && q2.queued == [id];
    RunStep(q0, Closed([], [], 0), [RecoverReply(jobs, 0)] + []);
    RunStep(q1, RecoverReply(jobs, 0), []);
    RunNothing(q2);
  }
}
