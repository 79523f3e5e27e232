/** What the store promises across calls: fencing, division of a backlog, adoption, and lane exclusion. */
module LeaseLaws {
  import opened Jobs
  import opened Sequences
  import opened LeaseStore

  datatype Call =
    | CallLoad
    | CallAcquire(job: StoredJob)
    | CallSave(job: StoredJob)
    | CallRemove(id: JobId)
    | CallRenew(ids: seq<JobId>)
    | CallAdopt

  function After(st: Store, h: Handle, now: int, call: Call): Store {
    match call
    case CallLoad => Load(st, h, now).0
    case CallAcquire(job) => Acquire(st, h, now, job).0
    case CallSave(job) => Save(st, h, now, job).0
    case CallRemove(id) => Remove(st, h, now, id)
    case CallRenew(ids) => Renew(st, h, now, ids).0
    case CallAdopt => Adopt(st, h, now).0
  }

  /** The ids a call hands its caller to run. */
  function HandedOut(st: Store, h: Handle, now: int, call: Call): seq<JobId> {
    match call
    case CallLoad => Free(st, h, now)
    case CallAdopt => Taken(st, h, now)
    case _ => []
  }

  ghost predicate SameAt(a: Store, b: Store, id: JobId) {
    && (id in a.rows <==> id in b.rows) && (id in a.rows ==> a.rows[id] == b.rows[id])
    && (id in a.leases <==> id in b.leases) && (id in a.leases ==> a.leases[id] == b.leases[id])
  }

  lemma AfterKeepsValid(st: Store, h: Handle, now: int, call: Call)
    requires Valid(st)
    ensures Valid(After(st, h, now, call))
  {
    match call
    case CallLoad => RequeueEffect(st, h, now, Free(st, h, now));
    case CallAcquire(job) => SaveKeepsValid(st, h, now, job);
    case CallSave(job) => SaveKeepsValid(st, h, now, job);
    case CallRemove(id) => WithoutNoDup(st.order, id);
    case CallRenew(ids) => RenewEffect(st, h, now, ids);
    case CallAdopt => RequeueEffect(st, h, now, Taken(st, h, now));
  }

  lemma SaveKeepsValid(st: Store, h: Handle, now: int, job: StoredJob)
    requires Valid(st)
    ensures Valid(Save(st, h, now, job).0)
  {
    if job.id !in st.rows { AppendNoDup(st.order, job.id); }
  }

  /** No call by one worker touches a row, or a claim, that another worker holds live. */
  lemma Fencing(st: Store, h: Handle, now: int, call: Call, id: JobId)
    requires HeldByAnother(st, h, now, id)
    ensures SameAt(st, After(st, h, now, call), id)
    ensures id !in HandedOut(st, h, now, call)
    ensures call.CallSave? && call.job.id == id ==> Save(st, h, now, call.job).1 == LeaseLost
    ensures call.CallAcquire? && call.job.id == id ==> Acquire(st, h, now, call.job).1 != Done
  {
    match call
    case CallLoad => RequeueEffect(st, h, now, Free(st, h, now));
    case CallAcquire(job) =>
    case CallSave(job) =>
    case CallRemove(other) =>
    case CallRenew(ids) => RenewEffect(st, h, now, ids);
    case CallAdopt => RequeueEffect(st, h, now, Taken(st, h, now));
  }

  // ---- Dividing a backlog ----

  ghost predicate Claimed(st: Store, owner: Owner, since: int, id: JobId) {
    id in st.leases && st.leases[id].owner == owner && st.leases[id].leasedAt >= since
  }

  datatype Timed = Timed(h: Handle, at: int, call: Call)

  function Play(st: Store, trace: seq<Timed>): Store
    decreases |trace|
  {
    if trace == [] then st
    else Play(After(st, trace[0].h, trace[0].at, trace[0].call), trace[1..])
  }

  /** Every call falls in [t0, t0 + leaseMs), and `owner` does not itself give up `id`. */
  ghost predicate Within(trace: seq<Timed>, leaseMs: int, t0: int, owner: Owner, id: JobId) {
    forall k :: 0 <= k < |trace| ==>
      && trace[k].h.leaseMs == Some(leaseMs)
      && t0 <= trace[k].at < t0 + leaseMs
      && !(trace[k].h.owner == owner && trace[k].call == CallRemove(id))
  }

  lemma ClaimSurvivesCall(st: Store, leaseMs: int, t0: int, owner: Owner, id: JobId, step: Timed)
    requires Claimed(st, owner, t0, id)
    requires Within([step], leaseMs, t0, owner, id)
    ensures Claimed(After(st, step.h, step.at, step.call), owner, t0, id)
  {
    assert [step][0] == step;
    if step.h.owner != owner {
      Fencing(st, step.h, step.at, step.call, id);
    } else {
      match step.call
      case CallLoad => RequeueEffect(st, step.h, step.at, Free(st, step.h, step.at));
      case CallAcquire(job) =>
      case CallSave(job) =>
      case CallRemove(other) =>
      case CallRenew(ids) => RenewEffect(st, step.h, step.at, ids);
      case CallAdopt => RequeueEffect(st, step.h, step.at, Taken(st, step.h, step.at));
    }
  }

  lemma {:induction false} ClaimSurvives(st: Store, leaseMs: int, t0: int, owner: Owner, id: JobId, trace: seq<Timed>)
    requires Claimed(st, owner, t0, id)
    requires Within(trace, leaseMs, t0, owner, id)
    ensures Claimed(Play(st, trace), owner, t0, id)
    decreases |trace|
  {
    if trace != [] {
      ClaimSurvivesCall(st, leaseMs, t0, owner, id, trace[0]);
      assert forall k :: 0 <= k < |trace[1..]| ==> trace[1..][k] == trace[k + 1];
      ClaimSurvives(After(st, trace[0].h, trace[0].at, trace[0].call), leaseMs, t0, owner, id, trace[1..]);
    }
  }

  /**
   * Two workers divide a backlog: whatever any workers do in between, a job handed to one worker is
   * not handed to another within the lease, unless the first worker gave it up by removing it.
   */
  lemma BacklogDivided(st: Store, leaseMs: int, first: Timed, between: seq<Timed>, second: Timed, id: JobId)
    requires first.h.leaseMs == second.h.leaseMs == Some(leaseMs)
    requires first.h.owner != second.h.owner
    requires id in HandedOut(st, first.h, first.at, first.call)
    requires Within(between, leaseMs, first.at, first.h.owner, id)
    requires first.at <= second.at < first.at + leaseMs
    ensures
      var mid := After(st, first.h, first.at, first.call);
      id !in HandedOut(Play(mid, between), second.h, second.at, second.call)
  {
    RequeueEffect(st, first.h, first.at, HandedOut(st, first.h, first.at, first.call));
    var mid := After(st, first.h, first.at, first.call);
    assert Claimed(mid, first.h.owner, first.at, id);
    ClaimSurvives(mid, leaseMs, first.at, first.h.owner, id, between);
  }

  // ---- Adoption ----

  /** The rows an adopting worker could take, as a set. */
  function StraySet(st: Store, h: Handle, now: int): set<JobId> {
    set id | id in st.rows && Abandoned(st, h, now, id)
  }

  lemma StraysListed(st: Store, h: Handle, now: int)
    requires Valid(st)
    ensures NoDup(Strays(st, h, now))
    ensures forall id :: id in Strays(st, h, now) <==> id in StraySet(st, h, now)
    ensures |Strays(st, h, now)| == |StraySet(st, h, now)|
    ensures SortedByAge(Strays(st, h, now), st.rows)
  {
    hide Valid, NoDup, SortedByAge, Abandoned, Oldest, Keep;
    var stray := set id | id in st.rows && Abandoned(st, h, now, id);
    var kept := Keep(st.order, stray);
    OrderListsRows(st);
    KeepNoDup(st.order, stray);
    OldestNoDup(kept, st.rows);
    OldestSorts(kept, st.rows, 0);
    assert Strays(st, h, now) == Oldest(kept, st.rows);
    NoDupSize(Strays(st, h, now));
    assert (set x | x in Strays(st, h, now)) == StraySet(st, h, now);
  }

  lemma OrderListsRows(st: Store)
    requires Valid(st)
    ensures NoDup(st.order) && forall id :: id in st.order <==> id in st.rows
  {
  }

  lemma TakenIsPrefix(st: Store, h: Handle, now: int)
    requires Valid(st)
    ensures
      var strays, taken := Strays(st, h, now), Taken(st, h, now);
      && |taken| == Min(ADOPTION_BATCH, |strays|) && taken == strays[..|taken|] && NoDup(taken)
      && |set id | id in taken| == |taken|
      && (forall k :: 0 <= k < |taken| ==> taken[k] in taken && taken[k] == strays[k])
  {
    StraysListed(st, h, now);
    PrefixNoDup(Strays(st, h, now), |Taken(st, h, now)|);
    NoDupSize(Taken(st, h, now));
  }

  /**
   * `adopt` returns a batch or all there is, never one of this owner's own claims, each job written back
   * as queued under a fresh claim with nothing else about it changed, its attempt count included.
   */
  lemma AdoptWritesBack(st: Store, h: Handle, now: int, k: nat)
    requires Valid(st)
    ensures |Adopt(st, h, now).1| == Min(25, |StraySet(st, h, now)|)
    ensures k < |Adopt(st, h, now).1| ==>
      var (after, jobs) := Adopt(st, h, now);
      var id := jobs[k].id;
      && id in StraySet(st, h, now)
      && (id in st.leases ==> st.leases[id].owner != h.owner)
      && id in after.rows && jobs[k] == st.rows[id].(state := Queued) == after.rows[id]
      && id in after.leases && after.leases[id] == Lease(h.owner, now)
  {
    StraysListed(st, h, now);
    var taken := Taken(st, h, now);
    RequeueEffect(st, h, now, taken);
    if k < |taken| { assert taken[k] in taken; }
  }

  /** `adopt` lists no job twice, oldest first, and leaves no stray older than one it takes. */
  lemma AdoptTakesOldest(st: Store, h: Handle, now: int, left: JobId)
    requires Valid(st)
    ensures NoDup(Taken(st, h, now)) && SortedByAge(Taken(st, h, now), st.rows)
    ensures left in StraySet(st, h, now) && left !in Taken(st, h, now) ==>
      forall id :: id in Taken(st, h, now) ==> st.rows[id].enqueuedAt <= st.rows[left].enqueuedAt
  {
    StraysListed(st, h, now);
    TakenIsPrefix(st, h, now);
    var strays, taken := Strays(st, h, now), Taken(st, h, now);
    if left in StraySet(st, h, now) && left !in taken {
      var i :| 0 <= i < |strays| && strays[i] == left;
      assert i >= |taken|;
      forall id | id in taken ensures st.rows[id].enqueuedAt <= st.rows[left].enqueuedAt {
        var k :| 0 <= k < |taken| && taken[k] == id;
        assert st.rows[strays[k]].enqueuedAt <= st.rows[strays[i]].enqueuedAt;
      }
    }
  }

  /** What one worker adopts is out of every worker's reach; everything else stays within it. */
  lemma AdoptDivides(st: Store, h: Handle, now: int, g: Handle)
    requires Valid(st) && g.leaseMs == h.leaseMs
    requires h.leaseMs.Some? && h.leaseMs.value > 0
    ensures StraySet(Adopt(st, h, now).0, g, now)
      == StraySet(st, g, now) - set id | id in Taken(st, h, now)
  {
    RequeueEffect(st, h, now, Taken(st, h, now));
  }

  /** Rows no live claim covers: a dead worker's backlog, and rows nobody ever claimed. */
  function Orphans(st: Store, leaseMs: int, now: int): set<JobId> {
    set id | id in st.rows && (id in st.leases ==> !Live(st.leases[id], leaseMs, now))
  }

  function Beats(st: Store, workers: seq<Handle>, now: int): Store
    decreases |workers|
  {
    if workers == [] then st else Beats(Adopt(st, workers[0], now).0, workers[1..], now)
  }

  /** None of the orphaned rows is claimed, however long ago, in this worker's name. */
  ghost predicate Foreign(st: Store, owner: Owner, leaseMs: int, now: int) {
    var ok := forall id :: id in Orphans(st, leaseMs, now) && id in st.leases ==> st.leases[id].owner != owner;
    ok
  }

  lemma BeatTakesBatch(st: Store, h: Handle, leaseMs: int, now: int)
    requires Valid(st) && leaseMs > 0 && h.leaseMs == Some(leaseMs)
    requires Foreign(st, h.owner, leaseMs, now)
    ensures
      var after := Adopt(st, h, now).0;
      && Valid(after)
      && |Orphans(after, leaseMs, now)| == Max(0, |Orphans(st, leaseMs, now)| - ADOPTION_BATCH)
      && (forall owner :: Foreign(st, owner, leaseMs, now) ==> Foreign(after, owner, leaseMs, now))
  {
    hide Adopt, Strays, Taken, Valid, Foreign, Orphans, StraySet, SortedByAge;
    var gone := set id | id in Taken(st, h, now);
    AfterKeepsValid(st, h, now, CallAdopt);
    BeatLeaves(st, h, leaseMs, now);
    BeatStaysForeign(st, h, leaseMs, now);
    StraysListed(st, h, now);
    TakenIsPrefix(st, h, now);
    assert gone <= StraySet(st, h, now);
  }

  lemma BeatLeaves(st: Store, h: Handle, leaseMs: int, now: int)
    requires leaseMs > 0 && h.leaseMs == Some(leaseMs) && Foreign(st, h.owner, leaseMs, now)
    ensures StraySet(st, h, now) == Orphans(st, leaseMs, now)
    ensures Orphans(Adopt(st, h, now).0, leaseMs, now) == Orphans(st, leaseMs, now) - set id | id in Taken(st, h, now)
  {
    RequeueEffect(st, h, now, Taken(st, h, now));
  }

  lemma BeatStaysForeign(st: Store, h: Handle, leaseMs: int, now: int)
    requires leaseMs > 0 && h.leaseMs == Some(leaseMs)
    ensures forall owner :: Foreign(st, owner, leaseMs, now) ==> Foreign(Adopt(st, h, now).0, owner, leaseMs, now)
  {
    RequeueEffect(st, h, now, Taken(st, h, now));
    var after := Adopt(st, h, now).0;
    assert forall id :: id in Orphans(after, leaseMs, now) ==>
      id in Orphans(st, leaseMs, now) && (id in after.leases ==> id in st.leases && after.leases[id] == st.leases[id]);
  }

  /**
   * A dead worker's backlog moves at the speed of a heartbeat: each adopting beat, by whichever live
   * worker, takes exactly a batch of what is left, so ceil(n / 25) beats take all of it.
   */
  lemma {:induction false} BacklogDrains(st: Store, workers: seq<Handle>, leaseMs: int, now: int)
    requires Valid(st) && leaseMs > 0
    requires forall k :: 0 <= k < |workers| ==> workers[k].leaseMs == Some(leaseMs)
    requires forall k :: 0 <= k < |workers| ==> Foreign(st, workers[k].owner, leaseMs, now)
    ensures |Orphans(Beats(st, workers, now), leaseMs, now)|
      == Max(0, |Orphans(st, leaseMs, now)| - ADOPTION_BATCH * |workers|)
    decreases |workers|
  {
    hide Adopt, Valid, Foreign, Orphans;
    if workers != [] {
      var after := Adopt(st, workers[0], now).0;
      BeatTakesBatch(st, workers[0], leaseMs, now);
      assert forall k :: 0 <= k < |workers[1..]| ==> workers[1..][k] == workers[k + 1];
      BacklogDrains(after, workers[1..], leaseMs, now);
    }
  }

  lemma PrefixNoDup(s: seq<JobId>, n: nat)
    requires NoDup(s) && n <= |s|
    ensures NoDup(s[..n])
  {
  }

  /** `load` hands over each row no one else holds, once, as it was, oldest first, and no other row. */
  lemma LoadTakesFree(st: Store, h: Handle, now: int, id: JobId)
    requires Valid(st)
    ensures
      var jobs := Load(st, h, now).1;
      && (forall i, j :: 0 <= i < j < |jobs| ==> jobs[i].id != jobs[j].id && jobs[i].enqueuedAt <= jobs[j].enqueuedAt)
      && (id in st.rows && !HeldByAnother(st, h, now, id) <==> exists k :: 0 <= k < |jobs| && jobs[k].id == id)
      && (forall k :: 0 <= k < |jobs| ==> jobs[k].id in st.rows && jobs[k] == st.rows[jobs[k].id])
  {
    hide Oldest, Keep, HeldByAnother, Requeue;
    FreeListed(st, h, now);
    var free := Free(st, h, now);
    var jobs := Load(st, h, now).1;
    assert forall k :: 0 <= k < |jobs| ==> jobs[k] == st.rows[free[k]] && free[k] in free && jobs[k].id == free[k];
    if id in free {
      var k :| 0 <= k < |free| && free[k] == id;
      assert jobs[k].id == id;
    }
  }

  /** What `load` hands over is written back queued under a fresh claim, and no other row or claim changes. */
  lemma LoadWritesBack(st: Store, h: Handle, now: int, id: JobId)
    requires Valid(st)
    ensures
      var after := Load(st, h, now).0;
      if id in st.rows && !HeldByAnother(st, h, now, id)
      then
        && id in after.rows && after.rows[id] == st.rows[id].(state := Queued)
        && id in after.leases && after.leases[id] == Lease(h.owner, now)
      else SameAt(st, after, id)
  {
    hide Oldest, Keep, HeldByAnother;
    FreeListed(st, h, now);
    RequeueEffect(st, h, now, Free(st, h, now));
  }

  lemma FreeListed(st: Store, h: Handle, now: int)
    requires Valid(st)
    ensures NoDup(Free(st, h, now)) && SortedByAge(Free(st, h, now), st.rows)
    ensures forall id :: id in Free(st, h, now) <==> id in st.rows && !HeldByAnother(st, h, now, id)
  {
    hide NoDup, SortedByAge, HeldByAnother, Oldest, Keep, Valid;
    var free := set id | id in st.rows && !HeldByAnother(st, h, now, id);
    OrderListsRows(st);
    KeepNoDup(st.order, free);
    OldestNoDup(Keep(st.order, free), st.rows);
    OldestSorts(Keep(st.order, free), st.rows, 0);
  }

  /** A row just saved comes back as it was saved. */
  lemma SaveThenLoad(st: Store, h: Handle, now: int, job: StoredJob, later: int)
    requires Valid(st) && !HeldByAnother(st, h, now, job.id)
    ensures
      var saved := Save(st, h, now, job).0;
      job in Load(saved, h, later).1
  {
    var saved := Save(st, h, now, job).0;
    SaveKeepsValid(st, h, now, job);
    var ids := Free(saved, h, later);
    assert job.id in ids;
    var k :| 0 <= k < |ids| && ids[k] == job.id;
    assert Load(saved, h, later).1[k] == job;
  }

  // ---- What a write leaves ----

  /** Leases are in force, and someone else claimed this job less than one lease ago. */
  predicate OutOfReach(st: Store, h: Handle, now: int, id: JobId) {
    h.leaseMs.Some? && id in st.leases && st.leases[id].owner != h.owner && now < st.leases[id].leasedAt + h.leaseMs.value
  }

  ghost predicate Elsewhere(a: Store, b: Store, id: JobId) {
    forall x :: x != id ==> SameAt(a, b, x)
  }

  /** A removal takes the row and its claim away, and nothing else; unless the job is out of reach, when it does nothing. */
  lemma RemoveTakesAway(st: Store, h: Handle, now: int, id: JobId)
    requires Valid(st)
    ensures
      var r := Remove(st, h, now, id);
      if OutOfReach(st, h, now, id) then r == st
      else id !in r.rows && id !in r.leases && id !in r.order && Elsewhere(st, r, id)
  {
    WithoutNoDup(st.order, id);
  }

  /**
   * A save writes the row as given, a new one after all others, and claims it from this moment; a job out of reach is left alone and its lease
   * reported lost.
   */
  lemma SaveWrites(st: Store, h: Handle, now: int, job: StoredJob)
    ensures
      var (r, answer) := Save(st, h, now, job);
      if OutOfReach(st, h, now, job.id) then r == st && answer == LeaseLost
      else
        && answer == Done && job.id in r.rows && r.rows[job.id] == job
        && job.id in r.leases && r.leases[job.id] == Lease(h.owner, now) && Elsewhere(st, r, job.id)
        && r.order == if job.id in st.rows then st.order else st.order + [job.id]
  {
  }

  /** A different job of the same lane, running, and out of reach. */
  ghost predicate RunsOutOfReach(st: Store, h: Handle, now: int, job: StoredJob, other: JobId) {
    && job.lane.Some? && other in st.rows && other != job.id && st.rows[other].lane == job.lane
    && st.rows[other].state == Running && OutOfReach(st, h, now, other)
  }

  /**
   * A lane claim is refused exactly when another worker is running a different job in the lane under a claim not
   * yet lapsed; otherwise it is granted as a save would be.
   */
  lemma AcquireGrants(st: Store, h: Handle, now: int, job: StoredJob)
    ensures
      var (r, answer) := Acquire(st, h, now, job);
      && (answer == Refused <==> exists other :: RunsOutOfReach(st, h, now, job, other))
      && (answer == Refused ==> r == st)
      && (answer == LeaseLost ==> r == st && OutOfReach(st, h, now, job.id))
      && (answer == Done ==>
           && job.id in r.rows && r.rows[job.id] == job && job.id in r.leases && r.leases[job.id] == Lease(h.owner, now)
           && Elsewhere(st, r, job.id) && !OutOfReach(st, h, now, job.id))
  {
    hide SameAt, OutOfReach, HeldByAnother;
    SaveWrites(st, h, now, job);
    forall other ensures OutOfReach(st, h, now, other) <==> HeldByAnother(st, h, now, other) { ReachMeans(st, h, now, other); }
    if LaneHeld(st, h, now, job) {
      var other :| other in st.rows && other != job.id && st.rows[other].lane == job.lane && st.rows[other].state == Running
        && HeldByAnother(st, h, now, other);
      assert RunsOutOfReach(st, h, now, job, other);
    }
  }

  lemma ReachMeans(st: Store, h: Handle, now: int, id: JobId)
    ensures OutOfReach(st, h, now, id) <==> HeldByAnother(st, h, now, id)
  {
  }

  /** A renewal refreshes the claims asked about that have a row within reach, reports the others, and changes nothing else. */
  lemma RenewRefreshes(st: Store, h: Handle, now: int, ids: seq<JobId>, id: JobId)
    ensures
      var (r, lost) := Renew(st, h, now, ids);
      && (id in lost <==> id in ids && (id !in st.rows || OutOfReach(st, h, now, id)))
      && (if id in ids && id !in lost
          then id in r.rows && r.rows[id] == st.rows[id] && id in r.leases && r.leases[id] == Lease(h.owner, now)
          else SameAt(st, r, id))
  {
    hide Renew, OutOfReach, HeldByAnother;
    RenewEffect(st, h, now, ids);
    RenewReports(st, h, now, ids);
    ReachMeans(st, h, now, id);
  }

  // ---- One lane, one owner ----

  ghost predicate RunsLive(st: Store, leaseMs: int, now: int, id: JobId) {
    && id in st.rows && st.rows[id].state == Running
    && id in st.leases && Live(st.leases[id], leaseMs, now)
  }

  /** No two different rows of one lane are running under live claims of different owners. */
  ghost predicate LaneExclusive(st: Store, leaseMs: int, now: int) {
    forall a, b ::
      RunsLive(st, leaseMs, now, a) && RunsLive(st, leaseMs, now, b)
      && st.rows[a].lane.Some? && st.rows[a].lane == st.rows[b].lane
      ==> st.leases[a].owner == st.leases[b].owner
  }

  /** Every claim this renewal refreshes is the caller's own and has not lapsed. */
  ghost predicate OnTime(st: Store, h: Handle, now: int, ids: seq<JobId>) {
    h.leaseMs.Some? && forall id :: id in ids && Renewable(st, h, now, id) ==>
      id in st.leases && st.leases[id].owner == h.owner && Live(st.leases[id], h.leaseMs.value, now)
  }

  lemma TimePassing(st: Store, leaseMs: int, now: int, later: int)
    requires LaneExclusive(st, leaseMs, now) && now <= later
    ensures LaneExclusive(st, leaseMs, later)
  {
    assert forall id :: RunsLive(st, leaseMs, later, id) ==> RunsLive(st, leaseMs, now, id);
  }

  /** The calls the queue makes keep the lanes exclusive. */
  lemma CallKeepsLanes(st: Store, h: Handle, leaseMs: int, now: int, call: Call)
    requires h.leaseMs == Some(leaseMs)
    requires LaneExclusive(st, leaseMs, now)
    requires call.CallSave? ==> Discreet(call.job)
    requires call.CallRenew? ==> OnTime(st, h, now, call.ids)
    ensures LaneExclusive(After(st, h, now, call), leaseMs, now)
  {
    match call
    case CallLoad => RequeueEffect(st, h, now, Free(st, h, now)); RequeueKeepsLanes(st, h, leaseMs, now, Free(st, h, now));
    case CallAcquire(job) => AcquireKeepsLanes(st, h, leaseMs, now, job);
    case CallSave(job) =>
      var after := After(st, h, now, call);
      assert forall id :: RunsLive(after, leaseMs, now, id) && after.rows[id].lane.Some? ==>
        id != job.id || after == st;
      assert forall id :: id != job.id ==> SameAt(st, after, id);
      assert forall id :: RunsLive(after, leaseMs, now, id) && id != job.id ==> RunsLive(st, leaseMs, now, id);
    case CallRemove(id) =>
      var after := After(st, h, now, call);
      assert forall x :: RunsLive(after, leaseMs, now, x) ==> RunsLive(st, leaseMs, now, x) && SameAt(st, after, x);
    case CallRenew(ids) => RenewKeepsLanes(st, h, leaseMs, now, ids);
    case CallAdopt => RequeueKeepsLanes(st, h, leaseMs, now, Taken(st, h, now));
  }

  lemma RequeueKeepsLanes(st: Store, h: Handle, leaseMs: int, now: int, ids: seq<JobId>)
    requires LaneExclusive(st, leaseMs, now)
    requires forall id :: id in ids ==> id in st.rows
    ensures LaneExclusive(Requeue(st, h, now, ids), leaseMs, now)
  {
    RequeueEffect(st, h, now, ids);
    var after := Requeue(st, h, now, ids);
    assert forall id :: RunsLive(after, leaseMs, now, id) ==> RunsLive(st, leaseMs, now, id) && SameAt(st, after, id);
  }

  lemma AcquireKeepsLanes(st: Store, h: Handle, leaseMs: int, now: int, job: StoredJob)
    requires h.leaseMs == Some(leaseMs)
    requires LaneExclusive(st, leaseMs, now)
    ensures LaneExclusive(Acquire(st, h, now, job).0, leaseMs, now)
  {
    var after := Acquire(st, h, now, job).0;
    if after != st {
      assert forall id :: id != job.id ==> SameAt(st, after, id);
      assert forall id :: RunsLive(after, leaseMs, now, id) && id != job.id ==> RunsLive(st, leaseMs, now, id);
      assert forall id :: (RunsLive(st, leaseMs, now, id) && id != job.id && job.lane.Some?
        && st.rows[id].lane == job.lane) ==> !HeldByAnother(st, h, now, id);
    }
  }

  lemma RenewKeepsLanes(st: Store, h: Handle, leaseMs: int, now: int, ids: seq<JobId>)
    requires h.leaseMs == Some(leaseMs)
    requires LaneExclusive(st, leaseMs, now) && OnTime(st, h, now, ids)
    ensures LaneExclusive(Renew(st, h, now, ids).0, leaseMs, now)
  {
    RenewEffect(st, h, now, ids);
    var after := Renew(st, h, now, ids).0;
    assert forall id :: RunsLive(after, leaseMs, now, id) ==>
      RunsLive(st, leaseMs, now, id) && after.leases[id].owner == st.leases[id].owner;
  }

  /** A renewal that gives a running job a live claim beside another owner's, in the same lane. */
  ghost predicate Collides(st: Store, h: Handle, leaseMs: int, now: int, ids: seq<JobId>, a: JobId, b: JobId) {
    && a in ids && Renewable(st, h, now, a) && st.rows[a].state == Running && st.rows[a].lane.Some?
    && RunsLive(st, leaseMs, now, b) && st.rows[b].lane == st.rows[a].lane && st.leases[b].owner != h.owner
  }

  /**
   * Exactly which renewals break the lanes. From a store where the lanes are exclusive, a renewal leaves them so
   * unless it refreshes the claim on a running job whose lane another owner is running a job in by now.
   */
  lemma RenewKeepsLanesExactly(st: Store, h: Handle, leaseMs: int, now: int, ids: seq<JobId>)
    requires h.leaseMs == Some(leaseMs) && leaseMs > 0 && LaneExclusive(st, leaseMs, now)
    ensures LaneExclusive(Renew(st, h, now, ids).0, leaseMs, now) <==>
      !exists a, b :: Collides(st, h, leaseMs, now, ids, a, b)
  {
    hide Renew, LaneExclusive;
    RenewEffect(st, h, now, ids);
    if exists a, b :: Collides(st, h, leaseMs, now, ids, a, b) {
      var a, b :| Collides(st, h, leaseMs, now, ids, a, b);
      CollisionBreaks(st, h, leaseMs, now, ids, a, b);
    } else {
      NoCollisionKeeps(st, h, leaseMs, now, ids);
    }
  }

  lemma CollisionBreaks(st: Store, h: Handle, leaseMs: int, now: int, ids: seq<JobId>, a: JobId, b: JobId)
    requires h.leaseMs == Some(leaseMs) && leaseMs > 0 && Collides(st, h, leaseMs, now, ids, a, b)
    ensures !LaneExclusive(Renew(st, h, now, ids).0, leaseMs, now)
  {
    RenewEffect(st, h, now, ids);
    var after := Renew(st, h, now, ids).0;
    assert HeldByAnother(st, h, now, b);
    assert RunsLive(after, leaseMs, now, a) && RunsLive(after, leaseMs, now, b);
  }

  lemma NoCollisionKeeps(st: Store, h: Handle, leaseMs: int, now: int, ids: seq<JobId>)
    requires h.leaseMs == Some(leaseMs) && LaneExclusive(st, leaseMs, now)
    requires !exists a, b :: Collides(st, h, leaseMs, now, ids, a, b)
    ensures LaneExclusive(Renew(st, h, now, ids).0, leaseMs, now)
  {
    RenewEffect(st, h, now, ids);
    var after := Renew(st, h, now, ids).0;
    forall a, b | RunsLive(after, leaseMs, now, a) && RunsLive(after, leaseMs, now, b)
      && after.rows[a].lane.Some? && after.rows[a].lane == after.rows[b].lane
      ensures after.leases[a].owner == after.leases[b].owner
    {
      assert !Collides(st, h, leaseMs, now, ids, a, b) && !Collides(st, h, leaseMs, now, ids, b, a);
    }
  }

  /**
   * Why renewals must be on time: from a store where the lanes are exclusive, a renewal that lands
   * after its own claim has lapsed leaves two owners running one lane.
   */
  lemma LateRenewalBreaksLanes(a: JobId, b: JobId, lane: Lane, one: Owner, two: Owner, leaseMs: int, payload: Payload)
    requires a != b && one != two && leaseMs > 0
    ensures
      var job := (id: JobId, state: JobState) =>
        StoredJob(id, payload, Some(lane), 0, state, 1, 0, None, None);
      var w1, w2 := Handle(one, Some(leaseMs)), Handle(two, Some(leaseMs));
      var s1 := Acquire(Store([], map[], map[]), w1, 0, job(a, Running)).0;
      var (s2, granted) := Acquire(s1, w2, leaseMs, job(b, Running));
      var s3 := Renew(s2, w1, leaseMs, [a]).0;
      granted == Done && LaneExclusive(s2, leaseMs, leaseMs) && !LaneExclusive(s3, leaseMs, leaseMs)
  {
    var job := (id: JobId, state: JobState) =>
      StoredJob(id, payload, Some(lane), 0, state, 1, 0, None, None);
    var w1, w2 := Handle(one, Some(leaseMs)), Handle(two, Some(leaseMs));
    var s1 := Acquire(Store([], map[], map[]), w1, 0, job(a, Running)).0;
    var s2 := Acquire(s1, w2, leaseMs, job(b, Running)).0;
    var s3 := Renew(s2, w1, leaseMs, [a]).0;
    RenewEffect(s2, w1, leaseMs, [a]);
    assert RunsLive(s3, leaseMs, leaseMs, a) && RunsLive(s3, leaseMs, leaseMs, b);
  }

  lemma OnlyStray(st: Store, h: Handle, now: int, id: JobId)
    requires st.order == [id] && id in st.rows && Abandoned(st, h, now, id)
    ensures Taken(st, h, now) == [id]
    ensures
      var after := Adopt(st, h, now).0;
      && after.order == [id] && after.rows == st.rows[id := st.rows[id].(id := id, state := Queued)]
      && after.leases == st.leases[id := Lease(h.owner, now)]
  {
    assert Keep([id], set x | x in st.rows && Abandoned(st, h, now, x)) == [id];
    assert Oldest([id], st.rows) == [id];
    var mid := Claim(Put(st, st.rows[id].(id := id, state := Queued)), h, now, id);
    assert Requeue(st, h, now, [id]) == Requeue(mid, h, now, []);
  }
}
