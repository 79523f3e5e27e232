/**
 * How the table-backed store stands to the in-memory one: the same store, call for call, with a lease one
 * tick longer, except that a renewal never takes a row back from another owner.
 */
module PostgresLaws {
  import opened Jobs
  import opened Sequences
  import LeaseStore
  import LeaseLaws
  import opened PostgresStore

  /** The in-memory handle a session amounts to. A claim in the table still stands at exactly `leaseMs`. */
  function Handle(s: Session): LeaseStore.Handle {
    LeaseStore.Handle(s.owner, if s.leaseMs == None then None else Some(s.leaseMs.value + 1))
  }

  /** The namespace, seen as an in-memory store. */
  ghost predicate Mirrors(t: Table, queue: string, st: LeaseStore.Store) {
    var ok := LeaseStore.Valid(st) && forall id {:trigger MirrorsAt(t, queue, st, id)} {:trigger Key(queue, id)} {:trigger id in st.rows} :: MirrorsAt(t, queue, st, id);
    ok
  }

  /** One job as both stores have it: the same row, under the same claim. */
  predicate MirrorsAt(t: Table, queue: string, st: LeaseStore.Store, id: JobId) {
    var key := Key(queue, id);
    && (id in st.rows <==> key in t)
    && (key in t ==>
      && t[key].job == st.rows[id] && Outstanding(st.rows[id].state)
      && (t[key].owner.Some? <==> id in st.leases) && (t[key].leasedAt.Some? <==> id in st.leases)
      && (id in st.leases ==> st.leases[id] == LeaseStore.Lease(t[key].owner.value, t[key].leasedAt.value)))
  }

  ghost predicate OtherQueuesKept(t: Table, t': Table, queue: string) {
    forall key: Key :: key.queue != queue ==> (key in t <==> key in t') && (key in t ==> t[key] == t'[key])
  }

  lemma ClaimableMeansFree(t: Table, s: Session, st: LeaseStore.Store, now: int, id: JobId)
    requires Mirrors(t, s.queue, st) && id in st.rows
    ensures Claimable(t[Key(s.queue, id)], s, now) <==> !LeaseStore.HeldByAnother(st, Handle(s), now, id)
  {
  }

  /** With the same lease, the two stores disagree about a claim exactly at the moment it is `leaseMs` old. */
  lemma BoundaryDiffers(t: Table, s: Session, st: LeaseStore.Store, now: int, id: JobId)
    requires Mirrors(t, s.queue, st) && id in st.rows
    ensures
      (Claimable(t[Key(s.queue, id)], s, now) <==> !LeaseStore.HeldByAnother(st, LeaseStore.Handle(s.owner, s.leaseMs), now, id))
      <==> !(s.leaseMs.Some? && id in st.leases && st.leases[id].owner != s.owner && now - st.leases[id].leasedAt == s.leaseMs.value)
  {
  }

  // ---- Call by call ----

  lemma SaveAgrees(t: Table, s: Session, st: LeaseStore.Store, now: int, job: StoredJob)
    requires Mirrors(t, s.queue, st) && Outstanding(job.state)
    requires job.id in st.rows ==> st.rows[job.id].enqueuedAt == job.enqueuedAt
    ensures
      var (t', answer) := WriteRow(t, s, now, job);
      var (st', answer') := LeaseStore.Save(st, Handle(s), now, job);
      answer == answer' && Mirrors(t', s.queue, st') && OtherQueuesKept(t, t', s.queue)
  {
    if job.id in st.rows { ClaimableMeansFree(t, s, st, now, job.id); }
    else { NothingHeld(st, job.id, Handle(s), now); }
    LeaseLaws.SaveKeepsValid(st, Handle(s), now, job);
    hide LeaseStore.Valid, Claimable, LeaseStore.HeldByAnother;
    var t', st' := WriteRow(t, s, now, job).0, LeaseStore.Save(st, Handle(s), now, job).0;
    assert MirrorsAt(t, s.queue, st, job.id);
    forall id ensures MirrorsAt(t', s.queue, st', id) { assert MirrorsAt(t, s.queue, st, id); }
  }

  lemma Unclaimed(st: LeaseStore.Store, id: JobId)
    requires LeaseStore.Valid(st) && id !in st.rows
    ensures id !in st.leases
  {
  }

  lemma NothingHeld(st: LeaseStore.Store, id: JobId, h: LeaseStore.Handle, now: int)
    requires LeaseStore.Valid(st) && id !in st.rows
    ensures !LeaseStore.HeldByAnother(st, h, now, id)
  {
  }

  lemma RemoveAgrees(t: Table, s: Session, st: LeaseStore.Store, now: int, id: JobId)
    requires Mirrors(t, s.queue, st)
    ensures
      var t' := DeleteRow(t, s, now, id);
      Mirrors(t', s.queue, LeaseStore.Remove(st, Handle(s), now, id)) && OtherQueuesKept(t, t', s.queue)
  {
    if id in st.rows { ClaimableMeansFree(t, s, st, now, id); }
    else { NothingHeld(st, id, Handle(s), now); }
    LeaseLaws.AfterKeepsValid(st, Handle(s), now, LeaseLaws.CallRemove(id));
    hide LeaseStore.Valid, Claimable, LeaseStore.HeldByAnother;
    var t', st' := DeleteRow(t, s, now, id), LeaseStore.Remove(st, Handle(s), now, id);
    assert MirrorsAt(t, s.queue, st, id);
    forall x ensures MirrorsAt(t', s.queue, st', x) {
      assert MirrorsAt(t, s.queue, st, x);
      if x !in st.rows { Unclaimed(st, x); }
    }
  }

  lemma LaneAgrees(t: Table, s: Session, st: LeaseStore.Store, now: int, job: StoredJob)
    requires Mirrors(t, s.queue, st) && s.leaseMs.Some? && job.lane.Some?
    ensures LaneHeld(t, s, s.leaseMs.value, now, job) <==> LeaseStore.LaneHeld(st, Handle(s), now, job)
  {
    if LaneHeld(t, s, s.leaseMs.value, now, job) {
      var key :| key in t && key.queue == s.queue && HoldsLane(t[key], s, s.leaseMs.value, now, job);
      assert key == Key(s.queue, key.id);
      assert key.id in st.rows && st.rows[key.id].id == key.id;
    }
    if LeaseStore.LaneHeld(st, Handle(s), now, job) {
      var other :| other in st.rows && other != job.id && st.rows[other].lane == job.lane
        && st.rows[other].state == Running && LeaseStore.HeldByAnother(st, Handle(s), now, other);
      assert st.rows[other].id == other;
      assert HoldsLane(t[Key(s.queue, other)], s, s.leaseMs.value, now, job);
    }
  }

  lemma AcquireAgrees(t: Table, s: Session, st: LeaseStore.Store, now: int, job: StoredJob)
    requires Mirrors(t, s.queue, st) && Outstanding(job.state)
    requires job.id in st.rows ==> st.rows[job.id].enqueuedAt == job.enqueuedAt
    ensures
      var (t', answer) := AcquireLane(t, s, now, job);
      var (st', answer') := LeaseStore.Acquire(st, Handle(s), now, job);
      answer == answer' && Mirrors(t', s.queue, st') && OtherQueuesKept(t, t', s.queue)
  {
    hide Mirrors, LaneHeld, LeaseStore.LaneHeld, LeaseStore.Save, WriteRow;
    if job.lane == None || s.leaseMs == None { NoLaneToHold(st, Handle(s), now, job); } else { LaneAgrees(t, s, st, now, job); }
    SaveAgrees(t, s, st, now, job);
  }

  lemma NoLaneToHold(st: LeaseStore.Store, h: LeaseStore.Handle, now: int, job: StoredJob)
    requires job.lane == None || h.leaseMs == None
    ensures !LeaseStore.LaneHeld(st, h, now, job)
  {
  }

  /** Stamping some rows is requeueing them. */
  lemma StampAgrees(t: Table, s: Session, st: LeaseStore.Store, now: int, ids: seq<JobId>)
    requires Mirrors(t, s.queue, st) && forall id :: id in ids ==> id in st.rows
    ensures
      var t' := Stamp(t, s, now, ids);
      Mirrors(t', s.queue, LeaseStore.Requeue(st, Handle(s), now, ids)) && OtherQueuesKept(t, t', s.queue)
  {
    hide LeaseStore.Valid, LeaseStore.Requeue;
    RequeueValid(st, Handle(s), now, ids);
    LeaseStore.RequeueEffect(st, Handle(s), now, ids);
    var t', st' := Stamp(t, s, now, ids), LeaseStore.Requeue(st, Handle(s), now, ids);
    forall id ensures MirrorsAt(t', s.queue, st', id) {
      assert MirrorsAt(t, s.queue, st, id);
      IdOfRow(st, id);
    }
  }

  lemma RequeueValid(st: LeaseStore.Store, h: LeaseStore.Handle, now: int, ids: seq<JobId>)
    requires LeaseStore.Valid(st) && forall id :: id in ids ==> id in st.rows
    ensures LeaseStore.Valid(LeaseStore.Requeue(st, h, now, ids))
  {
    LeaseStore.RequeueEffect(st, h, now, ids);
  }

  lemma IdOfRow(st: LeaseStore.Store, id: JobId)
    requires LeaseStore.Valid(st)
    ensures id in st.rows ==> st.rows[id].id == id
  {
  }

  lemma ListedMirrors(t: Table, queue: string, st: LeaseStore.Store)
    requires Mirrors(t, queue, st)
    ensures Listed(t, queue) == st.rows
  {
    hide LeaseStore.Valid;
    forall id ensures id in st.rows <==> id in Listed(t, queue) { assert MirrorsAt(t, queue, st, id); }
    forall id | id in st.rows ensures st.rows[id] == Listed(t, queue)[id] { assert MirrorsAt(t, queue, st, id); }
  }

  lemma {:induction false} JobsOfRows(st: LeaseStore.Store, ids: seq<JobId>)
    requires forall id :: id in ids ==> id in st.rows
    ensures JobsOf(st.rows, ids) == LeaseStore.Rows(st, ids)
  {
    if ids != [] { JobsOfRows(st, ids[1..]); }
  }

  /** A load, when the database reads the rows in the order the in-memory store keeps them. */
  lemma LoadAgrees(t: Table, s: Session, st: LeaseStore.Store, now: int)
    requires Mirrors(t, s.queue, st)
    ensures Scans(t, s.queue, st.order)
    ensures
      var (t', jobs) := LoadRows(t, s, now, st.order);
      var (st', jobs') := LeaseStore.Load(st, Handle(s), now);
      jobs == jobs' && Mirrors(t', s.queue, st') && OtherQueuesKept(t, t', s.queue)
  {
    forall id | id in st.rows ensures Loadable(t, s, now, id) <==> !LeaseStore.HeldByAnother(st, Handle(s), now, id) {
      ClaimableMeansFree(t, s, st, now, id);
    }
    assert (set id | id in st.order && Loadable(t, s, now, id)) ==
      set id | id in st.rows && !LeaseStore.HeldByAnother(st, Handle(s), now, id);
    ListedMirrors(t, s.queue, st);
    var ids := LeaseStore.Free(st, Handle(s), now);
    JobsOfRows(st, ids);
    StampAgrees(t, s, st, now, ids);
  }

  lemma AdoptAgrees(t: Table, s: Session, st: LeaseStore.Store, now: int)
    requires Mirrors(t, s.queue, st) && s.leaseMs.Some?
    ensures
      var (t', jobs) := AdoptRows(t, s, now, st.order);
      var (st', jobs') := LeaseStore.Adopt(st, Handle(s), now);
      jobs == jobs' && Mirrors(t', s.queue, st') && OtherQueuesKept(t, t', s.queue)
  {
    assert (set id | id in st.order && Adoptable(t, s, s.leaseMs.value, now, id)) ==
      set id | id in st.rows && LeaseStore.Abandoned(st, Handle(s), now, id);
    ListedMirrors(t, s.queue, st);
    var ids := LeaseStore.Taken(st, Handle(s), now);
    assert ToAdopt(t, s, s.leaseMs.value, now, st.order) == ids;
    StampAgrees(t, s, st, now, ids);
    var t', st' := Stamp(t, s, now, ids), LeaseStore.Requeue(st, Handle(s), now, ids);
    ListedMirrors(t', s.queue, st');
    LeaseStore.RequeueEffect(st, Handle(s), now, ids);
    JobsOfRows(st', ids);
  }

  /** A row the in-memory store would take back in a renewal, and the table would not. */
  predicate Retaken(st: LeaseStore.Store, h: LeaseStore.Handle, now: int, id: JobId) {
    LeaseStore.Renewable(st, h, now, id) && !(id in st.leases && st.leases[id].owner == h.owner)
  }

  /** A renewal agrees exactly when it asks about no lapsed claim of another owner's, and no unclaimed row. */
  lemma RenewAgrees(t: Table, s: Session, st: LeaseStore.Store, now: int, ids: seq<JobId>)
    requires Mirrors(t, s.queue, st)
    ensures
      var (t', lost) := RenewRows(t, s, now, ids);
      var (st', lost') := LeaseStore.Renew(st, Handle(s), now, ids);
      && OtherQueuesKept(t, t', s.queue)
      && (lost == lost' <==> forall id :: id in ids ==> !Retaken(st, Handle(s), now, id))
      && (lost == lost' ==> Mirrors(t', s.queue, st'))
  {
    var h := Handle(s);
    LeaseStore.RenewReports(st, h, now, ids);
    var ours := set id | id in ids && Key(s.queue, id) in t && t[Key(s.queue, id)].owner == Some(s.owner);
    var notOurs := (set id | id in ids) - ours;
    var notRenewable := set id | id in ids && !LeaseStore.Renewable(st, h, now, id);
    OursAre(t, s, st, now, ids);
    if forall id :: id in ids ==> !Retaken(st, h, now, id) {
      assert notOurs == notRenewable;
      RenewMirrors(t, s, st, now, ids);
    } else {
      var id :| id in ids && Retaken(st, h, now, id);
      assert id in Keep(ids, notOurs) && id !in Keep(ids, notRenewable);
    }
  }

  lemma OursAre(t: Table, s: Session, st: LeaseStore.Store, now: int, ids: seq<JobId>)
    requires Mirrors(t, s.queue, st)
    ensures
      var ours := set id | id in ids && Key(s.queue, id) in t && t[Key(s.queue, id)].owner == Some(s.owner);
      forall id :: id in ids ==>
        (id in ours <==> LeaseStore.Renewable(st, Handle(s), now, id) && !Retaken(st, Handle(s), now, id))
  {
  }

  lemma RenewMirrors(t: Table, s: Session, st: LeaseStore.Store, now: int, ids: seq<JobId>)
    requires Mirrors(t, s.queue, st) && forall id :: id in ids ==> !Retaken(st, Handle(s), now, id)
    ensures Mirrors(RenewRows(t, s, now, ids).0, s.queue, LeaseStore.Renew(st, Handle(s), now, ids).0)
  {
    LeaseStore.RenewEffect(st, Handle(s), now, ids);
    OursAre(t, s, st, now, ids);
    var st' := LeaseStore.Renew(st, Handle(s), now, ids).0;
    assert LeaseStore.Valid(st');
  }

  // ---- What carries over ----

  ghost predicate RowRuns(t: Table, queue: string, leaseMs: int, now: int, id: JobId) {
    && Key(queue, id) in t
    && var row := t[Key(queue, id)];
       row.job.state == Running && row.owner.Some? && row.leasedAt.Some? && row.leasedAt.value >= now - leaseMs
  }

  /** No two rows of one lane are running under live claims of different owners. */
  ghost predicate LanesKept(t: Table, queue: string, leaseMs: int, now: int) {
    forall a, b :: RowRuns(t, queue, leaseMs, now, a) && RowRuns(t, queue, leaseMs, now, b)
      && t[Key(queue, a)].job.lane.Some? && t[Key(queue, a)].job.lane == t[Key(queue, b)].job.lane
      ==> t[Key(queue, a)].owner == t[Key(queue, b)].owner
  }

  lemma LanesMirror(t: Table, queue: string, leaseMs: int, st: LeaseStore.Store, now: int)
    requires Mirrors(t, queue, st)
    ensures LanesKept(t, queue, leaseMs, now) <==> LeaseLaws.LaneExclusive(st, leaseMs + 1, now)
  {
    assert forall id :: RowRuns(t, queue, leaseMs, now, id) <==> LeaseLaws.RunsLive(st, leaseMs + 1, now, id);
    if LanesKept(t, queue, leaseMs, now) {
      forall a, b | LeaseLaws.RunsLive(st, leaseMs + 1, now, a) && LeaseLaws.RunsLive(st, leaseMs + 1, now, b)
        && st.rows[a].lane.Some? && st.rows[a].lane == st.rows[b].lane
        ensures st.leases[a].owner == st.leases[b].owner {
        assert RowRuns(t, queue, leaseMs, now, a) && RowRuns(t, queue, leaseMs, now, b);
      }
    }
  }

  /** The table after one of the calls the queue makes. */
  function TableAfter(t: Table, s: Session, now: int, scan: seq<JobId>, call: LeaseLaws.Call): Table {
    match call
    case CallLoad => LoadRows(t, s, now, scan).0
    case CallAcquire(job) => AcquireLane(t, s, now, job).0
    case CallSave(job) => WriteRow(t, s, now, job).0
    case CallRemove(id) => DeleteRow(t, s, now, id)
    case CallRenew(ids) => RenewRows(t, s, now, ids).0
    case CallAdopt => AdoptRows(t, s, now, scan).0
  }

  /** What the queue promises of its calls: outstanding states only, and an enqueue time it never changes. */
  ghost predicate Fitting(st: LeaseStore.Store, call: LeaseLaws.Call) {
    match call
    case CallAcquire(job) => Outstanding(job.state) && (job.id in st.rows ==> st.rows[job.id].enqueuedAt == job.enqueuedAt)
    case CallSave(job) => Outstanding(job.state) && (job.id in st.rows ==> st.rows[job.id].enqueuedAt == job.enqueuedAt)
    case _ => true
  }

  /** The table follows the in-memory store through every call, and no call reaches another namespace. */
  lemma CallsAgree(t: Table, s: Session, st: LeaseStore.Store, now: int, call: LeaseLaws.Call)
    requires Mirrors(t, s.queue, st) && s.leaseMs.Some? && Fitting(st, call)
    requires call.CallRenew? ==> forall id :: id in call.ids ==> !Retaken(st, Handle(s), now, id)
    ensures
      var t' := TableAfter(t, s, now, st.order, call);
      Mirrors(t', s.queue, LeaseLaws.After(st, Handle(s), now, call)) && OtherQueuesKept(t, t', s.queue)
  {
    hide Mirrors, OtherQueuesKept, WriteRow, AcquireLane, DeleteRow, RenewRows, LoadRows, AdoptRows,
         LeaseStore.Save, LeaseStore.Acquire, LeaseStore.Remove, LeaseStore.Renew, LeaseStore.Load, LeaseStore.Adopt;
    match call
    case CallLoad => LoadAgrees(t, s, st, now);
    case CallAcquire(job) => AcquireAgrees(t, s, st, now, job);
    case CallSave(job) => SaveAgrees(t, s, st, now, job);
    case CallRemove(id) => RemoveAgrees(t, s, st, now, id);
    case CallRenew(ids) => RenewAgrees(t, s, st, now, ids);
    case CallAdopt => AdoptAgrees(t, s, st, now);
  }

  /** So the table keeps its lanes to one owner too, under the same assumption about beats. */
  lemma TableKeepsLanes(t: Table, s: Session, st: LeaseStore.Store, now: int, call: LeaseLaws.Call)
    requires Mirrors(t, s.queue, st) && s.leaseMs.Some? && Fitting(st, call)
    requires LanesKept(t, s.queue, s.leaseMs.value, now)
    requires call.CallSave? ==> Discreet(call.job)
    requires call.CallRenew? ==> LeaseLaws.OnTime(st, Handle(s), now, call.ids)
    ensures LanesKept(TableAfter(t, s, now, st.order, call), s.queue, s.leaseMs.value, now)
  {
    hide Mirrors, LanesKept, LeaseLaws.LaneExclusive, LeaseLaws.After, TableAfter, OtherQueuesKept;
    LanesMirror(t, s.queue, s.leaseMs.value, st, now);
    LeaseLaws.CallKeepsLanes(st, Handle(s), s.leaseMs.value + 1, now, call);
    CallsAgree(t, s, st, now, call);
    LanesMirror(TableAfter(t, s, now, st.order, call), s.queue, s.leaseMs.value, LeaseLaws.After(st, Handle(s), now, call), now);
  }

  // ---- What the table's calls do to its rows ----

  /** Leases are in force, and the row is stamped by someone else no longer ago than one lease. */
  predicate HeldElsewhere(row: Row, s: Session, now: int) {
    && s.leaseMs.Some? && row.owner.Some? && row.owner.value != s.owner
    && row.leasedAt.Some? && now <= row.leasedAt.value + s.leaseMs.value
  }

  /** A write stamps its row with this owner and moment and keeps the age of one already there, unless that is held elsewhere. */
  lemma TableWrites(t: Table, s: Session, now: int, job: StoredJob)
    ensures
      var (t', answer) := WriteRow(t, s, now, job);
      var key := Key(s.queue, job.id);
      if key in t && HeldElsewhere(t[key], s, now) then t' == t && answer == LeaseStore.LeaseLost
      else
        && answer == LeaseStore.Done && key in t'
        && t'[key].owner == Some(s.owner) && t'[key].leasedAt == Some(now)
        && t'[key].job == job.(enqueuedAt := if key in t then t[key].job.enqueuedAt else job.enqueuedAt)
        && forall other: Key :: other != key ==> (other in t' <==> other in t) && (other in t ==> t'[other] == t[other])
  {
  }

  /**
   * A load lists exactly the queued and running rows of its namespace not held elsewhere; an adoption only such as
   * are not this owner's either, and were last stamped more than a lease ago, or never.
   */
  lemma TableListings(t: Table, s: Session, now: int, scan: seq<JobId>, id: JobId)
    requires Scans(t, s.queue, scan)
    ensures
      var key := Key(s.queue, id);
      && (id in ToLoad(t, s, now, scan) <==>
           key in t && (t[key].job.state == Queued || t[key].job.state == Running) && !HeldElsewhere(t[key], s, now))
      && (s.leaseMs.Some? && id in ToAdopt(t, s, s.leaseMs.value, now, scan) ==>
           && key in t && (t[key].job.state == Queued || t[key].job.state == Running) && t[key].owner != Some(s.owner)
           && (t[key].leasedAt == None || t[key].leasedAt.value + s.leaseMs.value < now))
  {
  }
}
