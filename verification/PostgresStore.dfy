/**
 * The table-backed store: guarded updates on the rows of one namespace, and the class that makes them in place.
 *
 * `scan` is the order in which the database happens to read the namespace's rows; a listing is sorted from it.
 */
module PostgresStore {
  import opened Jobs
  import opened Sequences
  import LeaseStore

  datatype Key = Key(queue: string, id: JobId)
  datatype Row = Row(job: StoredJob, owner: Option<Owner>, leasedAt: Option<int>)
  datatype Session = Session(queue: string, owner: Owner, leaseMs: Option<int>)

  type Table = map<Key, Row>

  predicate Outstanding(s: JobState) {
    s == Queued || s == Running
  }

  predicate AgedOut(row: Row, leaseMs: int, now: int) {
    row.leasedAt.Some? && row.leasedAt.value < now - leaseMs
  }

  /** The row has no owner, or this one, or its stamp is older than the lease. */
  predicate Claimable(row: Row, s: Session, now: int) {
    || s.leaseMs == None
    || row.owner == None || row.owner == Some(s.owner)
    || row.leasedAt == None || AgedOut(row, s.leaseMs.value, now)
  }

  /** Inserts or updates a row, keeping its `enqueuedAt`, unless another owner's live claim is on it. */
  function WriteRow(t: Table, s: Session, now: int, job: StoredJob): (Table, LeaseStore.Answer) {
    var key := Key(s.queue, job.id);
    if key !in t then (t[key := Row(job, Some(s.owner), Some(now))], LeaseStore.Done)
    else if Claimable(t[key], s, now) then
      (t[key := Row(job.(enqueuedAt := t[key].job.enqueuedAt), Some(s.owner), Some(now))], LeaseStore.Done)
    else (t, LeaseStore.LeaseLost)
  }

  function DeleteRow(t: Table, s: Session, now: int, id: JobId): Table {
    var key := Key(s.queue, id);
    if key in t && Claimable(t[key], s, now) then t - {key} else t
  }

  predicate HoldsLane(row: Row, s: Session, leaseMs: int, now: int, job: StoredJob) {
    && row.job.lane == job.lane && row.job.state == Running && row.job.id != job.id
    && row.owner.Some? && row.owner.value != s.owner
    && row.leasedAt.Some? && row.leasedAt.value >= now - leaseMs
  }

  predicate LaneHeld(t: Table, s: Session, leaseMs: int, now: int, job: StoredJob) {
    exists key :: key in t && key.queue == s.queue && HoldsLane(t[key], s, leaseMs, now, job)
  }

  function AcquireLane(t: Table, s: Session, now: int, job: StoredJob): (Table, LeaseStore.Answer) {
    if job.lane == None || s.leaseMs == None then WriteRow(t, s, now, job)
    else if LaneHeld(t, s, s.leaseMs.value, now, job) then (t, LeaseStore.Refused)
    else WriteRow(t, s, now, job)
  }

  function RenewRows(t: Table, s: Session, now: int, ids: seq<JobId>): (Table, seq<JobId>) {
    var ours := set id | id in ids && Key(s.queue, id) in t && t[Key(s.queue, id)].owner == Some(s.owner);
    (map key | key in t ::
        if key.queue == s.queue && key.id in ours then t[key].(leasedAt := Some(now)) else t[key],
     Keep(ids, (set id | id in ids) - ours))
  }

  /** The namespace's jobs by id. */
  function Listed(t: Table, queue: string): (r: map<JobId, StoredJob>)
    ensures forall id :: id in r <==> Key(queue, id) in t
    ensures forall id :: id in r ==> r[id] == t[Key(queue, id)].job
  {
    var keys := set key | key in t && key.queue == queue;
    assert forall id :: Key(queue, id) in t ==> Key(queue, id) in keys;
    map id | id in (set key | key in keys :: key.id) :: t[Key(queue, id)].job
  }

  /** Stamp these rows with this owner, and write them back as queued. */
  function Stamp(t: Table, s: Session, now: int, ids: seq<JobId>): Table {
    map key | key in t ::
      if key.queue == s.queue && key.id in ids then Row(t[key].job.(state := Queued), Some(s.owner), Some(now)) else t[key]
  }

  ghost predicate Scans(t: Table, queue: string, scan: seq<JobId>) {
    NoDup(scan) && forall id :: id in scan <==> Key(queue, id) in t
  }

  predicate Loadable(t: Table, s: Session, now: int, id: JobId) {
    var key := Key(s.queue, id);
    key in t && Outstanding(t[key].job.state) && Claimable(t[key], s, now)
  }

  function ToLoad(t: Table, s: Session, now: int, scan: seq<JobId>): (r: seq<JobId>)
    ensures forall id :: id in r ==> Key(s.queue, id) in t
  {
    LeaseStore.Oldest(Keep(scan, set id | id in scan && Loadable(t, s, now, id)), Listed(t, s.queue))
  }

  function LoadRows(t: Table, s: Session, now: int, scan: seq<JobId>): (Table, seq<StoredJob>) {
    var ids := ToLoad(t, s, now, scan);
    (Stamp(t, s, now, ids), JobsOf(Listed(t, s.queue), ids))
  }

  function JobsOf(jobs: map<JobId, StoredJob>, ids: seq<JobId>): (r: seq<StoredJob>)
    requires forall id :: id in ids ==> id in jobs
    ensures |r| == |ids| && forall k :: 0 <= k < |r| ==> r[k] == jobs[ids[k]]
  {
    if ids == [] then [] else [jobs[ids[0]]] + JobsOf(jobs, ids[1..])
  }

  predicate Adoptable(t: Table, s: Session, leaseMs: int, now: int, id: JobId) {
    var key := Key(s.queue, id);
    && key in t && Outstanding(t[key].job.state)
    && (t[key].owner == None || t[key].owner != Some(s.owner))
    && (t[key].leasedAt == None || AgedOut(t[key], leaseMs, now))
  }

  function ToAdopt(t: Table, s: Session, leaseMs: int, now: int, scan: seq<JobId>): (r: seq<JobId>)
    ensures forall id :: id in r ==> Key(s.queue, id) in t
  {
    var strays := LeaseStore.Oldest(Keep(scan, set id | id in scan && Adoptable(t, s, leaseMs, now, id)), Listed(t, s.queue));
    if |strays| <= LeaseStore.ADOPTION_BATCH then strays else strays[..LeaseStore.ADOPTION_BATCH]
  }

  function AdoptRows(t: Table, s: Session, now: int, scan: seq<JobId>): (Table, seq<StoredJob>) {
    if s.leaseMs == None then (t, [])
    else
      var ids := ToAdopt(t, s, s.leaseMs.value, now, scan);
      var after := Stamp(t, s, now, ids);
      (after, JobsOf(Listed(after, s.queue), ids))
  }

  // ---- In place ----

  class JobsTable {
    var rows: Table

    constructor ()
      ensures rows == map[]
    {
      rows := map[];
    }
  }

  class PostgresJobStore {
    const table: JobsTable
    const session: Session

    constructor (table: JobsTable, session: Session)
      ensures this.table == table && this.session == session
    {
      this.table, this.session := table, session;
    }

    method Save(job: StoredJob, now: int) returns (answer: LeaseStore.Answer)
      modifies table
      ensures (table.rows, answer) == WriteRow(old(table.rows), session, now, job)
    {
      var key := Key(session.queue, job.id);
      if key in table.rows {
        var row := table.rows[key];
        if !Claimable(row, session, now) { return LeaseStore.LeaseLost; }
        table.rows := table.rows[key := Row(job.(enqueuedAt := row.job.enqueuedAt), Some(session.owner), Some(now))];
      } else {
        table.rows := table.rows[key := Row(job, Some(session.owner), Some(now))];
      }
      answer := LeaseStore.Done;
    }

    method Acquire(job: StoredJob, now: int) returns (answer: LeaseStore.Answer)
      modifies table
      ensures (table.rows, answer) == AcquireLane(old(table.rows), session, now, job)
    {
      if job.lane != None && session.leaseMs != None {
        var held := LaneHeld(table.rows, session, session.leaseMs.value, now, job);
        if held { return LeaseStore.Refused; }
      }
      answer := Save(job, now);
    }

    method Remove(id: JobId, now: int)
      modifies table
      ensures table.rows == DeleteRow(old(table.rows), session, now, id)
    {
      var key := Key(session.queue, id);
      if key in table.rows && Claimable(table.rows[key], session, now) { table.rows := table.rows - {key}; }
    }

    /** Stamps afresh each row in this owner's name, and lists the other ids as lost. */
    method Renew(ids: seq<JobId>, now: int) returns (lost: seq<JobId>)
      modifies table
      ensures (table.rows, lost) == RenewRows(old(table.rows), session, now, ids)
    {
      if ids == [] {
        assert table.rows == RenewRows(table.rows, session, now, ids).0;
        return [];
      }
      var t := table.rows;
      var renewed := set id | id in ids && Key(session.queue, id) in t && t[Key(session.queue, id)].owner == Some(session.owner);
      table.rows := map key | key in t ::
        if key.queue == session.queue && key.id in renewed then t[key].(leasedAt := Some(now)) else t[key];
      lost := Keep(ids, (set id | id in ids) - renewed);
    }

    method Load(now: int, scan: seq<JobId>) returns (jobs: seq<StoredJob>)
      requires Scans(table.rows, session.queue, scan)
      modifies table
      ensures (table.rows, jobs) == LoadRows(old(table.rows), session, now, scan)
    {
      var ids := ToLoad(table.rows, session, now, scan);
      jobs := JobsOf(Listed(table.rows, session.queue), ids);
      if ids == [] {
        assert Stamp(table.rows, session, now, ids) == table.rows;
        return;
      }
      table.rows := Stamp(table.rows, session, now, ids);
    }

    method Adopt(now: int, scan: seq<JobId>) returns (jobs: seq<StoredJob>)
      requires Scans(table.rows, session.queue, scan)
      modifies table
      ensures (table.rows, jobs) == AdoptRows(old(table.rows), session, now, scan)
    {
      if session.leaseMs == None { return []; }
      var ids := ToAdopt(table.rows, session, session.leaseMs.value, now, scan);
      if ids == [] {
        assert Stamp(table.rows, session, now, ids) == table.rows;
        return [];
      }
      table.rows := Stamp(table.rows, session, now, ids);
      jobs := JobsOf(Listed(table.rows, session.queue), ids);
    }
  }
}
