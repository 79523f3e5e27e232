/** The in-memory store: handles for different workers on one shared pair of maps, updated in place. */
module MemoryStore {
  import opened Jobs
  import opened Sequences
  import LeaseStore

  /** The maps two handles share, exactly as two workers share a table. */
  class Shelf {
    var order: seq<JobId>               // the insertion order of `rows`
    var rows: map<JobId, StoredJob>
    var leases: map<JobId, LeaseStore.Lease>

    constructor ()
      ensures Contents() == LeaseStore.Store([], map[], map[])
    {
      order, rows, leases := [], map[], map[];
    }

    function Contents(): LeaseStore.Store
      reads this
    {
      LeaseStore.Store(order, rows, leases)
    }

    method Set(job: StoredJob)
      modifies this
      ensures Contents() == LeaseStore.Put(old(Contents()), job)
    {
      if job.id !in rows { order := order + [job.id]; }
      rows := rows[job.id := job];
    }
  }

  /** The rows, as they will be written back. */
  function QueuedRows(st: LeaseStore.Store, ids: seq<JobId>): (r: seq<StoredJob>)
    requires forall id :: id in ids ==> id in st.rows
    ensures |r| == |ids| && forall k :: 0 <= k < |r| ==> r[k] == st.rows[ids[k]].(state := Queued)
  {
    if ids == [] then [] else [st.rows[ids[0]].(state := Queued)] + QueuedRows(st, ids[1..])
  }

  lemma QueuedRowsAre(st: LeaseStore.Store, h: LeaseStore.Handle, now: int, ids: seq<JobId>)
    requires LeaseStore.Valid(st) && forall id :: id in ids ==> id in st.rows
    ensures
      var after := LeaseStore.Requeue(st, h, now, ids);
      (forall id :: id in ids ==> id in after.rows) && QueuedRows(st, ids) == LeaseStore.Rows(after, ids)
  {
    LeaseStore.RequeueEffect(st, h, now, ids);
    var after := LeaseStore.Requeue(st, h, now, ids);
    forall k | 0 <= k < |ids| ensures QueuedRows(st, ids)[k] == LeaseStore.Rows(after, ids)[k] { assert ids[k] in ids; }
  }

  lemma {:induction false} KeepNothing(ids: seq<JobId>)
    ensures Keep(ids, {}) == []
  {
    if ids != [] { KeepNothing(ids[1..]); }
  }

  lemma NothingStray(st: LeaseStore.Store, h: LeaseStore.Handle, now: int)
    requires h.leaseMs == None
    ensures LeaseStore.Adopt(st, h, now) == (st, [])
  {
    var none := set id | id in st.rows && LeaseStore.Abandoned(st, h, now, id);
    assert none == {};
    KeepNothing(st.order);
    LeaseStore.RequeueEffect(st, h, now, []);
  }

  class MemoryJobStore {
    const shelf: Shelf
    const owner: Owner
    const leaseMs: Option<int>

    constructor (shelf: Shelf, owner: Owner, leaseMs: Option<int>)
      ensures this.shelf == shelf && Handle() == LeaseStore.Handle(owner, leaseMs)
    {
      this.shelf, this.owner, this.leaseMs := shelf, owner, leaseMs;
    }

    function Handle(): LeaseStore.Handle {
      LeaseStore.Handle(owner, leaseMs)
    }

    function Contents(): LeaseStore.Store
      reads shelf
    {
      shelf.Contents()
    }

    /** Shares this handle's shelf under another owner's name. */
    method WithOwner(other: Owner) returns (handle: MemoryJobStore)
      ensures fresh(handle) && handle.shelf == shelf && handle.Handle() == LeaseStore.Handle(other, leaseMs)
    {
      handle := new MemoryJobStore(shelf, other, leaseMs);
    }

    method IsHeldByAnother(id: JobId, now: int) returns (held: bool)
      ensures held == LeaseStore.HeldByAnother(Contents(), Handle(), now, id)
    {
      if leaseMs == None { return false; }
      if id !in shelf.leases || shelf.leases[id].owner == owner { return false; }
      return now - shelf.leases[id].leasedAt < leaseMs.value;
    }

    method Claim(id: JobId, now: int)
      modifies shelf
      ensures Contents() == LeaseStore.Claim(old(Contents()), Handle(), now, id)
    {
      shelf.leases := shelf.leases[id := LeaseStore.Lease(owner, now)];
    }

    /** Claim each of `jobs` and write it down as queued. */
    method Requeue(jobs: seq<StoredJob>, ghost ids: seq<JobId>, now: int)
      requires |ids| == |jobs| && forall k :: 0 <= k < |ids| ==> ids[k] in Contents().rows && jobs[k].id == ids[k]
      requires forall k :: 0 <= k < |ids| ==> jobs[k].(state := Queued) == Contents().rows[ids[k]].(state := Queued)
      modifies shelf
      ensures Contents() == LeaseStore.Requeue(old(Contents()), Handle(), now, ids)
    {
      ghost var before := Contents();
      for i := 0 to |jobs|
        invariant forall k :: 0 <= k < |ids| ==> ids[k] in Contents().rows
        invariant forall k :: 0 <= k < |ids| ==> jobs[k].(state := Queued) == Contents().rows[ids[k]].(state := Queued)
        invariant LeaseStore.Requeue(Contents(), Handle(), now, ids[i..]) == LeaseStore.Requeue(before, Handle(), now, ids)
      {
        Claim(jobs[i].id, now);
        shelf.Set(jobs[i].(state := Queued));
      }
    }

    method Load(now: int) returns (jobs: seq<StoredJob>)
      requires LeaseStore.Valid(Contents())
      modifies shelf
      ensures (Contents(), jobs) == LeaseStore.Load(old(Contents()), Handle(), now)
    {
      var ids := LeaseStore.Free(Contents(), Handle(), now);
      jobs := LeaseStore.Rows(Contents(), ids);
      Requeue(jobs, ids, now);
    }

    method Acquire(job: StoredJob, now: int) returns (answer: LeaseStore.Answer)
      requires LeaseStore.Valid(Contents())
      modifies shelf
      ensures (Contents(), answer) == LeaseStore.Acquire(old(Contents()), Handle(), now, job)
    {
      if job.lane != None && leaseMs != None {
        for i := 0 to |shelf.order|
          invariant Contents() == old(Contents())
          invariant forall k :: 0 <= k < i ==> !Blocks(shelf.order[k], job, now)
        {
          var other := shelf.rows[shelf.order[i]];
          if other.id == job.id || other.lane != job.lane || other.state != Running { continue; }
          var held := IsHeldByAnother(other.id, now);
          if held {
            assert Blocks(other.id, job, now);
            return LeaseStore.Refused;
          }
        }
        assert forall other :: other in shelf.rows ==> other in shelf.order;
        assert forall other :: !Blocks(other, job, now);
      }
      answer := Save(job, now);
    }

    /** Another live worker is running this other job in the lane asked for. */
    ghost predicate Blocks(other: JobId, job: StoredJob, now: int)
      reads shelf
    {
      && other in shelf.rows && other != job.id
      && shelf.rows[other].lane == job.lane && shelf.rows[other].state == Running
      && LeaseStore.HeldByAnother(Contents(), Handle(), now, other)
    }

    method Save(job: StoredJob, now: int) returns (answer: LeaseStore.Answer)
      modifies shelf
      ensures (Contents(), answer) == LeaseStore.Save(old(Contents()), Handle(), now, job)
    {
      var held := IsHeldByAnother(job.id, now);
      if held { return LeaseStore.LeaseLost; }
      shelf.Set(job);
      Claim(job.id, now);
      answer := LeaseStore.Done;
    }

    method Remove(id: JobId, now: int)
      modifies shelf
      ensures Contents() == LeaseStore.Remove(old(Contents()), Handle(), now, id)
    {
      var held := IsHeldByAnother(id, now);
      if held { return; }
      shelf.order := Without(shelf.order, id);
      shelf.rows := shelf.rows - {id};
      shelf.leases := shelf.leases - {id};
    }

    method Renew(ids: seq<JobId>, now: int) returns (lost: seq<JobId>)
      modifies shelf
      ensures (Contents(), lost) == LeaseStore.Renew(old(Contents()), Handle(), now, ids)
    {
      lost := [];
      ghost var before := Contents();
      assert ids[0..] == ids;
      for i := 0 to |ids|
        invariant LeaseStore.Renew(before, Handle(), now, ids).0 == LeaseStore.Renew(Contents(), Handle(), now, ids[i..]).0
        invariant LeaseStore.Renew(before, Handle(), now, ids).1 == lost + LeaseStore.Renew(Contents(), Handle(), now, ids[i..]).1
      {
        assert ids[i..][0] == ids[i] && ids[i..][1..] == ids[i + 1..];
        ghost var rest := LeaseStore.Renew(Contents(), Handle(), now, ids[i + 1..]).1;
        assert lost + ([ids[i]] + rest) == (lost + [ids[i]]) + rest;
        var held := IsHeldByAnother(ids[i], now);
        if ids[i] !in shelf.rows || held {
          lost := lost + [ids[i]];
        } else {
          Claim(ids[i], now);
        }
      }
      assert ids[|ids|..] == [];
      assert lost + [] == lost;
    }

    method Adopt(now: int) returns (taken: seq<StoredJob>)
      requires LeaseStore.Valid(Contents())
      modifies shelf
      ensures (Contents(), taken) == LeaseStore.Adopt(old(Contents()), Handle(), now)
    {
      if leaseMs == None {
        NothingStray(Contents(), Handle(), now);
        return [];
      }
      var ids := LeaseStore.Taken(Contents(), Handle(), now);
      taken := QueuedRows(Contents(), ids);
      QueuedRowsAre(Contents(), Handle(), now, ids);
      Requeue(taken, ids, now);
    }
  }
}
