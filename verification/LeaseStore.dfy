/**
 * The lease store as a value: its rows in insertion order, and who claims each since when.
 *
 * Every function here is one atomic store call made by one handle at one clock reading.
 */
module LeaseStore {
  import opened Jobs
  import opened Sequences

  const ADOPTION_BATCH := 25

  datatype Lease = Lease(owner: Owner, leasedAt: int)

  /** Which worker a call speaks for, and how long a claim stands (`None`: no leases at all). */
  datatype Handle = Handle(owner: Owner, leaseMs: Option<int>)

  datatype Store = Store(order: seq<JobId>, rows: map<JobId, StoredJob>, leases: map<JobId, Lease>)

  ghost predicate Valid(st: Store) {
    var ok :=
      && NoDup(st.order)
      && (forall id :: id in st.order <==> id in st.rows)
      && (forall id :: id in st.rows ==> st.rows[id].id == id)
      && (forall id :: id in st.leases ==> id in st.rows);
    ok
  }

  // ---- Claims ----

  predicate Live(lease: Lease, leaseMs: int, now: int) {
    now - lease.leasedAt < leaseMs
  }

  /** The job's lease names an owner other than the handle's, and is live. */
  predicate HeldByAnother(st: Store, h: Handle, now: int, id: JobId) {
    && h.leaseMs.Some?
    && id in st.leases
    && st.leases[id].owner != h.owner
    && Live(st.leases[id], h.leaseMs.value, now)
  }

  /** The job has no lease, or only a lapsed one of some other owner. */
  predicate Abandoned(st: Store, h: Handle, now: int, id: JobId) {
    && h.leaseMs.Some?
    && (id in st.leases ==>
      st.leases[id].owner != h.owner && !Live(st.leases[id], h.leaseMs.value, now))
  }

  function Claim(st: Store, h: Handle, now: int, id: JobId): Store {
    st.(leases := st.leases[id := Lease(h.owner, now)])
  }

  /** `Map.set`: a key already there keeps its place, a new one goes last. */
  function Put(st: Store, job: StoredJob): Store {
    st.(order := if job.id in st.rows then st.order else st.order + [job.id],
        rows := st.rows[job.id := job])
  }

  // ---- The calls ----

  datatype Answer = Done | Refused | LeaseLost

  function Save(st: Store, h: Handle, now: int, job: StoredJob): (Store, Answer) {
    if HeldByAnother(st, h, now, job.id) then (st, LeaseLost)
    else (Claim(Put(st, job), h, now, job.id), Done)
  }

  /** Another live worker is running a different job in this job's lane. */
  predicate LaneHeld(st: Store, h: Handle, now: int, job: StoredJob) {
    && job.lane.Some?
    && exists other :: other in st.rows && other != job.id
         && st.rows[other].lane == job.lane && st.rows[other].state == Running
         && HeldByAnother(st, h, now, other)
  }

  function Acquire(st: Store, h: Handle, now: int, job: StoredJob): (Store, Answer) {
    if LaneHeld(st, h, now, job) then (st, Refused) else Save(st, h, now, job)
  }

  function Remove(st: Store, h: Handle, now: int, id: JobId): Store {
    if HeldByAnother(st, h, now, id) then st
    else st.(order := Without(st.order, id), rows := st.rows - {id}, leases := st.leases - {id})
  }

  predicate Renewable(st: Store, h: Handle, now: int, id: JobId) {
    id in st.rows && !HeldByAnother(st, h, now, id)
  }

  /** Refresh each claim in turn, and report the ids that are gone or held elsewhere. */
  function Renew(st: Store, h: Handle, now: int, ids: seq<JobId>): (Store, seq<JobId>)
    decreases ids
  {
    if ids == [] then (st, [])
    else if Renewable(st, h, now, ids[0]) then Renew(Claim(st, h, now, ids[0]), h, now, ids[1..])
    else
      var (after, lost) := Renew(st, h, now, ids[1..]);
      (after, [ids[0]] + lost)
  }

  /** Claim each row and write it down as queued. */
  function Requeue(st: Store, h: Handle, now: int, ids: seq<JobId>): Store
    requires forall id :: id in ids ==> id in st.rows
    decreases ids
  {
    if ids == [] then st
    else
      var row := st.rows[ids[0]];
      Requeue(Claim(Put(st, row.(id := ids[0], state := Queued)), h, now, ids[0]), h, now, ids[1..])
  }

  function Rows(st: Store, ids: seq<JobId>): (r: seq<StoredJob>)
    requires forall id :: id in ids ==> id in st.rows
    ensures |r| == |ids|
    ensures forall k :: 0 <= k < |r| ==> r[k] == st.rows[ids[k]]
  {
    if ids == [] then [] else [st.rows[ids[0]]] + Rows(st, ids[1..])
  }

  /** The ids `load` takes: everything no one else holds, oldest first. */
  function Free(st: Store, h: Handle, now: int): (r: seq<JobId>)
    ensures forall id :: id in r ==> id in st.rows && !HeldByAnother(st, h, now, id)
  {
    Oldest(Keep(st.order, set id | id in st.rows && !HeldByAnother(st, h, now, id)), st.rows)
  }

  function Load(st: Store, h: Handle, now: int): (Store, seq<StoredJob>) {
    (Requeue(st, h, now, Free(st, h, now)), Rows(st, Free(st, h, now)))
  }

  /** Every abandoned id, oldest first; `adopt` takes the front of it. */
  function Strays(st: Store, h: Handle, now: int): (r: seq<JobId>)
    ensures forall id :: id in r ==> id in st.rows && Abandoned(st, h, now, id)
  {
    Oldest(Keep(st.order, set id | id in st.rows && Abandoned(st, h, now, id)), st.rows)
  }

  function Taken(st: Store, h: Handle, now: int): (r: seq<JobId>)
    ensures forall id :: id in r ==> id in st.rows && Abandoned(st, h, now, id)
  {
    var strays := Strays(st, h, now);
    if |strays| <= ADOPTION_BATCH then strays else strays[..ADOPTION_BATCH]
  }

  function Adopt(st: Store, h: Handle, now: int): (Store, seq<StoredJob>) {
    var after := Requeue(st, h, now, Taken(st, h, now));
    RequeueEffect(st, h, now, Taken(st, h, now));
    (after, Rows(after, Taken(st, h, now)))
  }

  // ---- Oldest first: a stable sort by enqueue time ----

  function InsertByAge(id: JobId, sorted: seq<JobId>, rows: map<JobId, StoredJob>): (r: seq<JobId>)
    requires id in rows && forall x :: x in sorted ==> x in rows
    ensures forall x :: x in r <==> x == id || x in sorted
  {
    if sorted == [] || rows[id].enqueuedAt <= rows[sorted[0]].enqueuedAt then [id] + sorted
    else [sorted[0]] + InsertByAge(id, sorted[1..], rows)
  }

  function Oldest(ids: seq<JobId>, rows: map<JobId, StoredJob>): (r: seq<JobId>)
    requires forall x :: x in ids ==> x in rows
    ensures forall x :: x in r <==> x in ids
  {
    if ids == [] then [] else InsertByAge(ids[0], Oldest(ids[1..], rows), rows)
  }

  ghost predicate SortedByAge(ids: seq<JobId>, rows: map<JobId, StoredJob>)
    requires forall x :: x in ids ==> x in rows
  {
    forall i, j :: 0 <= i < j < |ids| ==> rows[ids[i]].enqueuedAt <= rows[ids[j]].enqueuedAt
  }

  /** The ids enqueued at exactly `t`, in the order they stand. */
  function SameAge(ids: seq<JobId>, rows: map<JobId, StoredJob>, t: int): seq<JobId> {
    if ids == [] then []
    else if ids[0] in rows && rows[ids[0]].enqueuedAt == t then [ids[0]] + SameAge(ids[1..], rows, t)
    else SameAge(ids[1..], rows, t)
  }

  lemma {:induction false} InsertByAgeOrders(id: JobId, sorted: seq<JobId>, rows: map<JobId, StoredJob>)
    requires id in rows && forall x :: x in sorted ==> x in rows
    requires SortedByAge(sorted, rows)
    ensures SortedByAge(InsertByAge(id, sorted, rows), rows)
  {
    var r := InsertByAge(id, sorted, rows);
    if sorted == [] || rows[id].enqueuedAt <= rows[sorted[0]].enqueuedAt {
    } else {
      var rest := InsertByAge(id, sorted[1..], rows);
      assert SortedByAge(sorted[1..], rows) by {
        forall i, j | 0 <= i < j < |sorted[1..]|
          ensures rows[sorted[1..][i]].enqueuedAt <= rows[sorted[1..][j]].enqueuedAt {
          assert rows[sorted[i + 1]].enqueuedAt <= rows[sorted[j + 1]].enqueuedAt;
        }
      }
      InsertByAgeOrders(id, sorted[1..], rows);
      forall i, j | 0 <= i < j < |r| ensures rows[r[i]].enqueuedAt <= rows[r[j]].enqueuedAt {
        assert r[j] == rest[j - 1];
        if i > 0 { assert r[i] == rest[i - 1]; } else { assert rest[j - 1] in rest; }
      }
    }
  }

  lemma {:induction false} InsertByAgeKeeps(id: JobId, sorted: seq<JobId>, rows: map<JobId, StoredJob>)
    requires id in rows && forall x :: x in sorted ==> x in rows
    ensures multiset(InsertByAge(id, sorted, rows)) == multiset{id} + multiset(sorted)
  {
    if sorted == [] || rows[id].enqueuedAt <= rows[sorted[0]].enqueuedAt {
    } else {
      InsertByAgeKeeps(id, sorted[1..], rows);
      assert sorted == [sorted[0]] + sorted[1..];
    }
  }

  lemma {:induction false} InsertByAgeStable(id: JobId, sorted: seq<JobId>, rows: map<JobId, StoredJob>, t: int)
    requires id in rows && forall x :: x in sorted ==> x in rows
    ensures SameAge(InsertByAge(id, sorted, rows), rows, t) == SameAge([id] + sorted, rows, t)
  {
    if sorted == [] || rows[id].enqueuedAt <= rows[sorted[0]].enqueuedAt {
    } else {
      var rest := InsertByAge(id, sorted[1..], rows);
      InsertByAgeStable(id, sorted[1..], rows, t);
      assert ([sorted[0]] + rest)[1..] == rest;
      assert ([id] + sorted[1..])[1..] == sorted[1..];
      assert ([id] + sorted)[1..] == sorted;
    }
  }

  /** `Array.sort` as the store uses it: a permutation, oldest first, ties left in the order they stood. */
  lemma {:induction false} OldestSorts(ids: seq<JobId>, rows: map<JobId, StoredJob>, t: int)
    requires forall x :: x in ids ==> x in rows
    ensures SortedByAge(Oldest(ids, rows), rows)
    ensures multiset(Oldest(ids, rows)) == multiset(ids)
    ensures SameAge(Oldest(ids, rows), rows, t) == SameAge(ids, rows, t)
  {
    if ids != [] {
      var rest := Oldest(ids[1..], rows);
      OldestSorts(ids[1..], rows, t);
      InsertByAgeOrders(ids[0], rest, rows);
      InsertByAgeKeeps(ids[0], rest, rows);
      InsertByAgeStable(ids[0], rest, rows, t);
      assert ids == [ids[0]] + ids[1..];
      assert ([ids[0]] + rest)[1..] == rest;
    }
  }

  lemma {:induction false} InsertByAgeNoDup(id: JobId, sorted: seq<JobId>, rows: map<JobId, StoredJob>)
    requires id in rows && forall x :: x in sorted ==> x in rows
    requires NoDup(sorted) && id !in sorted
    ensures NoDup(InsertByAge(id, sorted, rows))
    ensures |InsertByAge(id, sorted, rows)| == |sorted| + 1
  {
    if sorted == [] || rows[id].enqueuedAt <= rows[sorted[0]].enqueuedAt {
      PrependNoDup(id, sorted);
    } else {
      TailNoDup(sorted);
      InsertByAgeNoDup(id, sorted[1..], rows);
      PrependNoDup(sorted[0], InsertByAge(id, sorted[1..], rows));
    }
  }

  lemma {:induction false} OldestNoDup(ids: seq<JobId>, rows: map<JobId, StoredJob>)
    requires NoDup(ids) && forall x :: x in ids ==> x in rows
    ensures NoDup(Oldest(ids, rows)) && |Oldest(ids, rows)| == |ids|
  {
    if ids != [] {
      TailNoDup(ids);
      OldestNoDup(ids[1..], rows);
      InsertByAgeNoDup(ids[0], Oldest(ids[1..], rows), rows);
    }
  }

  // ---- What the folds amount to, row by row ----

  lemma {:induction false} RequeueEffect(st: Store, h: Handle, now: int, ids: seq<JobId>)
    requires forall id :: id in ids ==> id in st.rows
    ensures
      var after := Requeue(st, h, now, ids);
      && after.order == st.order
      && after.rows.Keys == st.rows.Keys
      && (forall id :: id in st.rows ==>
           after.rows[id] == if id in ids then st.rows[id].(id := id, state := Queued) else st.rows[id])
      && (forall id :: id in after.leases <==> id in st.leases || id in ids)
      && (forall id :: id in after.leases ==>
           if id in ids then after.leases[id] == Lease(h.owner, now)
           else id in st.leases && after.leases[id] == st.leases[id])
    decreases ids
  {
    if ids != [] {
      var row := st.rows[ids[0]];
      var mid := Claim(Put(st, row.(id := ids[0], state := Queued)), h, now, ids[0]);
      RequeueEffect(mid, h, now, ids[1..]);
      assert Requeue(st, h, now, ids) == Requeue(mid, h, now, ids[1..]);
      assert forall id :: id in ids <==> id == ids[0] || id in ids[1..];
    }
  }

  lemma {:induction false} RenewEffect(st: Store, h: Handle, now: int, ids: seq<JobId>)
    ensures
      var (after, lost) := Renew(st, h, now, ids);
      && after.order == st.order && after.rows == st.rows
      && (forall id :: id in after.leases <==>
           id in st.leases || (id in ids && Renewable(st, h, now, id)))
      && (forall id :: id in after.leases ==>
           if id in ids && Renewable(st, h, now, id) then after.leases[id] == Lease(h.owner, now)
           else id in st.leases && after.leases[id] == st.leases[id])
    decreases ids
  {
    if ids != [] {
      var id0 := ids[0];
      assert forall id :: id in ids <==> id == id0 || id in ids[1..];
      if Renewable(st, h, now, id0) {
        var mid := Claim(st, h, now, id0);
        assert forall id :: Renewable(mid, h, now, id) == Renewable(st, h, now, id);
        RenewEffect(mid, h, now, ids[1..]);
        assert Renew(st, h, now, ids) == Renew(mid, h, now, ids[1..]);
      } else {
        RenewEffect(st, h, now, ids[1..]);
        assert Renew(st, h, now, ids).0 == Renew(st, h, now, ids[1..]).0;
      }
    }
  }

  /** `renew` reports exactly the given ids that are missing or held elsewhere, in the order given. */
  lemma {:induction false} RenewReports(st: Store, h: Handle, now: int, ids: seq<JobId>)
    ensures Renew(st, h, now, ids).1 == Keep(ids, set id | id in ids && !Renewable(st, h, now, id))
    decreases ids
  {
    if ids != [] {
      var id0 := ids[0];
      if Renewable(st, h, now, id0) {
        var mid := Claim(st, h, now, id0);
        assert forall id :: Renewable(mid, h, now, id) == Renewable(st, h, now, id);
        RenewReports(mid, h, now, ids[1..]);
      } else {
        RenewReports(st, h, now, ids[1..]);
      }
      KeepAgrees(ids[1..], set id | id in ids[1..] && !Renewable(st, h, now, id),
                 set id | id in ids && !Renewable(st, h, now, id));
      assert (set id | id in ids[1..] && !Renewable(st, h, now, id)) ==
        if Renewable(st, h, now, id0)
        then (set id | id in ids[1..] && !Renewable(Claim(st, h, now, id0), h, now, id))
        else (set id | id in ids[1..] && !Renewable(st, h, now, id));
    }
  }

  lemma {:induction false} KeepAgrees(s: seq<JobId>, a: set<JobId>, b: set<JobId>)
    requires forall x :: x in s ==> (x in a <==> x in b)
    ensures Keep(s, a) == Keep(s, b)
  {
    if s != [] { KeepAgrees(s[1..], a, b); }
  }
}
