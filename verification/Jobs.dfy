/** The vocabulary the queue and its stores share: ids, lanes, owners, and the row a job has in a store. */
module Jobs {

  datatype Option<+T> = None | Some(value: T)

  datatype JobId = JobId(text: string)
  datatype Lane = Lane(host: string)
  datatype Owner = Owner(name: string)
  datatype Payload = Payload(text: string)

  datatype JobState = Queued | Running | Complete | Failed | Cancelled

  predicate Terminal(s: JobState) {
    s == Complete || s == Failed || s == Cancelled
  }

  /** Everything needed to rebuild a job. Times are milliseconds. */
  datatype StoredJob = StoredJob(
    id: JobId,
    payload: Payload,
    lane: Option<Lane>,
    priority: int,
    state: JobState,
    attempt: nat,
    enqueuedAt: int,
    nextAttemptAt: Option<int>,
    error: Option<string>)

  /** A plain save may write a running row only where there is no lane to hold. */
  predicate Discreet(job: StoredJob) {
    job.state == Running ==> job.lane == None
  }

  function Min(a: int, b: int): int { if a <= b then a else b }
  function Max(a: int, b: int): int { if a >= b then a else b }
}

/** Sequences without repeats, and the small edits the queue and the stores make to them. */
module Sequences {

  ghost predicate NoDup<T(!new)>(s: seq<T>) {
    forall i, j :: 0 <= i < j < |s| ==> s[i] != s[j]
  }

  /** `filter`: the elements of `keep`, in the order they stand. */
  function Keep<T(!new, ==)>(s: seq<T>, keep: set<T>): (r: seq<T>)
    ensures |r| <= |s|
    ensures forall x :: x in r <==> x in s && x in keep
  {
    if s == [] then []
    else if s[0] in keep then [s[0]] + Keep(s[1..], keep)
    else Keep(s[1..], keep)
  }

  lemma TailNoDup<T(!new)>(s: seq<T>)
    requires s != [] && NoDup(s)
    ensures NoDup(s[1..]) && s[0] !in s[1..]
  {
    forall i, j | 0 <= i < j < |s[1..]| ensures s[1..][i] != s[1..][j] {
      assert s[i + 1] != s[j + 1];
    }
  }

  lemma PrependNoDup<T(!new)>(x: T, s: seq<T>)
    requires NoDup(s) && x !in s
    ensures NoDup([x] + s)
  {
    var r := [x] + s;
    forall i, j | 0 <= i < j < |r| ensures r[i] != r[j] {
      assert r[j] == s[j - 1];
      if i > 0 { assert r[i] == s[i - 1]; }
    }
  }

  lemma {:induction false} KeepNoDup<T(!new)>(s: seq<T>, keep: set<T>)
    requires NoDup(s)
    ensures NoDup(Keep(s, keep))
  {
    if s != [] {
      TailNoDup(s);
      KeepNoDup(s[1..], keep);
      if s[0] in keep { PrependNoDup(s[0], Keep(s[1..], keep)); }
    }
  }

  /** Without repeats, a sequence is as long as its set of elements. */
  lemma {:induction false} NoDupSize<T(!new)>(s: seq<T>)
    requires NoDup(s)
    ensures |set x | x in s| == |s|
  {
    if s != [] {
      TailNoDup(s);
      NoDupSize(s[1..]);
      assert (set x | x in s) == {s[0]} + set x | x in s[1..];
    }
  }

  /** `splice(k, 1)`: the element at `k` dropped, the rest in order. */
  function DropAt<T>(s: seq<T>, k: nat): (r: seq<T>)
    requires k < |s|
    ensures |r| == |s| - 1
  {
    s[..k] + s[k + 1..]
  }

  lemma DropAtNoDup<T(!new)>(s: seq<T>, k: nat)
    requires k < |s| && NoDup(s)
    ensures NoDup(DropAt(s, k))
    ensures forall x :: x in DropAt(s, k) <==> x in s && x != s[k]
  {
    var r := DropAt(s, k);
    assert forall i :: 0 <= i < |r| ==> r[i] == if i < k then s[i] else s[i + 1];
    forall x | x in s && x != s[k] ensures x in r {
      var i :| 0 <= i < |s| && s[i] == x;
      if i < k { assert r[i] == x; } else { assert r[i - 1] == x; }
    }
  }

  /** `indexOf` followed by `splice`, doing nothing when the element is not there. */
  function Without<T(==)>(s: seq<T>, x: T): (r: seq<T>)
    ensures |r| <= |s|
  {
    if s == [] then []
    else if s[0] == x then s[1..]
    else [s[0]] + Without(s[1..], x)
  }

  lemma {:induction false} WithoutNoDup<T(!new)>(s: seq<T>, x: T)
    requires NoDup(s)
    ensures NoDup(Without(s, x))
    ensures forall y :: y in Without(s, x) <==> y in s && y != x
    ensures |Without(s, x)| == if x in s then |s| - 1 else |s|
  {
    if s != [] {
      TailNoDup(s);
      WithoutNoDup(s[1..], x);
      if s[0] != x { PrependNoDup(s[0], Without(s[1..], x)); }
    }
  }

  lemma AppendNoDup<T(!new)>(s: seq<T>, x: T)
    requires NoDup(s) && x !in s
    ensures NoDup(s + [x])
    ensures forall y :: y in s + [x] <==> y in s || y == x
  {
  }
}
