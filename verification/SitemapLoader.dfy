/** Fetching the sitemaps a site declares: one lane for each, and a document budget spent round-robin across them. */
module SitemapLoader {
  import opened Jobs
  import opened Sequences

  const MAX_SITEMAP_DOCUMENTS := 50

  /** What a document came back with: whether it was served, and the sitemaps it lists. */
  datatype Answer = Answer(ok: bool, children: seq<string>)

  type Lanes = seq<seq<string>>

  predicate AllDry(lanes: Lanes) {
    forall i :: 0 <= i < |lanes| ==> lanes[i] == []
  }

  function Total(lanes: Lanes): nat {
    if lanes == [] then 0 else |lanes[0]| + Total(lanes[1..])
  }

  lemma {:induction false} TotalUpdate(lanes: Lanes, i: nat, lane: seq<string>)
    requires i < |lanes|
    ensures Total(lanes[i := lane]) == Total(lanes) - |lanes[i]| + |lane|
  {
    if i == 0 { assert lanes[0 := lane][1..] == lanes[1..]; }
    else {
      assert lanes[i := lane][1..] == lanes[1..][i - 1 := lane];
      TotalUpdate(lanes[1..], i - 1, lane);
    }
  }

  /** Turns to be taken before the next lane with anything in it, at most `limit`. */
  function Wait(lanes: Lanes, turn: nat, limit: nat): nat
    requires lanes != []
    decreases limit
  {
    if limit == 0 || lanes[turn % |lanes|] != [] then 0 else 1 + Wait(lanes, turn + 1, limit - 1)
  }

  /** Passing over a dry lane brings the next one with something in it nearer. */
  lemma {:induction false} PassingNears(lanes: Lanes, turn: nat, n: nat)
    requires lanes != [] && lanes[turn % |lanes|] == [] && !AllDry(lanes) && n == |lanes|
    ensures Wait(lanes, turn + 1, n) < Wait(lanes, turn, n)
  {
    WaitFinds(lanes, turn, n);
    WaitSteady(lanes, turn + 1, n - 1);
  }

  /** Within one round of the lanes there is one with something in it. */
  lemma WaitFinds(lanes: Lanes, turn: nat, n: nat)
    requires lanes != [] && n == |lanes| && !AllDry(lanes)
    ensures Wait(lanes, turn, n) < n
    ensures lanes[(turn + Wait(lanes, turn, n)) % n] != []
  {
    var i :| 0 <= i < n && lanes[i] != [];
    var k := Reaches(turn, i, n);
    WaitAtMost(lanes, turn, n, k);
    WaitStops(lanes, turn, n);
  }

  /** How many turns from `turn` until lane `i` is visited. */
  function Reaches(turn: nat, i: nat, n: nat): (k: nat)
    requires i < n
    ensures k < n && (turn + k) % n == i
  {
    var r := turn % n;
    var k := if r <= i then i - r else i - r + n;
    ModShift(turn, k, n);
    k
  }

  lemma ModShift(turn: nat, k: nat, n: nat)
    requires n > 0 && k < n
    ensures (turn + k) % n == if turn % n + k < n then turn % n + k else turn % n + k - n
  {
    var q, r := turn / n, turn % n;
    assert turn + k == n * q + (r + k);
    if r + k < n { ModOf(turn + k, n, q, r + k); }
    else {
      assert turn + k == n * (q + 1) + (r + k - n);
      ModOf(turn + k, n, q + 1, r + k - n);
    }
  }

  lemma ModOf(x: int, n: nat, q: int, r: nat)
    requires n > 0 && x == n * q + r && r < n
    ensures x % n == r && x / n == q
  {
    var q', r' := x / n, x % n;
    assert x == n * q' + r' && 0 <= r' < n;
    Distribute(n, q, q');
    MultipleBelow(n, q - q', r' - r);
  }

  lemma Distribute(n: int, a: int, b: int)
    ensures n * (a - b) == n * a - n * b
  {
  }

  /** The only multiple of `n` less than `n` away from nothing is nothing. */
  lemma MultipleBelow(n: int, d: int, e: int)
    requires n > 0 && n * d == e && -n < e < n
    ensures d == 0
  {
    if d >= 1 { Product(n, d - 1); Distribute(n, d, 1); }
    if d <= -1 { Product(n, -d - 1); Distribute(n, -d, 1); Distribute(n, 0, d); }
  }

  lemma Product(a: int, b: int)
    requires a >= 0 && b >= 0
    ensures a * b >= 0
  {
  }

  lemma {:induction false} WaitAtMost(lanes: Lanes, turn: nat, limit: nat, k: nat)
    requires lanes != [] && k < limit && lanes[(turn + k) % |lanes|] != []
    ensures Wait(lanes, turn, limit) <= k
    decreases limit
  {
    if k > 0 && lanes[turn % |lanes|] == [] { WaitAtMost(lanes, turn + 1, limit - 1, k - 1); }
  }

  lemma {:induction false} WaitStops(lanes: Lanes, turn: nat, limit: nat)
    requires lanes != []
    ensures Wait(lanes, turn, limit) <= limit
    ensures Wait(lanes, turn, limit) < limit ==> lanes[(turn + Wait(lanes, turn, limit)) % |lanes|] != []
    decreases limit
  {
    if limit > 0 && lanes[turn % |lanes|] == [] {
      WaitStops(lanes, turn + 1, limit - 1);
      assert turn + 1 + Wait(lanes, turn + 1, limit - 1) == turn + Wait(lanes, turn, limit);
    }
  }

  /** A longer limit changes nothing once the lane has been found. */
  lemma {:induction false} WaitSteady(lanes: Lanes, turn: nat, limit: nat)
    requires lanes != [] && Wait(lanes, turn, limit) < limit
    ensures Wait(lanes, turn, limit + 1) == Wait(lanes, turn, limit)
    decreases limit
  {
    if lanes[turn % |lanes|] == [] { WaitSteady(lanes, turn + 1, limit - 1); }
  }

  // ---- The turns a call takes ----

  /**
   * A call turn by turn: the lanes before each turn and after the last, what each turn drew, and the documents
   * requested, with the turn and the lane of each.
   */
  datatype Log = Log(
    history: seq<Lanes>,
    taken: seq<Option<string>>,
    documents: seq<string>,
    turns: seq<nat>,
    homes: seq<nat>)

  /** What a document adds to the lane it was drawn from. */
  function Listed(answer: Answer): seq<string> {
    if answer.ok then answer.children else []
  }

  function Rest(lane: seq<string>): seq<string> {
    if lane == [] then [] else lane[1..]
  }

  /**
   * Turn `t` is lane `t % n`'s: it draws the head of that lane, and nothing exactly when the lane is dry. Every
   * other lane is left as it was, and a turn that requests nothing only takes the head off its own.
   */
  ghost predicate TakesTurn(log: Log, n: nat, t: nat)
    requires n > 0 && t < |log.taken| && |log.history| == |log.taken| + 1
  {
    && |log.history[t]| == n && |log.history[t + 1]| == n
    && (forall i :: 0 <= i < n && i != t % n ==> log.history[t + 1][i] == log.history[t][i])
    && var lane := log.history[t][t % n];
       && log.taken[t] == (if lane == [] then None else Some(lane[0]))
       && (t !in log.turns ==> log.history[t + 1][t % n] == Rest(lane))
  }

  /**
   * Document `k` was drawn in its turn, for the lane that turn belongs to, after the documents before it; what
   * it lists goes to the back of that lane.
   */
  ghost predicate Requests(log: Log, n: nat, fetch: (nat, string) -> Answer, k: nat)
    requires n > 0 && k < |log.documents| == |log.turns| == |log.homes| && |log.history| == |log.taken| + 1
  {
    var t := log.turns[k];
    && t < |log.taken| && log.taken[t] == Some(log.documents[k]) && log.homes[k] == t % n
    && (forall j :: 0 <= j < k ==> log.turns[j] < t)
    && |log.history[t]| == n && |log.history[t + 1]| == n
    && log.history[t + 1][t % n] == Rest(log.history[t][t % n]) + Listed(fetch(k, log.documents[k]))
  }

  /** A turn that drew something and requested nothing drew a document requested before it. */
  ghost predicate Repeats(log: Log, t: nat)
    requires t < |log.taken|
  {
    log.taken[t].Some? && t !in log.turns ==>
      exists k :: 0 <= k < |log.turns| && k < |log.documents| && log.turns[k] < t && log.documents[k] == log.taken[t].value
  }

  /** The lanes take turns, from one root each, and each document is requested the first time it is drawn. */
  ghost predicate RoundRobin(roots: seq<string>, log: Log, fetch: (nat, string) -> Answer) {
    var ok :=
      && |roots| > 0 && |log.history| == |log.taken| + 1 && |log.documents| == |log.turns| == |log.homes|
      && |log.history[0]| == |roots| && (forall i :: 0 <= i < |roots| ==> log.history[0][i] == [roots[i]])
      && (forall t :: 0 <= t < |log.taken| ==> TakesTurn(log, |roots|, t))
      && (forall t :: 0 <= t < |log.taken| ==> Repeats(log, t))
      && (forall k :: 0 <= k < |log.documents| ==> Requests(log, |roots|, fetch, k));
    ok
  }

  /** The log so far, with the lanes as they stand. */
  ghost predicate Logged(roots: seq<string>, log: Log, fetch: (nat, string) -> Answer, lanes: Lanes) {
    RoundRobin(roots, log, fetch) && log.history[|log.taken|] == lanes && |lanes| == |roots|
  }

  function Idle(log: Log, x: Option<string>, lanes: Lanes): Log {
    log.(history := log.history + [lanes], taken := log.taken + [x])
  }

  function Spend(log: Log, x: string, home: nat, lanes: Lanes): Log {
    Log(log.history + [lanes], log.taken + [Some(x)], log.documents + [x], log.turns + [|log.taken|], log.homes + [home])
  }

  lemma OpenLog(roots: seq<string>, lanes: Lanes, fetch: (nat, string) -> Answer)
    requires |roots| > 0 && |lanes| == |roots| && forall i :: 0 <= i < |roots| ==> lanes[i] == [roots[i]]
    ensures Logged(roots, Log([lanes], [], [], [], []), fetch, lanes)
  {
  }

  lemma PastTurns(roots: seq<string>, log: Log, fetch: (nat, string) -> Answer)
    requires RoundRobin(roots, log, fetch)
    ensures forall t :: t in log.turns ==> t < |log.taken|
  {
    forall t | t in log.turns ensures t < |log.taken| {
      var k :| 0 <= k < |log.turns| && log.turns[k] == t;
      assert Requests(log, |roots|, fetch, k);
    }
  }

  /** Adding a turn to a log changes nothing it said of the turns before. */
  lemma OldTurns(roots: seq<string>, log: Log, next: Log, fetch: (nat, string) -> Answer)
    requires RoundRobin(roots, log, fetch)
    requires |next.taken| == |log.taken| + 1 && |next.history| == |log.history| + 1
    requires next.taken[..|log.taken|] == log.taken && next.history[..|log.history|] == log.history
    requires |log.documents| <= |next.documents| == |next.turns| == |next.homes|
    requires next.documents[..|log.documents|] == log.documents && next.homes[..|log.homes|] == log.homes
    requires next.turns == log.turns || next.turns == log.turns + [|log.taken|]
    ensures forall t :: 0 <= t < |log.taken| ==> TakesTurn(next, |roots|, t) && Repeats(next, t)
    ensures forall k :: 0 <= k < |log.documents| ==> Requests(next, |roots|, fetch, k)
  {
    forall t | 0 <= t < |log.taken| ensures TakesTurn(next, |roots|, t) && Repeats(next, t) {
      assert TakesTurn(log, |roots|, t) && Repeats(log, t);
      assert next.taken[t] == next.taken[..|log.taken|][t];
      assert next.history[t] == next.history[..|log.history|][t] && next.history[t + 1] == next.history[..|log.history|][t + 1];
      assert t in next.turns <==> t in log.turns;
      OldRepeat(log, next, t);
    }
    forall k | 0 <= k < |log.documents| ensures Requests(next, |roots|, fetch, k) {
      assert Requests(log, |roots|, fetch, k);
      var t := log.turns[k];
      assert next.turns[..|log.turns|] == log.turns && next.turns[k] == t;
      assert next.documents[k] == next.documents[..|log.documents|][k] && next.homes[k] == next.homes[..|log.homes|][k];
      assert next.taken[t] == next.taken[..|log.taken|][t];
      assert next.history[t] == next.history[..|log.history|][t] && next.history[t + 1] == next.history[..|log.history|][t + 1];
      forall j | 0 <= j < k ensures next.turns[j] < t { assert next.turns[j] == log.turns[j]; }
    }
  }

  lemma OldRepeat(log: Log, next: Log, t: nat)
    requires t < |log.taken| && t < |next.taken| && next.taken[t] == log.taken[t] && Repeats(log, t)
    requires |log.documents| == |log.turns| <= |next.turns| && |log.documents| <= |next.documents|
    requires forall k :: 0 <= k < |log.turns| ==> next.turns[k] == log.turns[k]
    requires next.documents[..|log.documents|] == log.documents
    requires t in next.turns <==> t in log.turns
    ensures Repeats(next, t)
  {
    if log.taken[t].Some? && t !in log.turns {
      var k :| 0 <= k < |log.turns| && k < |log.documents| && log.turns[k] < t && log.documents[k] == log.taken[t].value;
      assert next.documents[k] == next.documents[..|log.documents|][k];
    }
  }

  /** A turn that finds its lane dry, or draws what has been requested already. */
  lemma IdleTurn(roots: seq<string>, log: Log, fetch: (nat, string) -> Answer, lanes: Lanes)
    requires Logged(roots, log, fetch, lanes)
    requires
      var lane := lanes[|log.taken| % |roots|];
      lane != [] ==> lane[0] in log.documents
    ensures
      var at := |log.taken| % |roots|;
      var after := lanes[at := Rest(lanes[at])];
      Logged(roots, Idle(log, if lanes[at] == [] then None else Some(lanes[at][0]), after), fetch, after)
  {
    hide TakesTurn, Requests;
    var now, at := |log.taken|, |log.taken| % |roots|;
    var after := lanes[at := Rest(lanes[at])];
    var next := Idle(log, if lanes[at] == [] then None else Some(lanes[at][0]), after);
    PastTurns(roots, log, fetch);
    OldTurns(roots, log, next, fetch);
    assert TakesTurn(next, |roots|, now) by { IdleTakes(log, next, |roots|, lanes); }
    assert Repeats(next, now) by {
      if lanes[at] != [] {
        var k :| 0 <= k < |log.documents| && log.documents[k] == lanes[at][0];
        assert log.turns[k] in log.turns;
      }
    }
    assert next.history[0] == log.history[0];
  }

  lemma IdleTakes(log: Log, next: Log, n: nat, lanes: Lanes)
    requires n > 0 && |log.history| == |log.taken| + 1 && log.history[|log.taken|] == lanes && |lanes| == n
    requires
      var at := |log.taken| % n;
      next == Idle(log, if lanes[at] == [] then None else Some(lanes[at][0]), lanes[at := Rest(lanes[at])])
    ensures TakesTurn(next, n, |log.taken|)
  {
  }

  /** A turn that requests the document it draws. */
  lemma SpendTurn(roots: seq<string>, log: Log, fetch: (nat, string) -> Answer, lanes: Lanes)
    requires Logged(roots, log, fetch, lanes) && lanes[|log.taken| % |roots|] != []
    ensures
      var at := |log.taken| % |roots|;
      var next := lanes[at][0];
      var after := lanes[at := lanes[at][1..] + Listed(fetch(|log.documents|, next))];
      Logged(roots, Spend(log, next, at, after), fetch, after)
  {
    hide TakesTurn, Requests, Repeats;
    var now, at := |log.taken|, |log.taken| % |roots|;
    var doc := lanes[at][0];
    var after := lanes[at := lanes[at][1..] + Listed(fetch(|log.documents|, doc))];
    var next := Spend(log, doc, at, after);
    PastTurns(roots, log, fetch);
    OldTurns(roots, log, next, fetch);
    SpendTakes(log, next, |roots|, lanes, fetch);
    assert next.history[0] == log.history[0];
  }

  lemma SpendTakes(log: Log, next: Log, n: nat, lanes: Lanes, fetch: (nat, string) -> Answer)
    requires n > 0 && |log.history| == |log.taken| + 1 && log.history[|log.taken|] == lanes && |lanes| == n
    requires |log.documents| == |log.turns| == |log.homes| && (forall t :: t in log.turns ==> t < |log.taken|)
    requires lanes[|log.taken| % n] != []
    requires
      var at := |log.taken| % n;
      var doc := lanes[at][0];
      next == Spend(log, doc, at, lanes[at := lanes[at][1..] + Listed(fetch(|log.documents|, doc))])
    ensures TakesTurn(next, n, |log.taken|) && Repeats(next, |log.taken|) && Requests(next, n, fetch, |log.documents|)
  {
    var now := |log.taken|;
    assert next.turns[|log.turns|] == now;
    assert now in next.turns;
    forall j | 0 <= j < |log.documents| ensures next.turns[j] < now { assert next.turns[j] in log.turns; }
  }

  // ---- Fair shares ----

  /** The documents requested for lane `i` of `n` in the turns before `b`. */
  function Requested(turns: seq<nat>, n: nat, i: nat, b: nat): nat
    requires n > 0
  {
    if b == 0 then 0 else Requested(turns, n, i, b - 1) + if (b - 1) % n == i && b - 1 in turns then 1 else 0
  }

  function Visits(n: nat, i: nat, b: nat): nat
    requires n > 0
  {
    if b == 0 then 0 else Visits(n, i, b - 1) + if (b - 1) % n == i then 1 else 0
  }

  lemma {:induction false} VisitsAre(n: nat, i: nat, b: nat)
    requires i < n
    ensures Visits(n, i, b) == b / n + if i < b % n then 1 else 0
  {
    if b == 0 { ModOf(0, n, 0, 0); }
    else {
      VisitsAre(n, i, b - 1);
      NextTurn(n, b);
    }
  }

  lemma NextTurn(n: nat, b: nat)
    requires n > 0 && b > 0
    ensures
      var q, r := (b - 1) / n, (b - 1) % n;
      if r + 1 < n then b / n == q && b % n == r + 1 else b / n == q + 1 && b % n == 0 && r == n - 1
  {
    var q, r := (b - 1) / n, (b - 1) % n;
    assert b - 1 == n * q + r;
    if r + 1 < n { ModOf(b, n, q, r + 1); }
    else {
      Distribute(n, q, -1);
      ModOf(b, n, q + 1, 0);
    }
  }

  lemma {:induction false} AtMostVisits(turns: seq<nat>, n: nat, i: nat, a: nat, b: nat)
    requires n > 0 && a <= b
    ensures Requested(turns, n, i, b) - Requested(turns, n, i, a) <= Visits(n, i, b) - Visits(n, i, a)
    ensures (forall t :: a <= t < b && t % n == i ==> t in turns) ==>
      Requested(turns, n, i, b) - Requested(turns, n, i, a) == Visits(n, i, b) - Visits(n, i, a)
    decreases b
  {
    if a < b { AtMostVisits(turns, n, i, a, b - 1); }
  }

  /** The draws lane `i` spends, in turns from `a` to before `b`, on documents already requested. */
  function Wasted(log: Log, n: nat, i: nat, a: nat, b: nat): nat
    requires n > 0 && a <= b
    decreases b
  {
    if b == a then 0 else Wasted(log, n, i, a, b - 1) + if (b - 1) % n == i && b - 1 !in log.turns then 1 else 0
  }

  lemma {:induction false} VisitsSpent(log: Log, n: nat, i: nat, a: nat, b: nat)
    requires n > 0 && a <= b
    ensures Requested(log.turns, n, i, b) - Requested(log.turns, n, i, a) + Wasted(log, n, i, a, b) == Visits(n, i, b) - Visits(n, i, a)
    decreases b
  {
    if a < b { VisitsSpent(log, n, i, a, b - 1); }
  }

  /**
   * Fair shares. Over any stretch of a call's turns in which lane `i` is never dry when its turn comes, no other
   * lane has more documents requested than one more than lane `i` has, counting the draws lane `i` spends on
   * documents requested before. Each of those draws is of such a document, so where lane `i` lists nothing twice
   * no lane gets more than one document ahead of it.
   */
  lemma FairShares(roots: seq<string>, log: Log, fetch: (nat, string) -> Answer, i: nat, j: nat, a: nat, b: nat)
    requires RoundRobin(roots, log, fetch) && i < |roots| && j < |roots| && a <= b <= |log.taken|
    requires forall t :: a <= t < b && t % |roots| == i ==> i < |log.history[t]| && log.history[t][i] != []
    ensures
      var n, turns := |roots|, log.turns;
      && Requested(turns, n, j, b) - Requested(turns, n, j, a)
         <= Requested(turns, n, i, b) - Requested(turns, n, i, a) + Wasted(log, n, i, a, b) + 1
      && (forall t :: a <= t < b && t % n == i ==>
           log.taken[t].Some? && (t in turns || exists k :: 0 <= k < |turns| && turns[k] < t && log.documents[k] == log.taken[t].value))
  {
    var n := |roots|;
    AtMostVisits(log.turns, n, j, a, b);
    VisitsSpent(log, n, i, a, b);
    VisitsAre(n, i, a);
    VisitsAre(n, i, b);
    VisitsAre(n, j, a);
    VisitsAre(n, j, b);
    forall t | a <= t < b && t % n == i
      ensures log.taken[t].Some? && (t in log.turns || exists k :: 0 <= k < |log.turns| && log.turns[k] < t && log.documents[k] == log.taken[t].value)
    {
      assert TakesTurn(log, n, t) && Repeats(log, t);
    }
  }

  /** The documents of a lane, counted by the lanes they came from. */
  function FromLane(homes: seq<nat>, i: nat): nat {
    if homes == [] then 0 else FromLane(homes[..|homes| - 1], i) + if homes[|homes| - 1] == i then 1 else 0
  }

  /** By the end of a call the documents requested in lane `i`'s turns are exactly the call's documents from lane `i`. */
  lemma SharesAreDocuments(roots: seq<string>, log: Log, fetch: (nat, string) -> Answer, i: nat)
    requires RoundRobin(roots, log, fetch)
    ensures Requested(log.turns, |roots|, i, |log.taken|) == FromLane(log.homes, i)
  {
    forall k | 0 <= k < |log.turns|
      ensures log.turns[k] < |log.taken| && log.homes[k] == log.turns[k] % |roots|
      ensures forall j :: 0 <= j < k ==> log.turns[j] < log.turns[k]
    {
      assert Requests(log, |roots|, fetch, k);
    }
    CountTurns(log.turns, log.homes, |roots|, i, |log.taken|);
  }

  lemma {:induction false} CountTurns(turns: seq<nat>, homes: seq<nat>, n: nat, i: nat, b: nat)
    requires n > 0 && |homes| == |turns|
    requires forall k :: 0 <= k < |turns| ==> turns[k] < b && homes[k] == turns[k] % n
    requires forall j, k :: 0 <= j < k < |turns| ==> turns[j] < turns[k]
    ensures Requested(turns, n, i, b) == FromLane(homes, i)
    decreases b
  {
    if b > 0 {
      if turns != [] && turns[|turns| - 1] == b - 1 {
        var most := turns[..|turns| - 1];
        assert turns == most + [b - 1];
        CountTurns(most, homes[..|homes| - 1], n, i, b - 1);
        SameBefore(most, turns, n, i, b - 1);
      } else {
        assert b - 1 !in turns;
        CountTurns(turns, homes, n, i, b - 1);
      }
    }
  }

  lemma {:induction false} SameBefore(most: seq<nat>, turns: seq<nat>, n: nat, i: nat, b: nat)
    requires n > 0 && turns == most + [b]
    ensures forall c: nat :: c <= b ==> Requested(turns, n, i, c) == Requested(most, n, i, c)
  {
    forall c: nat | c <= b ensures Requested(turns, n, i, c) == Requested(most, n, i, c) { SameUpTo(most, turns, n, i, c); }
  }

  lemma {:induction false} SameUpTo(most: seq<nat>, turns: seq<nat>, n: nat, i: nat, c: nat)
    requires n > 0 && forall t :: 0 <= t < c ==> (t in turns <==> t in most)
    ensures Requested(turns, n, i, c) == Requested(most, n, i, c)
  {
    if c > 0 { SameUpTo(most, turns, n, i, c - 1); }
  }

  // ---- The loader ----

  /** A URL this lane may hold: its own root, or a child of a document drawn from it. */
  ghost predicate Belongs(roots: seq<string>, documents: seq<string>, homes: seq<nat>, fetch: (nat, string) -> Answer, i: nat, x: string) {
    && i < |roots| && |homes| == |documents|
    && (x == roots[i]
        || exists j :: 0 <= j < |documents| && homes[j] == i && fetch(j, documents[j]).ok && x in fetch(j, documents[j]).children)
  }

  lemma StillBelongs(roots: seq<string>, documents: seq<string>, homes: seq<nat>, fetch: (nat, string) -> Answer, i: nat, x: string,
                     next: string, home: nat)
    requires Belongs(roots, documents, homes, fetch, i, x)
    ensures Belongs(roots, documents + [next], homes + [home], fetch, i, x)
  {
    if x != roots[i] {
      var j :| 0 <= j < |documents| && homes[j] == i && fetch(j, documents[j]).ok && x in fetch(j, documents[j]).children;
      assert (documents + [next])[j] == documents[j] && (homes + [home])[j] == i;
    }
  }

  /** Each document is a root, or was listed by an earlier document of its own lane. */
  ghost predicate Sourced(roots: seq<string>, documents: seq<string>, homes: seq<nat>, fetch: (nat, string) -> Answer) {
    var ok := |homes| == |documents|
      && forall k :: 0 <= k < |documents| ==> Belongs(roots, documents[..k], homes[..k], fetch, homes[k], documents[k]);
    ok
  }

  ghost predicate Stocked(roots: seq<string>, documents: seq<string>, homes: seq<nat>, fetch: (nat, string) -> Answer, lanes: Lanes) {
    var ok := |lanes| == |roots|
      && forall i, x :: 0 <= i < |lanes| && x in lanes[i] ==> Belongs(roots, documents, homes, fetch, i, x);
    ok
  }

  /** Nothing declared or listed has been dropped: it was requested, or it waits in its lane. */
  ghost predicate Kept(roots: seq<string>, documents: seq<string>, homes: seq<nat>, fetch: (nat, string) -> Answer, lanes: Lanes) {
    var ok :=
      && |lanes| == |roots| && |homes| == |documents| && (forall k :: 0 <= k < |homes| ==> homes[k] < |lanes|)
      && (forall i :: 0 <= i < |roots| ==> roots[i] in documents || roots[i] in lanes[i])
      && (forall k, x :: 0 <= k < |documents| && fetch(k, documents[k]).ok && x in fetch(k, documents[k]).children ==>
           x in documents || x in lanes[homes[k]]);
    ok
  }

  lemma TakeStocked(roots: seq<string>, documents: seq<string>, homes: seq<nat>, fetch: (nat, string) -> Answer, lanes: Lanes, i: nat)
    requires Stocked(roots, documents, homes, fetch, lanes) && i < |lanes| && lanes[i] != []
    ensures Stocked(roots, documents, homes, fetch, lanes[i := lanes[i][1..]])
    ensures Belongs(roots, documents, homes, fetch, i, lanes[i][0])
  {
    assert lanes[i][0] in lanes[i];
  }

  lemma RequestStocked(roots: seq<string>, documents: seq<string>, homes: seq<nat>, fetch: (nat, string) -> Answer, lanes: Lanes,
                       next: string, i: nat, more: seq<string>)
    requires Stocked(roots, documents, homes, fetch, lanes) && i < |lanes| && |homes| == |documents|
    requires more == if fetch(|documents|, next).ok then fetch(|documents|, next).children else []
    ensures Stocked(roots, documents + [next], homes + [i], fetch, lanes[i := lanes[i] + more])
  {
    var docs, hs, ls := documents + [next], homes + [i], lanes[i := lanes[i] + more];
    forall k, x | 0 <= k < |ls| && x in ls[k] ensures Belongs(roots, docs, hs, fetch, k, x) {
      if x in lanes[k] { StillBelongs(roots, documents, homes, fetch, k, x, next, i); }
      else { assert docs[|documents|] == next && hs[|documents|] == i; }
    }
  }

  lemma RequestSourced(roots: seq<string>, documents: seq<string>, homes: seq<nat>, fetch: (nat, string) -> Answer, next: string, i: nat)
    requires Sourced(roots, documents, homes, fetch) && Belongs(roots, documents, homes, fetch, i, next)
    ensures Sourced(roots, documents + [next], homes + [i], fetch)
  {
    var docs, hs := documents + [next], homes + [i];
    forall k | 0 <= k < |docs| ensures Belongs(roots, docs[..k], hs[..k], fetch, hs[k], docs[k]) {
      if k < |documents| { assert docs[..k] == documents[..k] && hs[..k] == homes[..k]; }
      else { assert docs[..k] == documents && hs[..k] == homes; }
    }
  }

  lemma SkipKept(roots: seq<string>, documents: seq<string>, homes: seq<nat>, fetch: (nat, string) -> Answer, lanes: Lanes, i: nat)
    requires Kept(roots, documents, homes, fetch, lanes) && i < |lanes| && lanes[i] != [] && lanes[i][0] in documents
    ensures Kept(roots, documents, homes, fetch, lanes[i := lanes[i][1..]])
  {
    assert lanes[i] == [lanes[i][0]] + lanes[i][1..];
  }

  lemma RequestKept(roots: seq<string>, documents: seq<string>, homes: seq<nat>, fetch: (nat, string) -> Answer, lanes: Lanes, i: nat,
                    more: seq<string>)
    requires Kept(roots, documents, homes, fetch, lanes) && i < |lanes| && lanes[i] != []
    requires more == if fetch(|documents|, lanes[i][0]).ok then fetch(|documents|, lanes[i][0]).children else []
    ensures Kept(roots, documents + [lanes[i][0]], homes + [i], fetch, lanes[i := lanes[i][1..] + more])
  {
    var next := lanes[i][0];
    assert lanes[i] == [next] + lanes[i][1..];
    var docs, hs, ls := documents + [next], homes + [i], lanes[i := lanes[i][1..] + more];
    forall k, x | 0 <= k < |docs| && fetch(k, docs[k]).ok && x in fetch(k, docs[k]).children
      ensures x in docs || x in ls[hs[k]] {
      if k < |documents| { assert docs[k] == documents[k] && hs[k] == homes[k]; }
    }
  }

  /** The loader's books: where each document came from, what each lane may hold, and that nothing was dropped. */
  ghost predicate Books(roots: seq<string>, documents: seq<string>, homes: seq<nat>, fetch: (nat, string) -> Answer, lanes: Lanes) {
    var ok :=
      && |lanes| == |roots| && |homes| == |documents| && NoDup(documents)
      && Sourced(roots, documents, homes, fetch)
      && Stocked(roots, documents, homes, fetch, lanes)
      && Kept(roots, documents, homes, fetch, lanes);
    ok
  }

  lemma BooksSkip(roots: seq<string>, documents: seq<string>, homes: seq<nat>, fetch: (nat, string) -> Answer, lanes: Lanes, i: nat)
    requires Books(roots, documents, homes, fetch, lanes) && i < |lanes| && lanes[i] != [] && lanes[i][0] in documents
    ensures Books(roots, documents, homes, fetch, lanes[i := lanes[i][1..]])
    ensures Total(lanes[i := lanes[i][1..]]) < Total(lanes)
  {
    hide Sourced, Stocked, Kept, NoDup;
    TakeStocked(roots, documents, homes, fetch, lanes, i);
    SkipKept(roots, documents, homes, fetch, lanes, i);
    TotalUpdate(lanes, i, lanes[i][1..]);
  }

  lemma BooksRequest(roots: seq<string>, documents: seq<string>, homes: seq<nat>, fetch: (nat, string) -> Answer, lanes: Lanes, i: nat)
    requires Books(roots, documents, homes, fetch, lanes) && i < |lanes| && lanes[i] != [] && lanes[i][0] !in documents
    ensures
      var next := lanes[i][0];
      var more := if fetch(|documents|, next).ok then fetch(|documents|, next).children else [];
      Books(roots, documents + [next], homes + [i], fetch, lanes[i := lanes[i][1..] + more])
  {
    hide Sourced, Stocked, Kept, NoDup;
    var next, rest := lanes[i][0], lanes[i][1..];
    var more := if fetch(|documents|, next).ok then fetch(|documents|, next).children else [];
    TakeStocked(roots, documents, homes, fetch, lanes, i);
    RequestKept(roots, documents, homes, fetch, lanes, i, more);
    RequestStocked(roots, documents, homes, fetch, lanes[i := rest], next, i, more);
    RequestSourced(roots, documents, homes, fetch, next, i);
    AppendNoDup(documents, next);
    assert lanes[i := rest][i := rest + more] == lanes[i := rest + more];
  }

  lemma BooksOpen(roots: seq<string>, lanes: Lanes, fetch: (nat, string) -> Answer)
    requires |lanes| == |roots| && forall i :: 0 <= i < |roots| ==> lanes[i] == [roots[i]]
    ensures Books(roots, [], [], fetch, lanes)
  {
    NothingYet(roots, lanes, fetch);
  }

  lemma BooksSay(roots: seq<string>, documents: seq<string>, homes: seq<nat>, fetch: (nat, string) -> Answer, lanes: Lanes)
    requires Books(roots, documents, homes, fetch, lanes)
    ensures NoDup(documents) && Sourced(roots, documents, homes, fetch)
    ensures AllDry(lanes) ==>
      && (forall i :: 0 <= i < |roots| ==> roots[i] in documents)
      && (forall k, x :: 0 <= k < |documents| && fetch(k, documents[k]).ok && x in fetch(k, documents[k]).children ==> x in documents)
  {
    hide Sourced, Stocked;
    if AllDry(lanes) { NothingLeft(roots, documents, homes, fetch, lanes); }
  }

  /**
   * The lanes take turns until the budget is spent or every lane is dry, and `log` says what each turn did. No
   * document is requested twice, at most the budget is requested, each came from its own lane's declarations,
   * and unless the budget ran out everything declared or listed was requested.
   */
  method LoadSitemaps(declared: seq<string>, fallback: string, fetch: (nat, string) -> Answer)
    returns (documents: seq<string>, ghost log: Log)
    ensures RoundRobin(if declared == [] then [fallback] else declared, log, fetch) && log.documents == documents
    ensures |documents| == MAX_SITEMAP_DOCUMENTS || AllDry(log.history[|log.taken|])
    ensures NoDup(documents) && |documents| <= MAX_SITEMAP_DOCUMENTS
    ensures Sourced(if declared == [] then [fallback] else declared, documents, log.homes, fetch)
    ensures |documents| < MAX_SITEMAP_DOCUMENTS ==>
      var roots := if declared == [] then [fallback] else declared;
      && (forall i :: 0 <= i < |roots| ==> roots[i] in documents)
      && (forall k, x :: 0 <= k < |documents| && fetch(k, documents[k]).ok && x in fetch(k, documents[k]).children ==> x in documents)
  {
    hide Books, Sourced, Wait, Total, NoDup, AllDry, RoundRobin;
    var roots := if declared == [] then [fallback] else declared;
    var lanes := seq(|roots|, i requires 0 <= i < |roots| => [roots[i]]);
    var seen: set<string> := {};
    documents := [];
    log := Log([lanes], [], [], [], []);
    var turn := 0;
    BooksOpen(roots, lanes, fetch);
    OpenLog(roots, lanes, fetch);
    while |seen| < MAX_SITEMAP_DOCUMENTS && !AllDry(lanes)
      invariant |lanes| == |roots| > 0 && |log.taken| == turn && documents == log.documents
      invariant seen == (set x | x in documents) && |seen| == |documents| <= MAX_SITEMAP_DOCUMENTS
      invariant Books(roots, documents, log.homes, fetch, lanes) && Logged(roots, log, fetch, lanes)
      decreases MAX_SITEMAP_DOCUMENTS - |seen|, Total(lanes), Wait(lanes, turn, |lanes|)
    {
      var at := turn % |lanes|;
      turn := turn + 1;
      if lanes[at] == [] {
        PassingNears(lanes, turn - 1, |lanes|);
        IdleTurn(roots, log, fetch, lanes);
        assert lanes[at := []] == lanes;
        log := Idle(log, None, lanes);
        continue;
      }
      var next := lanes[at][0];
      if next in seen {
        IdleTurn(roots, log, fetch, lanes);
        BooksSkip(roots, documents, log.homes, fetch, lanes, at);
        lanes := lanes[at := lanes[at][1..]];
        log := Idle(log, Some(next), lanes);
        continue;
      }
      SpendTurn(roots, log, fetch, lanes);
      BooksRequest(roots, documents, log.homes, fetch, lanes, at);
      var answer := fetch(|documents|, next);
      lanes := lanes[at := lanes[at][1..] + if answer.ok then answer.children else []];
      seen := seen + {next};
      documents := documents + [next];
      log := Spend(log, next, at, lanes);
    }
    BooksSay(roots, documents, log.homes, fetch, lanes);
  }

  lemma NothingYet(roots: seq<string>, lanes: Lanes, fetch: (nat, string) -> Answer)
    requires |lanes| == |roots| && forall i :: 0 <= i < |roots| ==> lanes[i] == [roots[i]]
    ensures Sourced(roots, [], [], fetch) && Stocked(roots, [], [], fetch, lanes) && Kept(roots, [], [], fetch, lanes)
    ensures NoDup<string>([])
  {
  }

  lemma NothingLeft(roots: seq<string>, documents: seq<string>, homes: seq<nat>, fetch: (nat, string) -> Answer, lanes: Lanes)
    requires Kept(roots, documents, homes, fetch, lanes) && AllDry(lanes)
    ensures forall i :: 0 <= i < |roots| ==> roots[i] in documents
    ensures forall k, x :: 0 <= k < |documents| && fetch(k, documents[k]).ok && x in fetch(k, documents[k]).children ==> x in documents
  {
  }
}
