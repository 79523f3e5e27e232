/** What each reading of a check's review history means, in terms of the runs' own fields. */
module ReviewReadings {
  import opened Jobs
  import opened Assessment
  import opened Review

  // ---- The runs a reading rests on ----

  /** A run of this check that names the release, scope, origin and criteria assessed, in an environment its phase allows. */
  ghost predicate About(run: Run, check: Check, context: Context) {
    var ok :=
      && run.checkId == Some(check.id)
      && Filled(run.releaseId) && run.releaseId == context.releaseId
      && Filled(run.scopeRevision) && run.scopeRevision == context.scopeRevision
      && Filled(run.origin) && run.origin == context.origin
      && run.criteriaRevision == Some(if check.id in context.criteria then context.criteria[check.id] else context.version)
      && (check.phase == 0 ==> run.environment == PlanningEnv)
      && (check.phase == 5 ==> run.environment == Production)
      && (check.phase != 0 && check.phase != 5 ==> run.environment == PreProduction || run.environment == Production);
    ok
  }

  lemma CountsMeans(run: Run, check: Check, context: Context)
    ensures Counts(run, check, context) <==> About(run, check, context)
  {
    hide Filled;
  }

  /** A dated run about the check than which none is dated later. */
  ghost predicate Leads(check: Check, runs: seq<Run>, context: Context, k: int) {
    && 0 <= k < |runs| && About(runs[k], check, context) && Instant(runs[k].testedAt).Some?
    && forall j :: 0 <= j < |runs| && About(runs[j], check, context) && Instant(runs[j].testedAt).Some? ==>
         Instant(runs[j].testedAt).value <= Instant(runs[k].testedAt).value
  }

  ghost predicate LeadsAlone(check: Check, runs: seq<Run>, context: Context, k: int) {
    Leads(check, runs, context, k) && forall j :: Leads(check, runs, context, j) ==> j == k
  }

  /** Every run logged for the check is sound, and shares its id with no other run of any check. */
  ghost predicate Trusted(check: Check, runs: seq<Run>, known: set<string>, assessedAt: Stamp) {
    forall k :: 0 <= k < |runs| && runs[k].checkId == Some(check.id) ==> Reliable(runs, k, known, assessedAt)
  }

  ghost predicate Reliable(runs: seq<Run>, k: int, known: set<string>, assessedAt: Stamp)
    requires 0 <= k < |runs|
  {
    Sound(runs[k], known, assessedAt) && forall j :: 0 <= j < |runs| && j != k ==> runs[j].runId != runs[k].runId
  }

  predicate PastReview(run: Run, assessedAt: Stamp) {
    Instant(run.nextReviewAt).Some? && Instant(assessedAt).Some? && Instant(run.nextReviewAt).value < Instant(assessedAt).value
  }

  /** The run cites what the check's state holds, by its text or by its reference. */
  predicate Cites(run: Run, state: State) {
    run.evidence == state.evidence || (Filled(run.evidence) && run.evidence == state.evidenceRef)
  }

  /** What one trusted run says of the check, each answer exactly when its own fields give it. */
  ghost predicate Says(run: Run, state: State, assessedAt: Stamp, answer: ReviewState) {
    var stopped := run.outcome == Reopened || run.outcome == Of(Status.Failed);
    var late, agrees := PastReview(run, assessedAt), run.outcome == Of(state.status) && Cites(run, state);
    && (answer == WasReopened <==> run.outcome == Reopened)
    && (answer == WasFailed <==> run.outcome == Of(Status.Failed))
    && (answer == Overdue <==> !stopped && late)
    && (answer == Reconcile <==> !stopped && !late && !agrees)
    && (answer == Current <==> !late && agrees && run.outcome == Of(Passed))
    && (answer == Unfinished <==> !stopped && !late && agrees && run.outcome != Of(Passed))
  }

  // ---- Choosing by position ----

  lemma {:induction false} FilterOne<T(!new)>(keep: T -> bool, s: seq<T>, k: nat)
    requires k < |s| && keep(s[k]) && forall j :: 0 <= j < |s| && j != k ==> !keep(s[j])
    ensures Filter(keep, s) == [s[k]]
  {
    var rest := s[1..];
    assert forall j :: 0 <= j < |rest| ==> rest[j] == s[j + 1];
    if k == 0 {
      FilterAll(keep, rest);
      assert Filter(keep, rest) == [];
    } else {
      FilterOne(keep, rest, k - 1);
    }
  }

  lemma {:induction false} FilterTwo<T(!new)>(keep: T -> bool, s: seq<T>, j: nat, k: nat)
    requires j < k < |s| && keep(s[j]) && keep(s[k])
    ensures |Filter(keep, s)| >= 2
  {
    var rest := s[1..];
    assert rest[k - 1] == s[k];
    if j == 0 { assert s[k] in rest && s[k] in Filter(keep, rest); }
    else {
      assert rest[j - 1] == s[j];
      FilterTwo(keep, rest, j - 1, k - 1);
    }
  }

  function Both<T(!new)>(p: T -> bool, q: T -> bool): T -> bool { (x: T) => p(x) && q(x) }

  lemma {:induction false} FilterTwice<T(!new)>(p: T -> bool, q: T -> bool, s: seq<T>)
    ensures Filter(p, Filter(q, s)) == Filter(Both(q, p), s)
  {
    if s != [] {
      FilterTwice(p, q, s[1..]);
      if q(s[0]) { assert ([s[0]] + Filter(q, s[1..]))[1..] == Filter(q, s[1..]); }
    }
  }

  // ---- The latest runs, and the trust put in them ----

  lemma LeaderIs(check: Check, runs: seq<Run>, context: Context, k: int)
    requires 0 <= k < |runs|
    ensures
      Leads(check, runs, context, k) <==>
        Both(CountsFor(check, context), TestedAt(Newest(Filter(CountsFor(check, context), runs))))(runs[k])
  {
    hide Filter, Newest, About, Counts, Instant;
    var current := Filter(CountsFor(check, context), runs);
    NewestIs(current);
    forall j | 0 <= j < |runs| ensures About(runs[j], check, context) <==> runs[j] in current {
      CountsMeans(runs[j], check, context);
      assert runs[j] in runs;
    }
    if Newest(current).Some? {
      var run :| run in current && Instant(run.testedAt) == Newest(current);
      var j :| 0 <= j < |runs| && runs[j] == run;
      assert About(runs[j], check, context);
    }
    CountsMeans(runs[k], check, context);
  }

  ghost predicate Kept<T(!new)>(keep: T -> bool, s: seq<T>, k: int) {
    0 <= k < |s| && keep(s[k])
  }

  /** How much is chosen, by the places it is chosen from. */
  lemma FilterByPlace<T(!new)>(keep: T -> bool, s: seq<T>)
    ensures Filter(keep, s) == [] <==> forall k :: !Kept(keep, s, k)
    ensures |Filter(keep, s)| > 1 <==> exists j, k :: j < k && Kept(keep, s, j) && Kept(keep, s, k)
    ensures forall k :: Kept(keep, s, k) && (forall j :: Kept(keep, s, j) ==> j == k) ==> Filter(keep, s) == [s[k]]
  {
    hide Filter;
    FilterAll(keep, s);
    forall x | x in s && keep(x) ensures exists k :: Kept(keep, s, k) {
      var k :| 0 <= k < |s| && s[k] == x;
      assert Kept(keep, s, k);
    }
    forall k | Kept(keep, s, k) ensures Filter(keep, s) != [] { assert s[k] in s; }
    forall k | Kept(keep, s, k) && (forall j :: Kept(keep, s, j) ==> j == k) ensures Filter(keep, s) == [s[k]] {
      forall j | 0 <= j < |s| && j != k ensures !keep(s[j]) { assert !Kept(keep, s, j); }
      FilterOne(keep, s, k);
    }
    forall j, k | j < k && Kept(keep, s, j) && Kept(keep, s, k) ensures |Filter(keep, s)| > 1 { FilterTwo(keep, s, j, k); }
    if |Filter(keep, s)| > 1 {
      assert Filter(keep, s)[0] in s;
      var k :| 0 <= k < |s| && s[k] == Filter(keep, s)[0];
      assert Kept(keep, s, k);
      var j :| Kept(keep, s, j) && j != k;
      if j < k { assert Kept(keep, s, j); } else { assert k < j; }
    }
  }

  /** The runs tied for latest, by how many there are. */
  lemma LatestAre(check: Check, runs: seq<Run>, context: Context)
    ensures Latest(check, runs, context) == [] <==> forall k :: !Leads(check, runs, context, k)
    ensures |Latest(check, runs, context)| > 1 <==> exists j, k :: j < k && Leads(check, runs, context, j) && Leads(check, runs, context, k)
    ensures forall k :: LeadsAlone(check, runs, context, k) ==> Latest(check, runs, context) == [runs[k]]
  {
    hide Filter;
    var newest := TestedAt(Newest(Filter(CountsFor(check, context), runs)));
    var leads := Both(CountsFor(check, context), newest);
    FilterTwice(newest, CountsFor(check, context), runs);
    FilterByPlace(leads, runs);
    forall k ensures Leads(check, runs, context, k) <==> Kept(leads, runs, k) {
      hide Both, TestedAt, CountsFor, About;
      if 0 <= k < |runs| { LeaderIs(check, runs, context, k); }
    }
    LatestByPlace(check, runs, context, leads);
  }

  lemma LatestByPlace(check: Check, runs: seq<Run>, context: Context, leads: Run -> bool)
    requires forall k :: Leads(check, runs, context, k) <==> Kept(leads, runs, k)
    requires Latest(check, runs, context) == Filter(leads, runs)
    ensures Latest(check, runs, context) == [] <==> forall k :: !Leads(check, runs, context, k)
    ensures |Latest(check, runs, context)| > 1 <==> exists j, k :: j < k && Leads(check, runs, context, j) && Leads(check, runs, context, k)
    ensures forall k :: LeadsAlone(check, runs, context, k) ==> Latest(check, runs, context) == [runs[k]]
  {
    hide Filter, Leads, Kept, Latest;
    FilterByPlace(leads, runs);
  }

  lemma RepeatedMeans(runs: seq<Run>, k: nat)
    requires k < |runs|
    ensures Repeated(runs, runs[k]) <==> exists j :: 0 <= j < |runs| && j != k && runs[j].runId == runs[k].runId
  {
    var same := HasId(runs[k].runId);
    if exists j :: 0 <= j < |runs| && j != k && runs[j].runId == runs[k].runId {
      var j :| 0 <= j < |runs| && j != k && runs[j].runId == runs[k].runId;
      if j < k { FilterTwo(same, runs, j, k); } else { FilterTwo(same, runs, k, j); }
    } else { FilterOne(same, runs, k); }
  }

  lemma ReliableMeans(runs: seq<Run>, k: nat, known: set<string>, assessedAt: Stamp)
    requires k < |runs|
    ensures Bad(runs, runs[k], known, assessedAt) <==> !Reliable(runs, k, known, assessedAt)
  {
    hide Sound, RunProblem, Repeated;
    RepeatedMeans(runs, k);
    NoProblemMeansSound(runs[k], known, assessedAt);
  }

  lemma TrustedMeans(check: Check, runs: seq<Run>, known: set<string>, assessedAt: Stamp)
    ensures Broken(check, runs, known, assessedAt) <==> !Trusted(check, runs, known, assessedAt)
  {
    hide Bad, Reliable;
    forall k | 0 <= k < |runs| ensures Bad(runs, runs[k], known, assessedAt) <==> !Reliable(runs, k, known, assessedAt) {
      ReliableMeans(runs, k, known, assessedAt);
    }
  }

  lemma VerdictSays(run: Run, state: State, assessedAt: Stamp)
    ensures Says(run, state, assessedAt, Verdict(run, state, assessedAt))
  {
    hide Filled;
  }

  // ---- The ten readings ----

  /**
   * Each reading, both ways. With no dated run about the check it is not reviewed, or a review is required if it
   * claims a pass; with two tied for latest it is ambiguous; with one alone it rests on that run, invalid exactly
   * when the check's log cannot be trusted, and otherwise as the run itself says.
   */
  lemma ReadingMeans(check: Check, state: State, runs: seq<Run>, context: Context, known: set<string>)
    ensures
      var r, none := ReadReview(check, state, runs, context, known), forall k :: !Leads(check, runs, context, k);
      && (r.state == NotReviewed <==> none && state.status != Passed)
      && (r.state == ReviewRequired <==> none && state.status == Passed)
      && (r.state == Ambiguous <==> exists j, k :: j < k && Leads(check, runs, context, j) && Leads(check, runs, context, k))
    ensures
      var r := ReadReview(check, state, runs, context, known);
      && (r.latest.Some? <==> exists k :: LeadsAlone(check, runs, context, k))
      && forall k :: LeadsAlone(check, runs, context, k) ==>
           && r.latest == Some(runs[k])
           && (r.state == Invalid <==> !Trusted(check, runs, known, context.assessedAt))
           && (r.state != Invalid ==> Says(runs[k], state, context.assessedAt, r.state))
  {
    hide Latest, Leads, Broken, Trusted, Verdict, Says;
    LatestAre(check, runs, context);
    TrustedMeans(check, runs, known, context.assessedAt);
    var latest := Latest(check, runs, context);
    if |latest| == 1 {
      VerdictSays(latest[0], state, context.assessedAt);
      VerdictOwn(latest[0], state, context.assessedAt);
      var k :| Leads(check, runs, context, k);
      assert LeadsAlone(check, runs, context, k);
    }
  }

  lemma VerdictOwn(run: Run, state: State, assessedAt: Stamp)
    ensures
      var v := Verdict(run, state, assessedAt);
      v != NotReviewed && v != ReviewRequired && v != Ambiguous && v != Invalid
  {
  }
}
