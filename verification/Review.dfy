/** Review history: which run is a check's current one, and whether it still counts. */
module Review {
  import opened Jobs
  import opened Assessment

  datatype EvidenceClass = Planning | Preflight | Live
  datatype Environment = PlanningEnv | PreProduction | Production | UnknownEnv
  datatype Outcome = Of(status: Status) | Reopened | UnknownOutcome

  /** One review run. A field the record leaves out is `None`. */
  datatype Run = Run(
    runId: Option<string>,
    checkId: Option<string>,
    releaseId: Option<string>,
    scopeRevision: Option<string>,
    criteriaRevision: Option<string>,
    origin: Option<string>,
    environment: Environment,
    testedAt: Stamp,
    tester: Option<string>,
    outcome: Outcome,
    evidence: Option<string>,
    reviewedBy: Option<string>,
    reviewedAt: Stamp,
    nextReviewAt: Stamp,
    eventTrigger: Option<string>)

  datatype Context = Context(
    releaseId: Option<string>,
    scopeRevision: Option<string>,
    origin: Option<string>,
    assessedAt: Stamp,
    criteria: map<string, string>,   // criterion revision by check
    version: string)                 // what a check without one is tested against

  datatype ReviewState =
    | NotReviewed | ReviewRequired | Ambiguous | Invalid | WasReopened | WasFailed | Overdue | Reconcile | Unfinished | Current

  datatype Reading = Reading(state: ReviewState, latest: Option<Run>)

  function EvidenceClassOf(check: Check): EvidenceClass {
    if check.phase == 0 then Planning else if check.phase == 5 then Live else Preflight
  }

  predicate EnvironmentFits(kind: EvidenceClass, environment: Environment) {
    match kind
    case Planning => environment == PlanningEnv
    case Live => environment == Production
    case Preflight => environment == PreProduction || environment == Production
  }

  predicate CitesEvidence(run: Run, state: State) {
    run.evidence == state.evidence || (Filled(state.evidenceRef) && run.evidence == state.evidenceRef)
  }

  datatype Problem =
    | Missing | Wildcard | UnknownCheck | BadEnvironment | BadOutcome | BadTested | BadReviewed | ReviewedLate
    | BadNextReview | NoExpiry | NoReason

  function RequiredFields(run: Run): seq<Option<string>> {
    [run.runId, run.checkId, run.releaseId, run.scopeRevision, run.criteriaRevision, run.origin, run.tester, run.evidence, run.reviewedBy]
  }

  /** The first of the checks on its own fields that a run does not meet. */
  function RunProblem(run: Run, known: set<string>, assessedAt: Stamp): Option<Problem> {
    if run.runId == None || run.checkId == None || exists k :: 0 <= k < 9 && !Filled(RequiredFields(run)[k]) then Some(Missing)
    else if '*' in run.runId.value || '?' in run.runId.value || '~' in run.runId.value then Some(Wildcard)
    else if run.checkId.value !in known then Some(UnknownCheck)
    else if run.environment == UnknownEnv then Some(BadEnvironment)
    else if run.outcome == UnknownOutcome then Some(BadOutcome)
    else
      var tested, reviewed, assessed := Instant(run.testedAt), Instant(run.reviewedAt), Instant(assessedAt);
      if tested == None then Some(BadTested)
      else if reviewed == None || reviewed.value < tested.value then Some(BadReviewed)
      else if assessed == None || reviewed.value > assessed.value then Some(ReviewedLate)
      else
        var next := Instant(run.nextReviewAt);
        if run.nextReviewAt != Absent && run.nextReviewAt != Empty && (next == None || next.value <= tested.value) then Some(BadNextReview)
        else if run.outcome == Of(Passed) && next == None && !Filled(run.eventTrigger) then Some(NoExpiry)
        else if run.outcome == Reopened && !Filled(run.eventTrigger) then Some(NoReason)
        else None
  }

  /** A run whose record can be relied on: filled in, about a known check, dated in order, and with its follow-up said. */
  ghost predicate Sound(run: Run, known: set<string>, assessedAt: Stamp) {
    && (forall k :: 0 <= k < 9 ==> Filled(RequiredFields(run)[k]))
    && run.runId.Some? && (forall c :: c in run.runId.value ==> c != '*' && c != '?' && c != '~')
    && run.checkId.Some? && run.checkId.value in known
    && run.environment != UnknownEnv && run.outcome != UnknownOutcome
    && Instant(run.testedAt).Some? && Instant(run.reviewedAt).Some? && Instant(assessedAt).Some?
    && Instant(run.testedAt).value <= Instant(run.reviewedAt).value <= Instant(assessedAt).value
    && (run.nextReviewAt == Absent || run.nextReviewAt == Empty
        || (Instant(run.nextReviewAt).Some? && Instant(run.testedAt).value < Instant(run.nextReviewAt).value))
    && (run.outcome == Of(Passed) ==> Instant(run.nextReviewAt).Some? || Filled(run.eventTrigger))
    && (run.outcome == Reopened ==> Filled(run.eventTrigger))
  }

  /** A run has no problem exactly when its record is sound. */
  lemma NoProblemMeansSound(run: Run, known: set<string>, assessedAt: Stamp)
    ensures RunProblem(run, known, assessedAt) == None <==> Sound(run, known, assessedAt)
  {
    hide Filled;
    assert run.runId.Some? && '*' !in run.runId.value && '?' !in run.runId.value && '~' !in run.runId.value <==>
      run.runId.Some? && forall c :: c in run.runId.value ==> c != '*' && c != '?' && c != '~';
  }

  /** The data checks, field by field and then in order. */
  method ReviewRunProblem(run: Run, known: set<string>, assessedAt: Stamp) returns (problem: Option<Problem>)
    ensures problem == RunProblem(run, known, assessedAt)
    ensures problem == None <==> Sound(run, known, assessedAt)
  {
    NoProblemMeansSound(run, known, assessedAt);
    hide Sound;
    var required := RequiredFields(run);
    for k := 0 to 9
      invariant forall j :: 0 <= j < k ==> Filled(required[j])
    {
      if !Filled(required[k]) { return Some(Missing); }
    }
    assert Filled(required[0]) && Filled(required[1]);
    if '*' in run.runId.value || '?' in run.runId.value || '~' in run.runId.value { return Some(Wildcard); }
    if run.checkId.value !in known { return Some(UnknownCheck); }
    if run.environment == UnknownEnv { return Some(BadEnvironment); }
    if run.outcome == UnknownOutcome { return Some(BadOutcome); }
    var tested, reviewed, assessed := Instant(run.testedAt), Instant(run.reviewedAt), Instant(assessedAt);
    if tested == None { return Some(BadTested); }
    if reviewed == None || reviewed.value < tested.value { return Some(BadReviewed); }
    if assessed == None || reviewed.value > assessed.value { return Some(ReviewedLate); }
    if run.nextReviewAt != Absent && run.nextReviewAt != Empty {
      var next := Instant(run.nextReviewAt);
      if next == None || next.value <= tested.value { return Some(BadNextReview); }
    }
    if run.outcome == Of(Passed) && Instant(run.nextReviewAt) == None && !Filled(run.eventTrigger) { return Some(NoExpiry); }
    if run.outcome == Reopened && !Filled(run.eventTrigger) { return Some(NoReason); }
    problem := None;
  }

  function CriteriaFor(context: Context, check: Check): string {
    if check.id in context.criteria then context.criteria[check.id] else context.version
  }

  /** Same release, scope, origin and criteria as `context` names, in an environment that counts for this check. */
  predicate InContext(run: Run, check: Check, context: Context) {
    && Filled(context.releaseId) && run.releaseId == context.releaseId
    && Filled(context.scopeRevision) && run.scopeRevision == context.scopeRevision
    && Filled(context.origin) && run.origin == context.origin
    && run.criteriaRevision == Some(CriteriaFor(context, check))
    && EnvironmentFits(EvidenceClassOf(check), run.environment)
  }

  /** A run of this check, in the current context. */
  predicate Counts(run: Run, check: Check, context: Context) {
    run.checkId == Some(check.id) && InContext(run, check, context)
  }

  function CountsFor(check: Check, context: Context): Run -> bool { (run: Run) => Counts(run, check, context) }
  function TestedAt(moment: Option<int>): Run -> bool { (run: Run) => moment.Some? && Instant(run.testedAt) == moment }
  function HasId(id: Option<string>): Run -> bool { (run: Run) => run.runId == id }

  /** The latest moment any of these runs was tested at. */
  function Newest(runs: seq<Run>): Option<int> {
    if runs == [] then None
    else Later(Newest(runs[..|runs| - 1]), Instant(runs[|runs| - 1].testedAt))
  }

  function Later(a: Option<int>, b: Option<int>): Option<int> {
    if a == None then b else if b == None then a else Some(Max(a.value, b.value))
  }

  /** The runs tied for a check's latest. */
  function Latest(check: Check, runs: seq<Run>, context: Context): seq<Run> {
    var current := Filter(CountsFor(check, context), runs);
    Filter(TestedAt(Newest(current)), current)
  }

  predicate Repeated(runs: seq<Run>, run: Run) {
    Count(HasId(run.runId), runs) > 1
  }

  predicate Bad(runs: seq<Run>, run: Run, known: set<string>, assessedAt: Stamp) {
    Repeated(runs, run) || RunProblem(run, known, assessedAt) != None
  }

  /** Some run of this check cannot be trusted. */
  predicate Broken(check: Check, runs: seq<Run>, known: set<string>, assessedAt: Stamp) {
    exists k :: 0 <= k < |runs| && runs[k].checkId == Some(check.id) && Bad(runs, runs[k], known, assessedAt)
  }

  /** What a trusted latest run says of the check. */
  function Verdict(run: Run, state: State, assessedAt: Stamp): ReviewState {
    if run.outcome == Reopened then WasReopened
    else if run.outcome == Of(Status.Failed) then WasFailed
    else
      var next, assessed := Instant(run.nextReviewAt), Instant(assessedAt);
      if next.Some? && assessed.Some? && next.value < assessed.value then Overdue
      else if run.outcome != Of(state.status) || !CitesEvidence(run, state) then Reconcile
      else if run.outcome == Of(Passed) then Current
      else Unfinished
  }

  function ReadReview(check: Check, state: State, runs: seq<Run>, context: Context, known: set<string>): Reading {
    var latest := Latest(check, runs, context);
    if latest == [] then Reading(if state.status == Passed then ReviewRequired else NotReviewed, None)
    else if |latest| > 1 then Reading(Ambiguous, None)
    else if Broken(check, runs, known, context.assessedAt) then Reading(Invalid, Some(latest[0]))
    else Reading(Verdict(latest[0], state, context.assessedAt), Some(latest[0]))
  }

  // ---- The reading, as it is made ----

  method CountIds(runs: seq<Run>) returns (ids: map<Option<string>, nat>)
    ensures forall id :: (if id in ids then ids[id] else 0) == Count(HasId(id), runs)
  {
    hide Filter;
    ids := map[];
    CountNone();
    for i := 0 to |runs|
      invariant forall id :: (if id in ids then ids[id] else 0) == Count(HasId(id), runs[..i])
    {
      CountNext(runs, i);
      var id := runs[i].runId;
      ids := ids[id := (if id in ids then ids[id] else 0) + 1];
    }
    assert runs[..|runs|] == runs;
  }

  lemma CountNone()
    ensures forall id :: Count(HasId(id), []) == 0
  {
  }

  lemma CountNext(runs: seq<Run>, i: nat)
    requires i < |runs|
    ensures forall id :: Count(HasId(id), runs[..i + 1]) == Count(HasId(id), runs[..i]) + if runs[i].runId == id then 1 else 0
  {
    assert runs[..i + 1] == runs[..i] + [runs[i]];
    forall id ensures Count(HasId(id), runs[..i + 1]) == Count(HasId(id), runs[..i]) + if runs[i].runId == id then 1 else 0 {
      FilterAppend(HasId(id), runs[..i], runs[i]);
    }
  }

  method Read(check: Check, state: State, runs: seq<Run>, context: Context, known: set<string>) returns (reading: Reading)
    ensures reading == ReadReview(check, state, runs, context, known)
  {
    hide Filter, Verdict, RunProblem, Counts;
    var current := Filter(CountsFor(check, context), runs);
    var newest := None;
    for i := 0 to |current|
      invariant newest == Newest(current[..i])
    {
      assert current[..i + 1][..i] == current[..i];
      newest := Later(newest, Instant(current[i].testedAt));
    }
    assert current[..|current|] == current;
    var latest := Filter(TestedAt(newest), current);
    if latest == [] { return Reading(if state.status == Passed then ReviewRequired else NotReviewed, None); }
    if |latest| > 1 { return Reading(Ambiguous, None); }
    var run := latest[0];
    var ids := CountIds(runs);
    for i := 0 to |runs|
      invariant forall k :: 0 <= k < i && runs[k].checkId == Some(check.id) ==> !Bad(runs, runs[k], known, context.assessedAt)
    {
      if runs[i].checkId != Some(check.id) { continue; }
      var problem := ReviewRunProblem(runs[i], known, context.assessedAt);
      var times := if runs[i].runId in ids then ids[runs[i].runId] else 0;
      if times > 1 || problem != None { return Reading(Invalid, Some(run)); }
    }
    reading := Reading(Verdict(run, state, context.assessedAt), Some(run));
  }

  // ---- The order of the log does not matter ----

  lemma {:induction false} NewestIs(runs: seq<Run>)
    ensures Newest(runs) == None <==> forall run :: run in runs ==> Instant(run.testedAt) == None
    ensures Newest(runs).Some? ==>
      && (exists run :: run in runs && Instant(run.testedAt) == Newest(runs))
      && (forall run :: run in runs && Instant(run.testedAt).Some? ==> Instant(run.testedAt).value <= Newest(runs).value)
  {
    if runs != [] {
      var most, last := runs[..|runs| - 1], runs[|runs| - 1];
      NewestIs(most);
      assert runs == most + [last];
    }
  }

  lemma NewestUnordered(a: seq<Run>, b: seq<Run>)
    requires forall run :: run in a <==> run in b
    ensures Newest(a) == Newest(b)
  {
    NewestIs(a);
    NewestIs(b);
  }

  lemma FilterUnordered(keep: Run -> bool, a: seq<Run>, b: seq<Run>)
    requires multiset(a) == multiset(b)
    ensures multiset(Filter(keep, a)) == multiset(Filter(keep, b)) && |Filter(keep, a)| == |Filter(keep, b)|
    ensures forall run :: run in Filter(keep, a) <==> run in Filter(keep, b)
  {
    forall run ensures multiset(Filter(keep, a))[run] == multiset(Filter(keep, b))[run] {
      FilterCounts(keep, a, run);
      FilterCounts(keep, b, run);
    }
    assert multiset(Filter(keep, a)) == multiset(Filter(keep, b));
    assert |multiset(Filter(keep, a))| == |Filter(keep, a)| && |multiset(Filter(keep, b))| == |Filter(keep, b)|;
    forall run ensures run in Filter(keep, a) <==> run in Filter(keep, b) {
      assert run in multiset(Filter(keep, a)) <==> run in multiset(Filter(keep, b));
    }
  }

  lemma BrokenUnordered(check: Check, a: seq<Run>, b: seq<Run>, known: set<string>, assessedAt: Stamp)
    requires multiset(a) == multiset(b) && Broken(check, a, known, assessedAt)
    ensures Broken(check, b, known, assessedAt)
  {
    var k :| 0 <= k < |a| && a[k].checkId == Some(check.id) && Bad(a, a[k], known, assessedAt);
    FilterUnordered(HasId(a[k].runId), a, b);
    assert a[k] in multiset(a) && a[k] in multiset(b);
    var j :| 0 <= j < |b| && b[j] == a[k];
    assert Bad(b, b[j], known, assessedAt);
  }

  /** Reordering the log changes no reading. */
  lemma LogOrderDoesNotMatter(check: Check, state: State, a: seq<Run>, b: seq<Run>, context: Context, known: set<string>)
    requires multiset(a) == multiset(b)
    ensures ReadReview(check, state, a, context, known) == ReadReview(check, state, b, context, known)
  {
    hide Filter, Newest, Bad, Verdict, Broken;
    var ca, cb := Filter(CountsFor(check, context), a), Filter(CountsFor(check, context), b);
    FilterUnordered(CountsFor(check, context), a, b);
    NewestUnordered(ca, cb);
    FilterUnordered(TestedAt(Newest(ca)), ca, cb);
    if Broken(check, a, known, context.assessedAt) { BrokenUnordered(check, a, b, known, context.assessedAt); }
    if Broken(check, b, known, context.assessedAt) { BrokenUnordered(check, b, a, known, context.assessedAt); }
    var la, lb := Latest(check, a, context), Latest(check, b, context);
    if |la| == 1 { assert la[0] in lb; }
  }

  // ---- What appending to the log may change ----

  /** A run that leaves a check's reading alone: it repeats no id, and is another check's, or sound but out of context. */
  predicate Beside(check: Check, runs: seq<Run>, context: Context, known: set<string>, run: Run) {
    && Count(HasId(run.runId), runs) == 0
    && (run.checkId != Some(check.id)
        || (RunProblem(run, known, context.assessedAt) == None && !InContext(run, check, context)))
  }

  lemma AppendedIds(runs: seq<Run>, run: Run, other: Run)
    requires Count(HasId(run.runId), runs) == 0
    ensures other in runs ==> Count(HasId(other.runId), runs + [run]) == Count(HasId(other.runId), runs)
    ensures Count(HasId(run.runId), runs + [run]) == 1
  {
    FilterAppend(HasId(other.runId), runs, run);
    FilterAppend(HasId(run.runId), runs, run);
    FilterAll(HasId(run.runId), runs);
  }

  lemma AppendedBroken(check: Check, runs: seq<Run>, context: Context, known: set<string>, run: Run)
    requires Beside(check, runs, context, known, run)
    ensures Broken(check, runs + [run], known, context.assessedAt) <==> Broken(check, runs, known, context.assessedAt)
  {
    var more, at := runs + [run], context.assessedAt;
    if Broken(check, runs, known, at) {
      var k :| 0 <= k < |runs| && runs[k].checkId == Some(check.id) && Bad(runs, runs[k], known, at);
      AppendedIds(runs, run, runs[k]);
      assert Bad(more, more[k], known, at);
    }
    if Broken(check, more, known, at) {
      var k :| 0 <= k < |more| && more[k].checkId == Some(check.id) && Bad(more, more[k], known, at);
      AppendedIds(runs, run, more[k]);
      assert k < |runs| && Bad(runs, runs[k], known, at);
    }
  }

  /** Logging a run beside a check's history leaves its reading as it was. */
  lemma AppendingBeside(check: Check, state: State, runs: seq<Run>, context: Context, known: set<string>, run: Run)
    requires Beside(check, runs, context, known, run)
    ensures ReadReview(check, state, runs + [run], context, known) == ReadReview(check, state, runs, context, known)
  {
    hide Filter, Newest, Bad, Verdict, Broken, RunProblem;
    FilterAppend(CountsFor(check, context), runs, run);
    assert Filter(CountsFor(check, context), runs) + [] == Filter(CountsFor(check, context), runs);
    AppendedBroken(check, runs, context, known, run);
  }

  // ---- What a current reading means ----

  /**
   * A gate's review is current only on the strength of one run: alone at the latest moment among the runs in
   * context, sound, passed, not past its next review, agreeing with the status, and citing the evidence.
   */
  lemma CurrentMeans(check: Check, state: State, runs: seq<Run>, context: Context, known: set<string>)
    returns (run: Run)
    requires ReadReview(check, state, runs, context, known).state == Current
    ensures ReadReview(check, state, runs, context, known).latest == Some(run)
    ensures run in runs && multiset(runs)[run] == 1 && Counts(run, check, context) && Instant(run.testedAt).Some?
    ensures forall other :: other in runs && other != run && Counts(other, check, context) && Instant(other.testedAt).Some? ==>
      Instant(other.testedAt).value < Instant(run.testedAt).value
    ensures RunProblem(run, known, context.assessedAt) == None && run.outcome == Of(Passed) && state.status == Passed
    ensures CitesEvidence(run, state) && EnvironmentFits(EvidenceClassOf(check), run.environment)
    ensures Instant(run.nextReviewAt).Some? && Instant(context.assessedAt).Some? ==>
      Instant(context.assessedAt).value <= Instant(run.nextReviewAt).value
  {
    hide Filter, Newest, RunProblem, Repeated;
    var current := Filter(CountsFor(check, context), runs);
    var newest := Newest(current);
    var latest := Filter(TestedAt(newest), current);
    run := latest[0];
    NewestIs(current);
    assert run in latest && run in current && run in runs;
    SoundInHistory(check, runs, known, context.assessedAt, run);
    forall other | other in runs && other != run && Counts(other, check, context) && Instant(other.testedAt).Some?
      ensures Instant(other.testedAt).value < Instant(run.testedAt).value {
      assert CountsFor(check, context)(other) && other in current;
      assert TestedAt(newest)(other) ==> other in latest;
    }
    FilterCounts(TestedAt(newest), current, run);
    FilterCounts(CountsFor(check, context), runs, run);
    assert latest == [run];
  }

  lemma SoundInHistory(check: Check, runs: seq<Run>, known: set<string>, assessedAt: Stamp, run: Run)
    requires !Broken(check, runs, known, assessedAt) && run in runs && run.checkId == Some(check.id)
    ensures RunProblem(run, known, assessedAt) == None
  {
    var k :| 0 <= k < |runs| && runs[k] == run;
    assert !Bad(runs, runs[k], known, assessedAt);
  }
}
