/** Exactly when each cutover assessment says yes, gate by gate and in terms of what is recorded. */
module CutoverDecisions {
  import opened Jobs
  import opened Assessment
  import opened Readiness
  import opened Review
  import opened ReviewReadings
  import opened Cutover

  // ---- What is recorded ----

  /** The release, scope, origin and moment the assessment is of, and the criteria its checks are held to. */
  function Assessing(a: Assessed): Context {
    Context(a.release.releaseId, a.release.scopeRevision, a.release.origin, a.release.assessedAt, a.release.criteria, a.corpus.version)
  }

  /** Every run in the log is sound, about a check of the corpus, and alone in its id. */
  ghost predicate LogTrusted(a: Assessed) {
    var known := set check | check in a.corpus.checks :: check.id;
    forall k :: 0 <= k < |a.release.reviews| ==> Reliable(a.release.reviews, k, known, a.release.assessedAt)
  }

  /** Recorded in scope, or out of it with a reason; nothing need be recorded of a universal gate. */
  predicate Explained(a: Assessed, check: Check) {
    if check.id in a.states
    then a.states[check.id].applicability == Yes || (a.states[check.id].applicability == No && Filled(a.states[check.id].rationale))
    else check.universal
  }

  predicate Applies(a: Assessed, check: Check) {
    if check.id in a.states then a.states[check.id].applicability == Yes else check.universal
  }

  /** Recorded passed, on an attestation still good. */
  predicate StillPassed(a: Assessed, check: Check) {
    check.id in a.states && a.states[check.id].status == Passed && StillGood(a.states[check.id], a.release.assessedAt)
  }

  /**
   * The gate is recorded passed on an attestation still good, and its latest review, alone at its moment, passed,
   * is not past its next date and cites the same evidence; where it can only be seen live, it was tested no
   * earlier than cutover.
   */
  ghost predicate RestsOn(a: Assessed, check: Check, k: int) {
    && StillPassed(a, check)
    && LeadsAlone(check, a.release.reviews, Assessing(a), k)
    && var run := a.release.reviews[k];
       && run.outcome == Of(Passed) && !PastReview(run, a.release.assessedAt) && Cites(run, a.states[check.id])
       && (check.phase == 5 ==>
            && a.release.cutover.Some? && Instant(a.release.cutover.value.cutoverAt).Some?
            && Instant(a.release.cutover.value.cutoverAt).value <= Instant(run.testedAt).value)
  }

  ghost predicate Reviewed(a: Assessed, check: Check) {
    exists k :: RestsOn(a, check, k)
  }

  /** Cutover was authorized by someone, with a reference, after the scope was approved and on this very release being ready. */
  predicate Authorized(release: Release) {
    release.cutover.Some? &&
    var cutover := release.cutover.value;
    && Filled(cutover.authorizer) && Filled(cutover.decisionReference)
    && release.scopeApprovedAt.At? && cutover.authorizedAt.At? && cutover.cutoverAt.At? && release.assessedAt.At?
    && 0 < release.scopeApprovedAt.ms <= cutover.authorizedAt.ms <= cutover.cutoverAt.ms <= release.assessedAt.ms
    && cutover.binding.Some?
    && cutover.binding.value.releaseId == release.releaseId
    && cutover.binding.value.scopeRevision == release.scopeRevision
    && cutover.binding.value.origin == release.origin
    && cutover.binding.value.assessment == Some("READY FOR CUTOVER")
  }

  lemma RecordMeans(release: Release)
    ensures CutoverRecordValid(release) <==> Authorized(release)
  {
    hide Filled;
  }

  // ---- Gate by gate ----

  lemma ExplainedMeans(a: Assessed, check: Check)
    requires check.launchGate
    ensures Explained(a, check) <==> !Unexplained(a, check) && !Unresolved(a.states, a.release.assessedAt, check)
    ensures Applies(a, check) <==> InScope(a.states, a.release.assessedAt, check)
  {
    hide Filled, AttestationLapsed;
  }

  lemma EffectivelyPassed(a: Assessed, check: Check)
    ensures
      var state := Effective(a.states, check, a.release.assessedAt);
      && (state.status == Passed <==> StillPassed(a, check))
      && (state.status == Passed ==> state == a.states[check.id])
  {
    StandsMeans(StateOf(a.states, check), a.release.assessedAt);
    hide AttestationLapsed, StillGood;
  }

  lemma KnownAre(a: Assessed)
    ensures KnownChecks(a.corpus) == set check | check in a.corpus.checks :: check.id
  {
    assert forall k :: 0 <= k < |a.corpus.checks| ==> a.corpus.checks[k] in a.corpus.checks;
  }

  lemma LogMeans(a: Assessed)
    ensures Count(BadRunIn(a), a.release.reviews) == 0 <==> LogTrusted(a)
  {
    hide Filter, Bad, Reliable;
    var runs := a.release.reviews;
    KnownAre(a);
    FilterAll(BadRunIn(a), runs);
    forall k | 0 <= k < |runs|
      ensures BadRunIn(a)(runs[k]) <==> !Reliable(runs, k, KnownChecks(a.corpus), a.release.assessedAt) {
      ReliableMeans(runs, k, KnownChecks(a.corpus), a.release.assessedAt);
    }
    assert forall run :: run in runs ==> exists k :: 0 <= k < |runs| && runs[k] == run;
  }

  /** A gate's reading is current, of a run in time, exactly when it rests on one. */
  lemma TroubleMeans(a: Assessed, check: Check)
    requires LogTrusted(a)
    ensures TroubleOf(a.corpus, a.states, a.release, check) == NoTrouble <==> Reviewed(a, check)
  {
    hide ReadReview, LeadsAlone, Trusted, Effective, StillGood, Says;
    var runs, context, known := a.release.reviews, Assessing(a), KnownChecks(a.corpus);
    var state := Effective(a.states, check, a.release.assessedAt);
    ReadingMeans(check, state, runs, context, known);
    EffectivelyPassed(a, check);
    TrustsCheck(a, check);
    var reading := ReadingOf(a.corpus, a.states, a.release, check);
    assert context == ContextOf(a.corpus, a.release);
    if reading.latest.Some? {
      var k :| LeadsAlone(check, runs, context, k);
      AloneDated(check, runs, context, k);
      SaysCurrent(runs[k], state, a.release.assessedAt, reading.state);
      forall j | LeadsAlone(check, runs, context, j) ensures j == k { OneAlone(check, runs, context, j, k); }
      assert reading.latest == Some(runs[k]);
      assert TestMoment(reading) == Instant(runs[k].testedAt).value;
      if TroubleOf(a.corpus, a.states, a.release, check) == NoTrouble { assert RestsOn(a, check, k); }
    } else {
      NoneCurrent(check, state, runs, context, known);
    }
  }

  lemma SaysCurrent(run: Run, state: State, assessedAt: Stamp, answer: ReviewState)
    requires Says(run, state, assessedAt, answer)
    ensures answer == Current <==> !PastReview(run, assessedAt) && run.outcome == Of(Passed) && state.status == Passed && Cites(run, state)
  {
    hide Cites, PastReview;
  }

  lemma AloneDated(check: Check, runs: seq<Run>, context: Context, k: int)
    requires LeadsAlone(check, runs, context, k)
    ensures 0 <= k < |runs| && Instant(runs[k].testedAt).Some?
  {
    hide About;
  }

  lemma OneAlone(check: Check, runs: seq<Run>, context: Context, j: int, k: int)
    requires LeadsAlone(check, runs, context, j) && LeadsAlone(check, runs, context, k)
    ensures j == k
  {
    hide Leads;
  }

  lemma NoneCurrent(check: Check, state: State, runs: seq<Run>, context: Context, known: set<string>)
    requires ReadReview(check, state, runs, context, known).latest == None
    ensures ReadReview(check, state, runs, context, known).state != Current
  {
    hide Latest, Broken;
  }

  lemma TrustsCheck(a: Assessed, check: Check)
    requires LogTrusted(a)
    ensures Trusted(check, a.release.reviews, KnownChecks(a.corpus), a.release.assessedAt)
  {
    hide Reliable;
    KnownAre(a);
  }

  // ---- The two decisions ----

  /** What each gate owes the assessment: an explanation, and where it applies a review to rest on. */
  ghost predicate Cleared(a: Assessed, check: Check) {
    Explained(a, check) && (Applies(a, check) ==> Reviewed(a, check))
  }

  /** What each gate owes before cutover: the same, but for a review of what can only be seen live. */
  ghost predicate ClearedBefore(a: Assessed, check: Check) {
    Explained(a, check) && (Applies(a, check) && check.phase != 5 ==> Reviewed(a, check))
  }

  lemma GateMeans(a: Assessed, check: Check)
    requires LogTrusted(a) && check.launchGate
    ensures Cleared(a, check) <==>
      && !Unexplained(a, check) && !Unresolved(a.states, a.release.assessedAt, check)
      && !Outstanding(a.states, a.release.assessedAt, check) && !PreIncomplete(a, check) && !LiveIncomplete(a, check)
    ensures ClearedBefore(a, check) <==>
      && !Unexplained(a, check) && !Unresolved(a.states, a.release.assessedAt, check)
      && !PreOutstanding(a, check) && !PreIncomplete(a, check)
  {
    hide Unexplained, Unresolved, Explained, Applies, TroubleOf, Effective, StillGood, LeadsAlone, LogTrusted;
    ExplainedMeans(a, check);
    TroubleMeans(a, check);
    EffectivelyPassed(a, check);
    if Reviewed(a, check) { var k :| RestsOn(a, check, k); }
  }

  /** No check is one of these: each is what its count takes in. */
  lemma NoneOf(what: Check -> bool, checks: seq<Check>)
    ensures Count(what, checks) == 0 <==> forall check :: check in checks ==> !what(check)
  {
    FilterAll(what, checks);
  }

  lemma Counts0(a: Assessed)
    ensures
      var checks, at := a.corpus.checks, a.release.assessedAt;
      && (Count(UnexplainedIn(a), checks) == 0 <==> forall check :: check in checks ==> !Unexplained(a, check))
      && (Count(UnresolvedAt(a.states, at), checks) == 0 <==> forall check :: check in checks ==> !Unresolved(a.states, at, check))
      && (Count(OutstandingAt(a.states, at), checks) == 0 <==> forall check :: check in checks ==> !Outstanding(a.states, at, check))
      && (Count(PreOutstandingIn(a), checks) == 0 <==> forall check :: check in checks ==> !PreOutstanding(a, check))
      && (Count(PreIncompleteIn(a), checks) == 0 <==> forall check :: check in checks ==> !PreIncomplete(a, check))
      && (Count(LiveIncompleteIn(a), checks) == 0 <==> forall check :: check in checks ==> !LiveIncomplete(a, check))
  {
    hide Count, Unexplained, Unresolved, Outstanding, PreOutstanding, PreIncomplete, LiveIncomplete;
    var checks, at := a.corpus.checks, a.release.assessedAt;
    NoneOf(UnexplainedIn(a), checks);
    NoneOf(UnresolvedAt(a.states, at), checks);
    NoneOf(OutstandingAt(a.states, at), checks);
    NoneOf(PreOutstandingIn(a), checks);
    NoneOf(PreIncompleteIn(a), checks);
    NoneOf(LiveIncompleteIn(a), checks);
  }

  /** Only launch gates are counted. */
  lemma NotGates(a: Assessed, check: Check)
    requires !check.launchGate
    ensures !Unexplained(a, check) && !Unresolved(a.states, a.release.assessedAt, check)
    ensures !Outstanding(a.states, a.release.assessedAt, check) && !PreOutstanding(a, check)
    ensures !PreIncomplete(a, check) && !LiveIncomplete(a, check)
  {
  }

  lemma DecisionCounts(a: Assessed)
    ensures
      var r, checks, at := Assess(a), a.corpus.checks, a.release.assessedAt;
      && (r.ready <==>
           && Count(BadRunIn(a), a.release.reviews) == 0 && Cutover.Complete(a.release) && Count(UnexplainedIn(a), checks) == 0
           && Count(UnresolvedAt(a.states, at), checks) == 0 && Count(PreOutstandingIn(a), checks) == 0
           && Count(PreIncompleteIn(a), checks) == 0)
      && (r.final == GO <==>
           && r.ready && Count(OutstandingAt(a.states, at), checks) == 0 && Count(LiveIncompleteIn(a), checks) == 0
           && CutoverRecordValid(a.release))
  {
    hide Count, Problems, Cutover.Complete, CutoverRecordValid, BlockersOf;
    ProblemsMean(a.release);
  }

  /**
   * When each assessment says yes, both ways. The release is ready for cutover exactly when it is complete, its
   * review log can be trusted, and each launch gate is explained and, unless it can only be seen live, rests on a
   * review where it applies. The final assessment is GO exactly when moreover every applicable gate rests on one
   * and cutover was authorized on this release, and made, in time.
   */
  lemma DecisionsExactly(a: Assessed)
    ensures Assess(a).ready <==>
      Cutover.Complete(a.release) && LogTrusted(a) && forall check :: check in a.corpus.checks && check.launchGate ==> ClearedBefore(a, check)
    ensures Assess(a).final == GO <==>
      && Cutover.Complete(a.release) && LogTrusted(a) && Authorized(a.release)
      && forall check :: check in a.corpus.checks && check.launchGate ==> Cleared(a, check)
  {
    hide Assess, Count, Cutover.Complete, LogTrusted, Authorized, CutoverRecordValid, Cleared, ClearedBefore, Unexplained, Unresolved, Outstanding,
         PreOutstanding, PreIncomplete, LiveIncomplete;
    DecisionCounts(a);
    Counts0(a);
    LogMeans(a);
    RecordMeans(a.release);
    if LogTrusted(a) {
      forall check | check in a.corpus.checks
        ensures
          !check.launchGate || Cleared(a, check) <==>
            && !Unexplained(a, check) && !Unresolved(a.states, a.release.assessedAt, check)
            && !Outstanding(a.states, a.release.assessedAt, check) && !PreIncomplete(a, check) && !LiveIncomplete(a, check)
        ensures
          !check.launchGate || ClearedBefore(a, check) <==>
            && !Unexplained(a, check) && !Unresolved(a.states, a.release.assessedAt, check)
            && !PreOutstanding(a, check) && !PreIncomplete(a, check)
        ensures Outstanding(a.states, a.release.assessedAt, check) || !PreOutstanding(a, check)
      {
        if check.launchGate { GateMeans(a, check); } else { NotGates(a, check); }
        StagesOut(a, check);
      }
    }
  }

  lemma StagesOut(a: Assessed, check: Check)
    ensures PreOutstanding(a, check) ==> Outstanding(a.states, a.release.assessedAt, check)
  {
    hide Outstanding;
  }

  // ---- What is listed as in the way ----

  /** What a blocker says of its gate: what is seen of it and when, whether it passed, how its review reads, and what is missing. */
  ghost predicate BlockerSays(a: Assessed, check: Check, b: Blocker) {
    var reading := ReadingOf(a.corpus, a.states, a.release, check);
    && b.checkId == check.id && b.review == reading.state
    && (b.kind == Planning <==> check.phase == 0) && (b.kind == Live <==> check.phase == 5)
    && (b.outstanding <==> !StillPassed(a, check))
    && (if reading.state != Current then b.trouble == ReviewNotCurrent(reading.state)
        else b.trouble == if check.phase != 5 || TestedSince(a, reading) then NoTrouble else LiveTestPredatesCutover)
    && (b.outstanding || b.trouble != NoTrouble)
  }

  /** Tested no earlier than a recorded cutover. */
  predicate TestedSince(a: Assessed, reading: Reading) {
    && a.release.cutover.Some? && Instant(a.release.cutover.value.cutoverAt).Some?
    && reading.latest.Some? && Instant(reading.latest.value.testedAt).Some?
    && Instant(a.release.cutover.value.cutoverAt).value <= Instant(reading.latest.value.testedAt).value
  }

  lemma CurrentDated(a: Assessed, check: Check)
    requires ReadingOf(a.corpus, a.states, a.release, check).state == Current
    ensures
      var reading := ReadingOf(a.corpus, a.states, a.release, check);
      reading.latest.Some? && Instant(reading.latest.value.testedAt).Some?
  {
    hide ReadReview, Counts, RunProblem, CitesEvidence;
    var state := Effective(a.states, check, a.release.assessedAt);
    var run := CurrentMeans(check, state, a.release.reviews, ContextOf(a.corpus, a.release), KnownChecks(a.corpus));
  }

  lemma BlockerIs(a: Assessed, check: Check)
    requires Blocks(a, check)
    ensures check.launchGate && Applies(a, check) && BlockerSays(a, check, BlockerOf(a, check))
  {
    hide ReadingOf, Effective, StillGood, Instant;
    InScopeMeans(a, check);
    EffectivelyPassed(a, check);
    if ReadingOf(a.corpus, a.states, a.release, check).state == Current { CurrentDated(a, check); }
  }

  lemma InScopeMeans(a: Assessed, check: Check)
    ensures InScope(a.states, a.release.assessedAt, check) <==> check.launchGate && Applies(a, check)
  {
    if check.launchGate { ExplainedMeans(a, check); }
  }

  lemma {:induction false} BlockerAt(a: Assessed, checks: seq<Check>, k: nat)
    requires k < |checks|
    ensures BlockersOf(a, checks)[k] == BlockerOf(a, checks[k])
  {
    if k < |checks| - 1 { BlockerAt(a, checks[..|checks| - 1], k); }
  }

  /**
   * The blockers, in the order of the corpus: one for each applicable launch gate that is not passed on an
   * attestation still good, or whose review is not current, or was tested before cutover where it can only be
   * seen live; and none for any other check.
   */
  lemma BlockersMean(a: Assessed)
    ensures
      var gates, blockers := Filter(BlocksIn(a), a.corpus.checks), Assess(a).blockers;
      |blockers| == |gates| && forall k :: 0 <= k < |gates| ==> BlockerSays(a, gates[k], blockers[k])
    ensures forall check :: check in a.corpus.checks ==>
      (check in Filter(BlocksIn(a), a.corpus.checks) <==>
        && check.launchGate && Applies(a, check)
        && (!StillPassed(a, check) || TroubleOf(a.corpus, a.states, a.release, check) != NoTrouble))
  {
    hide BlockerSays, BlockerOf, Applies, StillPassed, TroubleOf, Effective;
    var gates := Filter(BlocksIn(a), a.corpus.checks);
    forall k | 0 <= k < |gates| ensures BlockerSays(a, gates[k], Assess(a).blockers[k]) {
      BlockerAt(a, gates, k);
      assert gates[k] in gates;
      BlockerIs(a, gates[k]);
    }
    forall check | check in a.corpus.checks
      ensures BlocksIn(a)(check) <==>
        && check.launchGate && Applies(a, check)
        && (!StillPassed(a, check) || TroubleOf(a.corpus, a.states, a.release, check) != NoTrouble) {
      BlocksMeans(a, check);
    }
  }

  lemma BlocksMeans(a: Assessed, check: Check)
    ensures Blocks(a, check) <==>
      && check.launchGate && Applies(a, check)
      && (!StillPassed(a, check) || TroubleOf(a.corpus, a.states, a.release, check) != NoTrouble)
  {
    hide TroubleOf, Effective, StillGood;
    InScopeMeans(a, check);
    EffectivelyPassed(a, check);
    ScopeIs(a, check);
  }

  lemma ScopeIs(a: Assessed, check: Check)
    ensures InScope(a.states, a.release.assessedAt, check) <==>
      check.launchGate && Effective(a.states, check, a.release.assessedAt).applicability == Yes
  {
  }
}
