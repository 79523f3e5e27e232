/** The assessment that can say GO for cutover, and after it the final GO. */
module Cutover {
  import opened Jobs
  import opened Assessment
  import opened Readiness
  import opened Review

  datatype Binding = Binding(releaseId: Option<string>, scopeRevision: Option<string>, origin: Option<string>, assessment: Option<string>)

  datatype Authorization = Authorization(
    authorizer: Option<string>,
    authorizedAt: Stamp,
    decisionReference: Option<string>,
    cutoverAt: Stamp,
    binding: Option<Binding>)

  datatype Recorded = RecordedGO | RecordedHOLD | RecordedRollback

  datatype Release = Release(
    releaseId: Option<string>,
    scopeRevision: Option<string>,
    origin: Option<string>,
    scopeApprover: Option<string>,
    scopeApprovedAt: Stamp,
    scopeApprovalEvidence: Option<string>,
    decisionOwner: Option<string>,
    assessedAt: Stamp,
    criteria: map<string, string>,
    cutover: Option<Authorization>,
    launchDecision: Option<Recorded>,
    reviews: seq<Run>)

  datatype Corpus = Corpus(version: string, checks: seq<Check>)

  const READY_FOR_CUTOVER := "READY FOR CUTOVER"

  datatype Trouble = NoTrouble | ReviewNotCurrent(state: ReviewState) | LiveTestPredatesCutover

  datatype Blocker = Blocker(checkId: string, kind: EvidenceClass, outstanding: bool, review: ReviewState, trouble: Trouble)

  datatype Standing = NoDecision | JustRecorded | Agrees | Conflict

  datatype CutoverReadiness = CutoverReadiness(
    ready: bool,
    final: Decision,
    inputErrors: nat,
    preCutoverGatesOutstanding: nat,
    liveGatesOutstanding: nat,
    preCutoverEvidenceIncomplete: nat,
    liveEvidenceIncomplete: nat,
    recordValid: bool,
    scopeErrors: nat,
    scopeProblems: seq<string>,
    launch: LaunchReadiness,
    blockers: seq<Blocker>,
    launchDecision: Standing)

  // ---- The release itself ----

  function If(wrong: bool, problem: string): seq<string> {
    if wrong then [problem] else []
  }

  predicate ApprovalTimeBad(release: Release) {
    var assessed, approved := Instant(release.assessedAt), Instant(release.scopeApprovedAt);
    approved == None || assessed == None || approved.value > assessed.value
  }

  function Problems(release: Release): seq<string> {
    If(!Filled(release.releaseId), "release id")
    + If(!Filled(release.scopeRevision), "scope revision")
    + If(!IsOrigin(release.origin), "target production origin")
    + If(!Filled(release.scopeApprover), "scope approver")
    + If(ApprovalTimeBad(release), "scope approval time")
    + If(!Filled(release.scopeApprovalEvidence), "scope approval evidence")
    + If(!Filled(release.decisionOwner), "decision owner")
    + If(Instant(release.assessedAt) == None, "assessment time")
  }

  /** Everything a release must say before anyone may rely on an assessment of it. */
  predicate Complete(release: Release) {
    && Filled(release.releaseId) && Filled(release.scopeRevision) && IsOrigin(release.origin)
    && Filled(release.scopeApprover) && Filled(release.scopeApprovalEvidence) && Filled(release.decisionOwner)
    && Instant(release.assessedAt).Some? && Instant(release.scopeApprovedAt).Some?
    && Instant(release.scopeApprovedAt).value <= Instant(release.assessedAt).value
  }

  lemma InIf(wrong: bool, problem: string, name: string)
    ensures name in If(wrong, problem) <==> wrong && name == problem
  {
  }

  /** A name is listed exactly when it is the name of a field that is missing or invalid. */
  lemma ListedWhen(release: Release, name: string)
    ensures name in Problems(release) <==>
      || (name == "release id" && !Filled(release.releaseId))
      || (name == "scope revision" && !Filled(release.scopeRevision))
      || (name == "target production origin" && !IsOrigin(release.origin))
      || (name == "scope approver" && !Filled(release.scopeApprover))
      || (name == "scope approval time" && ApprovalTimeBad(release))
      || (name == "scope approval evidence" && !Filled(release.scopeApprovalEvidence))
      || (name == "decision owner" && !Filled(release.decisionOwner))
      || (name == "assessment time" && Instant(release.assessedAt) == None)
  {
    hide Filled, IsOrigin, ApprovalTimeBad, If;
    InIf(!Filled(release.releaseId), "release id", name);
    InIf(!Filled(release.scopeRevision), "scope revision", name);
    InIf(!IsOrigin(release.origin), "target production origin", name);
    InIf(!Filled(release.scopeApprover), "scope approver", name);
    InIf(ApprovalTimeBad(release), "scope approval time", name);
    InIf(!Filled(release.scopeApprovalEvidence), "scope approval evidence", name);
    InIf(!Filled(release.decisionOwner), "decision owner", name);
    InIf(Instant(release.assessedAt) == None, "assessment time", name);
  }

  const NAMES := ["release id", "scope revision", "target production origin", "scope approver", "scope approval time",
                  "scope approval evidence", "decision owner", "assessment time"]

  /** The field a name stands for is in order. */
  predicate InOrder(release: Release, k: nat)
    requires k < |NAMES|
  {
    match k
    case 0 => Filled(release.releaseId)
    case 1 => Filled(release.scopeRevision)
    case 2 => IsOrigin(release.origin)
    case 3 => Filled(release.scopeApprover)
    case 4 => !ApprovalTimeBad(release)
    case 5 => Filled(release.scopeApprovalEvidence)
    case 6 => Filled(release.decisionOwner)
    case _ => Instant(release.assessedAt).Some?
  }

  lemma NamesDiffer()
    ensures forall j, k :: 0 <= j < k < |NAMES| ==> NAMES[j] != NAMES[k]
  {
    assert |NAMES[0]| == 10 && |NAMES[1]| == 14 && |NAMES[2]| == 24 && |NAMES[3]| == 14 && |NAMES[4]| == 19;
    assert |NAMES[5]| == 23 && |NAMES[6]| == 14 && |NAMES[7]| == 15;
    assert NAMES[1][6] == 'r' && NAMES[3][6] == 'a' && NAMES[6][0] == 'd' && NAMES[1][0] == 's' && NAMES[3][0] == 's';
  }

  /** The list names exactly the fields not in order, each by its own name; it is empty exactly when the release is complete. */
  lemma ProblemsMean(release: Release)
    ensures forall k :: 0 <= k < |NAMES| ==> (NAMES[k] in Problems(release) <==> !InOrder(release, k))
    ensures forall name :: name in Problems(release) ==> name in NAMES
    ensures Problems(release) == [] <==> Complete(release)
  {
    hide Filled, IsOrigin, Problems;
    NamesDiffer();
    forall k | 0 <= k < |NAMES| ensures NAMES[k] in Problems(release) <==> !InOrder(release, k) {
      ListedWhen(release, NAMES[k]);
    }
    forall name | name in Problems(release) ensures name in NAMES {
      ListedWhen(release, name);
      assert NAMES[0] == "release id" && NAMES[1] == "scope revision" && NAMES[2] == "target production origin";
      assert NAMES[3] == "scope approver" && NAMES[4] == "scope approval time" && NAMES[5] == "scope approval evidence";
      assert NAMES[6] == "decision owner" && NAMES[7] == "assessment time";
    }
    if Problems(release) != [] { assert Problems(release)[0] in Problems(release); }
    assert (forall k :: 0 <= k < |NAMES| ==> InOrder(release, k)) <==> Complete(release) by { CompleteMeans(release); }
  }

  lemma CompleteMeans(release: Release)
    ensures (forall k :: 0 <= k < |NAMES| ==> InOrder(release, k)) <==> Complete(release)
  {
    hide Filled, IsOrigin;
    assert |NAMES| == 8;
    if forall k :: 0 <= k < |NAMES| ==> InOrder(release, k) {
      assert InOrder(release, 0) && InOrder(release, 1) && InOrder(release, 2) && InOrder(release, 3);
      assert InOrder(release, 4) && InOrder(release, 5) && InOrder(release, 6) && InOrder(release, 7);
    }
  }

  method ReleaseProblems(release: Release) returns (problems: seq<string>)
    ensures problems == Problems(release)
    ensures problems == [] <==> Complete(release)
    ensures forall k :: 0 <= k < |NAMES| ==> (NAMES[k] in problems <==> !InOrder(release, k))
  {
    hide Filled, IsOrigin, ApprovalTimeBad, Complete, InOrder;
    ProblemsMean(release);
    problems := If(!Filled(release.releaseId), "release id");
    problems := problems + If(!Filled(release.scopeRevision), "scope revision");
    problems := problems + If(!IsOrigin(release.origin), "target production origin");
    problems := problems + If(!Filled(release.scopeApprover), "scope approver");
    problems := problems + If(ApprovalTimeBad(release), "scope approval time");
    problems := problems + If(!Filled(release.scopeApprovalEvidence), "scope approval evidence");
    problems := problems + If(!Filled(release.decisionOwner), "decision owner");
    problems := problems + If(Instant(release.assessedAt) == None, "assessment time");
  }

  predicate CutoverRecordValid(release: Release) {
    release.cutover.Some? &&
    var cutover := release.cutover.value;
    var assessed, approved := Instant(release.assessedAt), Instant(release.scopeApprovedAt);
    var authorized, actual := Instant(cutover.authorizedAt), Instant(cutover.cutoverAt);
    && assessed.Some? && approved.Some? && authorized.Some? && actual.Some?
    && Filled(cutover.authorizer) && Filled(cutover.decisionReference)
    && approved.value <= authorized.value <= actual.value <= assessed.value
    && Bound(cutover.binding, release)
  }

  /** The authorizer was shown this release, and that it was ready. */
  predicate Bound(binding: Option<Binding>, release: Release) {
    var shown := if binding.Some? then binding.value else Binding(None, None, None, None);
    && shown.releaseId == release.releaseId && shown.scopeRevision == release.scopeRevision && shown.origin == release.origin
    && shown.assessment == Some(READY_FOR_CUTOVER)
  }

  // ---- The gates ----

  function KnownChecks(corpus: Corpus): set<string> {
    set k | 0 <= k < |corpus.checks| :: corpus.checks[k].id
  }

  function ContextOf(corpus: Corpus, release: Release): Context {
    Context(release.releaseId, release.scopeRevision, release.origin, release.assessedAt, release.criteria, corpus.version)
  }

  function CutoverAt(release: Release): Option<int> {
    if release.cutover.Some? then Instant(release.cutover.value.cutoverAt) else None
  }

  function ReadingOf(corpus: Corpus, states: States, release: Release, check: Check): Reading {
    ReadReview(check, Effective(states, check, release.assessedAt), release.reviews, ContextOf(corpus, release), KnownChecks(corpus))
  }

  predicate IsLive(check: Check) {
    EvidenceClassOf(check) == Live
  }

  /** What is missing from a gate's evidence. */
  function TroubleOf(corpus: Corpus, states: States, release: Release, check: Check): Trouble {
    var reading := ReadingOf(corpus, states, release, check);
    if reading.state != Current then ReviewNotCurrent(reading.state)
    else if IsLive(check) && (CutoverAt(release) == None || TestMoment(reading) < CutoverAt(release).value) then LiveTestPredatesCutover
    else NoTrouble
  }

  function TestMoment(reading: Reading): int {
    if reading.latest.Some? && Instant(reading.latest.value.testedAt).Some? then Instant(reading.latest.value.testedAt).value else 0
  }

  datatype Assessed = Assessed(corpus: Corpus, states: States, release: Release)

  predicate PreOutstanding(a: Assessed, check: Check) { Outstanding(a.states, a.release.assessedAt, check) && !IsLive(check) }
  predicate LiveOutstanding(a: Assessed, check: Check) { Outstanding(a.states, a.release.assessedAt, check) && IsLive(check) }
  predicate Incomplete(a: Assessed, check: Check) {
    InScope(a.states, a.release.assessedAt, check) && TroubleOf(a.corpus, a.states, a.release, check) != NoTrouble
  }
  predicate PreIncomplete(a: Assessed, check: Check) { Incomplete(a, check) && !IsLive(check) }
  predicate LiveIncomplete(a: Assessed, check: Check) { Incomplete(a, check) && IsLive(check) }

  /** A gate taken out of scope with nothing said about why. */
  predicate Unexplained(a: Assessed, check: Check) {
    var state := Effective(a.states, check, a.release.assessedAt);
    check.launchGate && state.applicability == No && !Filled(state.rationale)
  }

  predicate Blocks(a: Assessed, check: Check) {
    Outstanding(a.states, a.release.assessedAt, check) || Incomplete(a, check)
  }

  function PreOutstandingIn(a: Assessed): Check -> bool { (check: Check) => PreOutstanding(a, check) }
  function LiveOutstandingIn(a: Assessed): Check -> bool { (check: Check) => LiveOutstanding(a, check) }
  function PreIncompleteIn(a: Assessed): Check -> bool { (check: Check) => PreIncomplete(a, check) }
  function LiveIncompleteIn(a: Assessed): Check -> bool { (check: Check) => LiveIncomplete(a, check) }
  function UnexplainedIn(a: Assessed): Check -> bool { (check: Check) => Unexplained(a, check) }
  function BlocksIn(a: Assessed): Check -> bool { (check: Check) => Blocks(a, check) }

  function BlockerOf(a: Assessed, check: Check): Blocker {
    Blocker(check.id, EvidenceClassOf(check), Effective(a.states, check, a.release.assessedAt).status != Passed,
            ReadingOf(a.corpus, a.states, a.release, check).state, TroubleOf(a.corpus, a.states, a.release, check))
  }

  function BlockersOf(a: Assessed, checks: seq<Check>): (r: seq<Blocker>)
    ensures |r| == |checks|
  {
    if checks == [] then [] else BlockersOf(a, checks[..|checks| - 1]) + [BlockerOf(a, checks[|checks| - 1])]
  }

  predicate BadRun(a: Assessed, run: Run) {
    Bad(a.release.reviews, run, KnownChecks(a.corpus), a.release.assessedAt)
  }

  function BadRunIn(a: Assessed): Run -> bool { (run: Run) => BadRun(a, run) }

  function Stands(decision: Option<Recorded>, final: Decision): Standing {
    if decision == None then NoDecision
    else if decision.value != RecordedGO then JustRecorded
    else if final == GO then Agrees
    else Conflict
  }

  /** Both assessments, as counts over the checks. */
  function Assess(a: Assessed): CutoverReadiness {
    var checks, release := a.corpus.checks, a.release;
    var launch := Launch(checks, a.states, release.assessedAt);
    var inputErrors := Count(BadRunIn(a), release.reviews);
    var scopeErrors := |Problems(release)| + Count(UnexplainedIn(a), checks);
    var pre, preIncomplete := Count(PreOutstandingIn(a), checks), Count(PreIncompleteIn(a), checks);
    var liveIncomplete := Count(LiveIncompleteIn(a), checks);
    var ready := inputErrors == 0 && scopeErrors == 0 && launch.applicabilityDecisionsOutstanding == 0 && pre == 0 && preIncomplete == 0;
    var final := if ready && launch.gatesOutstanding == 0 && liveIncomplete == 0 && CutoverRecordValid(release) then GO else HOLD;
    CutoverReadiness(ready, final, inputErrors, pre, Count(LiveOutstandingIn(a), checks), preIncomplete, liveIncomplete,
                     CutoverRecordValid(release), scopeErrors, Problems(release), launch,
                     BlockersOf(a, Filter(BlocksIn(a), checks)), Stands(release.launchDecision, final))
  }

  // ---- The assessment, as it is made ----

  lemma OneMoreGate(a: Assessed, i: nat)
    requires i < |a.corpus.checks|
    ensures
      var before, after, check := a.corpus.checks[..i], a.corpus.checks[..i + 1], a.corpus.checks[i];
      && Count(PreOutstandingIn(a), after) == Count(PreOutstandingIn(a), before) + (if PreOutstanding(a, check) then 1 else 0)
      && Count(LiveOutstandingIn(a), after) == Count(LiveOutstandingIn(a), before) + (if LiveOutstanding(a, check) then 1 else 0)
      && Count(PreIncompleteIn(a), after) == Count(PreIncompleteIn(a), before) + (if PreIncomplete(a, check) then 1 else 0)
      && Count(LiveIncompleteIn(a), after) == Count(LiveIncompleteIn(a), before) + (if LiveIncomplete(a, check) then 1 else 0)
      && Count(UnexplainedIn(a), after) == Count(UnexplainedIn(a), before) + (if Unexplained(a, check) then 1 else 0)
      && BlockersOf(a, Filter(BlocksIn(a), after))
         == BlockersOf(a, Filter(BlocksIn(a), before)) + (if Blocks(a, check) then [BlockerOf(a, check)] else [])
  {
    hide TroubleOf, ReadingOf, Effective;
    var checks := a.corpus.checks;
    assert checks[..i + 1] == checks[..i] + [checks[i]];
    FilterAppend(PreOutstandingIn(a), checks[..i], checks[i]);
    FilterAppend(LiveOutstandingIn(a), checks[..i], checks[i]);
    FilterAppend(PreIncompleteIn(a), checks[..i], checks[i]);
    FilterAppend(LiveIncompleteIn(a), checks[..i], checks[i]);
    FilterAppend(UnexplainedIn(a), checks[..i], checks[i]);
    FilterAppend(BlocksIn(a), checks[..i], checks[i]);
    BlockersAppend(a, Filter(BlocksIn(a), checks[..i]), checks[i]);
  }

  lemma BlockersAppend(a: Assessed, checks: seq<Check>, check: Check)
    ensures BlockersOf(a, checks + [check]) == BlockersOf(a, checks) + [BlockerOf(a, check)]
    ensures BlockersOf(a, checks + []) == BlockersOf(a, checks) + []
  {
    assert (checks + [check])[..|checks|] == checks;
    assert checks + [] == checks;
  }

  method CountBadRuns(a: Assessed) returns (errors: nat)
    ensures errors == Count(BadRunIn(a), a.release.reviews)
  {
    hide Filter, RunProblem;
    var runs := a.release.reviews;
    var ids := CountIds(runs);
    errors := 0;
    NoBadRuns(a);
    for i := 0 to |runs|
      invariant errors == Count(BadRunIn(a), runs[..i])
    {
      assert runs[..i + 1] == runs[..i] + [runs[i]];
      FilterAppend(BadRunIn(a), runs[..i], runs[i]);
      var problem := ReviewRunProblem(runs[i], KnownChecks(a.corpus), a.release.assessedAt);
      var times := if runs[i].runId in ids then ids[runs[i].runId] else 0;
      if times > 1 || problem != None { errors := errors + 1; }
    }
    assert runs[..|runs|] == runs;
  }

  lemma NoBadRuns(a: Assessed)
    ensures Count(BadRunIn(a), []) == 0
  {
  }

  /** The tallies the loop over the gates keeps. */
  datatype Tally = Tally(pre: nat, live: nat, preIncomplete: nat, liveIncomplete: nat, unexplained: nat, blockers: seq<Blocker>)

  function TallyOf(a: Assessed, checks: seq<Check>): Tally {
    Tally(Count(PreOutstandingIn(a), checks), Count(LiveOutstandingIn(a), checks), Count(PreIncompleteIn(a), checks),
          Count(LiveIncompleteIn(a), checks), Count(UnexplainedIn(a), checks), BlockersOf(a, Filter(BlocksIn(a), checks)))
  }

  method TallyGates(a: Assessed) returns (t: Tally)
    ensures t == TallyOf(a, a.corpus.checks)
  {
    hide Filter, BlockersOf, ReadReview, EffectiveState;
    var checks, release, at := a.corpus.checks, a.release, a.release.assessedAt;
    var cutoverAt := CutoverAt(release);
    t := Tally(0, 0, 0, 0, 0, []);
    NoTallies(a);
    for i := 0 to |checks|
      invariant t == TallyOf(a, checks[..i])
    {
      OneMoreGate(a, i);
      var check := checks[i];
      if !check.launchGate { continue; }
      var state := EffectiveState(StateOf(a.states, check), at);
      if state.applicability == No {
        if !Filled(state.rationale) { t := t.(unexplained := t.unexplained + 1); }
        continue;
      }
      if state.applicability != Yes { continue; }
      var live := EvidenceClassOf(check) == Live;
      var outstanding := state.status != Passed;
      var reading := Read(check, state, release.reviews, ContextOf(a.corpus, release), KnownChecks(a.corpus));
      var trouble := NoTrouble;
      if reading.state != Current {
        trouble := ReviewNotCurrent(reading.state);
      } else if live && (cutoverAt == None || TestMoment(reading) < cutoverAt.value) {
        trouble := LiveTestPredatesCutover;
      }
      if outstanding {
        if live { t := t.(live := t.live + 1); } else { t := t.(pre := t.pre + 1); }
      }
      if trouble != NoTrouble {
        if live { t := t.(liveIncomplete := t.liveIncomplete + 1); } else { t := t.(preIncomplete := t.preIncomplete + 1); }
      }
      if outstanding || trouble != NoTrouble {
        t := t.(blockers := t.blockers + [Blocker(check.id, EvidenceClassOf(check), outstanding, reading.state, trouble)]);
      }
    }
    assert checks[..|checks|] == checks;
  }

  lemma NoTallies(a: Assessed)
    ensures TallyOf(a, []) == Tally(0, 0, 0, 0, 0, [])
  {
  }

  method ComputeCutoverReadiness(a: Assessed) returns (r: CutoverReadiness)
    ensures r == Assess(a)
  {
    hide Filter, BlockersOf, CutoverRecordValid, Problems, Launch;
    var release := a.release;
    var launch := ComputeLaunchReadiness(a.corpus.checks, a.states, release.assessedAt);
    var inputErrors := CountBadRuns(a);
    var scopeProblems := ReleaseProblems(release);
    var t := TallyGates(a);
    var scopeErrors := |scopeProblems| + t.unexplained;
    var ready := inputErrors == 0 && scopeErrors == 0 && launch.applicabilityDecisionsOutstanding == 0
      && t.pre == 0 && t.preIncomplete == 0;
    var recordValid := CutoverRecordValid(release);
    var final := if ready && launch.gatesOutstanding == 0 && t.liveIncomplete == 0 && recordValid then GO else HOLD;
    r := CutoverReadiness(ready, final, inputErrors, t.pre, t.live, t.preIncomplete, t.liveIncomplete, recordValid,
                          scopeErrors, scopeProblems, launch, t.blockers, Stands(release.launchDecision, final));
  }

  // ---- The two assessments agree ----

  lemma BlockersSplit(a: Assessed)
    ensures Assess(a).blockers == [] <==>
      && Assess(a).preCutoverGatesOutstanding == 0 && Assess(a).liveGatesOutstanding == 0
      && Assess(a).preCutoverEvidenceIncomplete == 0 && Assess(a).liveEvidenceIncomplete == 0
  {
    hide TroubleOf, Outstanding, BlockerOf;
    var checks := a.corpus.checks;
    FilterAll(BlocksIn(a), checks);
    FilterAll(PreOutstandingIn(a), checks);
    FilterAll(LiveOutstandingIn(a), checks);
    FilterAll(PreIncompleteIn(a), checks);
    FilterAll(LiveIncompleteIn(a), checks);
    var pre, live, preInc, liveInc, blocks :=
      PreOutstandingIn(a), LiveOutstandingIn(a), PreIncompleteIn(a), LiveIncompleteIn(a), BlocksIn(a);
    forall check ensures blocks(check) <==> pre(check) || live(check) || preInc(check) || liveInc(check) {
      BlocksWhen(a, check);
    }
  }

  lemma BlocksWhen(a: Assessed, check: Check)
    ensures Blocks(a, check) <==>
      PreOutstanding(a, check) || LiveOutstanding(a, check) || PreIncomplete(a, check) || LiveIncomplete(a, check)
  {
    hide TroubleOf, Outstanding;
  }

  /**
   * What the two assessments have in common: the outstanding gates of the second are those of the first, split
   * by stage; a failed gate is an outstanding one; nothing blocks exactly when nothing is outstanding and no
   * evidence is incomplete; and a final GO is a GO of the first assessment too.
   */
  lemma AssessmentsAgree(a: Assessed)
    ensures
      var r := Assess(a);
      && r.preCutoverGatesOutstanding + r.liveGatesOutstanding == r.launch.gatesOutstanding
      && r.launch.gatesFailed <= r.launch.gatesOutstanding
      && (r.blockers == [] <==>
           r.preCutoverGatesOutstanding == 0 && r.liveGatesOutstanding == 0
           && r.preCutoverEvidenceIncomplete == 0 && r.liveEvidenceIncomplete == 0)
      && (r.final == GO ==> r.launch.decision == GO)
      && (r.final == GO ==> r.blockers == [])
      && (r.launchDecision == Conflict <==> a.release.launchDecision == Some(RecordedGO) && r.final == HOLD)
  {
    hide TroubleOf, Effective, BlockerOf, Problems, CutoverRecordValid;
    var checks, at := a.corpus.checks, a.release.assessedAt;
    CountSplits(OutstandingAt(a.states, at), PreOutstandingIn(a), LiveOutstandingIn(a), checks);
    CountWithin(FailedGateAt(a.states, at), OutstandingAt(a.states, at), checks);
    BlockersSplit(a);
  }

  // ---- A final GO is sound ----

  lemma CountZero(what: Check -> bool, checks: seq<Check>, check: Check)
    requires Count(what, checks) == 0 && check in checks
    ensures !what(check)
  {
    FilterAll(what, checks);
  }

  lemma NoProblems(release: Release)
    requires Problems(release) == []
    ensures Filled(release.releaseId) && Filled(release.scopeRevision) && IsOrigin(release.origin) && Filled(release.scopeApprover)
    ensures Filled(release.scopeApprovalEvidence) && Filled(release.decisionOwner)
    ensures Instant(release.assessedAt).Some? && !ApprovalTimeBad(release)
  {
    hide Filled, IsOrigin, ApprovalTimeBad, Instant;
    assert |Problems(release)| == 0;
  }

  /** The run a gate's evidence rests on, and when everything around it happened. */
  ghost predicate Evidenced(a: Assessed, check: Check, run: Run) {
    && run in a.release.reviews && Counts(run, check, ContextOf(a.corpus, a.release))
    && Instant(a.release.assessedAt).Some? && Instant(run.testedAt).Some? && Instant(run.reviewedAt).Some?
    && Newer(a, check, run)
    && RunProblem(run, KnownChecks(a.corpus), a.release.assessedAt) == None && run.outcome == Of(Passed)
    && EnvironmentFits(EvidenceClassOf(check), run.environment)
    && CitesEvidence(run, Effective(a.states, check, a.release.assessedAt))
    && (Instant(run.nextReviewAt).Some? ==> Instant(a.release.assessedAt).value <= Instant(run.nextReviewAt).value)
    && Instant(run.testedAt).value <= Instant(run.reviewedAt).value <= Instant(a.release.assessedAt).value
  }

  /** Tested after every other run of the check in the release's context. */
  ghost predicate Newer(a: Assessed, check: Check, run: Run)
    requires Instant(run.testedAt).Some?
  {
    forall other ::
      (other in a.release.reviews && other != run && Counts(other, check, ContextOf(a.corpus, a.release))
        && Instant(other.testedAt).Some?)
      ==> Instant(other.testedAt).value < Instant(run.testedAt).value
  }

  /** From one clean gate to the run behind it. */
  lemma CleanGate(a: Assessed, check: Check) returns (run: Run)
    requires InScope(a.states, a.release.assessedAt, check) && Instant(a.release.assessedAt).Some?
    requires TroubleOf(a.corpus, a.states, a.release, check) == NoTrouble
    ensures Evidenced(a, check, run) && multiset(a.release.reviews)[run] == 1
    ensures IsLive(check) ==> CutoverAt(a.release).Some? && CutoverAt(a.release).value <= Instant(run.testedAt).value
  {
    hide RunProblem, InContext, EnvironmentFits, CitesEvidence;
    var state := Effective(a.states, check, a.release.assessedAt);
    run := CurrentMeans(check, state, a.release.reviews, ContextOf(a.corpus, a.release), KnownChecks(a.corpus));
    SoundTimes(run, KnownChecks(a.corpus), a.release.assessedAt);
  }

  lemma SoundTimes(run: Run, known: set<string>, assessedAt: Stamp)
    requires RunProblem(run, known, assessedAt) == None
    ensures Instant(run.testedAt).Some? && Instant(run.reviewedAt).Some? && Instant(assessedAt).Some?
    ensures Instant(run.testedAt).value <= Instant(run.reviewedAt).value <= Instant(assessedAt).value
  {
    hide Filled;
  }

  /**
   * A final GO is sound. Every launch gate is out of scope with a reason or applicable, and every applicable one
   * is effectively passed and rests on one run, alone at the latest moment in the release's context, sound,
   * passed, current, in a fitting environment and citing the check's evidence; and where it can only be seen
   * live, the scope was approved, then cutover authorized, then made, then the gate tested, then reviewed, then
   * all of it assessed.
   */
  lemma FinalGoIsSound(a: Assessed, check: Check) returns (run: Run)
    requires Assess(a).final == GO && check in a.corpus.checks && check.launchGate
    ensures
      var state := Effective(a.states, check, a.release.assessedAt);
      && state.applicability != Undecided
      && (state.applicability == No ==> Filled(state.rationale))
      && (state.applicability == Yes ==>
           && state.status == Passed && Evidenced(a, check, run) && multiset(a.release.reviews)[run] == 1
           && (IsLive(check) ==>
                && a.release.cutover.Some? && Instant(a.release.scopeApprovedAt).Some?
                && Instant(a.release.cutover.value.authorizedAt).Some? && Instant(a.release.cutover.value.cutoverAt).Some?
                && Instant(a.release.scopeApprovedAt).value <= Instant(a.release.cutover.value.authorizedAt).value
                   <= Instant(a.release.cutover.value.cutoverAt).value <= Instant(run.testedAt).value
                   <= Instant(run.reviewedAt).value <= Instant(a.release.assessedAt).value))
  {
    hide TroubleOf, Filled, Evidenced, Bound, Filter, Launch, BlockersOf, Problems;
    var checks, at := a.corpus.checks, a.release.assessedAt;
    GoCounts(a);
    CountZero(UnresolvedAt(a.states, at), checks, check);
    CountZero(UnexplainedIn(a), checks, check);
    CountZero(OutstandingAt(a.states, at), checks, check);
    CountZero(PreIncompleteIn(a), checks, check);
    CountZero(LiveIncompleteIn(a), checks, check);
    NoProblems(a.release);
    if Effective(a.states, check, at).applicability == Yes {
      assert TroubleOf(a.corpus, a.states, a.release, check) == NoTrouble;
      run := CleanGate(a, check);
      EvidencedTimes(a, check, run);
    } else { run :| true; }
  }

  lemma EvidencedTimes(a: Assessed, check: Check, run: Run)
    requires Evidenced(a, check, run)
    ensures Instant(a.release.assessedAt).Some? && Instant(run.testedAt).Some? && Instant(run.reviewedAt).Some?
    ensures Instant(run.testedAt).value <= Instant(run.reviewedAt).value <= Instant(a.release.assessedAt).value
  {
  }

  lemma GoCounts(a: Assessed)
    requires Assess(a).final == GO
    ensures Count(UnresolvedAt(a.states, a.release.assessedAt), a.corpus.checks) == 0
    ensures Count(OutstandingAt(a.states, a.release.assessedAt), a.corpus.checks) == 0
    ensures Count(UnexplainedIn(a), a.corpus.checks) == 0 && Problems(a.release) == []
    ensures Count(PreIncompleteIn(a), a.corpus.checks) == 0 && Count(LiveIncompleteIn(a), a.corpus.checks) == 0
    ensures CutoverRecordValid(a.release)
  {
    hide Filter, Problems, CutoverRecordValid, BlockersOf;
    assert |Problems(a.release)| == 0;
  }
}
