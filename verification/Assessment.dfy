/** What the assessments read: checks, their states, and the moments and texts recorded about them. */
module Assessment {
  import opened Jobs

  // ---- Texts and moments ----

  predicate IsSpace(c: char) {
    c == ' ' || c == '\t' || c == '\n' || c == '\r' || c == '\U{0B}' || c == '\U{0C}' || c == '\U{A0}' || c == '\U{FEFF}'
    || c == '\U{1680}' || '\U{2000}' <= c <= '\U{200A}' || c == '\U{2028}' || c == '\U{2029}' || c == '\U{202F}'
    || c == '\U{205F}' || c == '\U{3000}'
  }

  function TrimStart(s: string): string {
    if s != "" && IsSpace(s[0]) then TrimStart(s[1..]) else s
  }

  function TrimEnd(s: string): string {
    if s != "" && IsSpace(s[|s| - 1]) then TrimEnd(s[..|s| - 1]) else s
  }

  function Trim(s: string): string {
    TrimEnd(TrimStart(s))
  }

  function Lower(s: string): string {
    seq(|s|, k requires 0 <= k < |s| => if 'A' <= s[k] <= 'Z' then (s[k] as int + 32) as char else s[k])
  }

  /** An answer a reader could act on: more than spaces, `TBD` or `n/a`. */
  predicate Filled(value: Option<string>) {
    value.Some? && var text := Lower(Trim(value.value)); text != "" && text != "tbd" && text != "n/a"
  }

  /** `https://host[:port]`, nothing after it. */
  predicate IsOrigin(value: Option<string>) {
    && Filled(value)
    && "https://" <= value.value && |value.value| > 8
    && forall k :: 8 <= k < |value.value| ==> !IsSpace(value.value[k]) && value.value[k] != '/'
  }

  /** A recorded moment: not there, there but empty or blank, there but no date, or a date. */
  datatype Stamp = Absent | Empty | Blank | NoDate | At(ms: int)

  /** `Date.parse`, where it gives a number. */
  function Parsed(s: Stamp): Option<int> {
    if s.At? then Some(s.ms) else None
  }

  /** Milliseconds since the epoch, for a positive instant. */
  function Instant(s: Stamp): Option<int> {
    if s.At? && s.ms > 0 then Some(s.ms) else None
  }

  // ---- What a text must say ----

  ghost predicate AllSpace(s: string) {
    forall k :: 0 <= k < |s| ==> IsSpace(s[k])
  }

  /** The text is this word, with nothing but spaces around it. */
  ghost predicate IsWord(s: string, word: string) {
    exists i, j :: 0 <= i <= j <= |s| && s[i..j] == word && AllSpace(s[..i]) && AllSpace(s[j..])
  }

  /** The same letters, in either case. */
  ghost predicate Spells(word: string, text: string) {
    && |word| == |text|
    && forall k :: 0 <= k < |text| ==> word[k] == text[k] || ('a' <= text[k] <= 'z' && word[k] as int == text[k] as int - 32)
  }

  lemma {:induction false} StartSkips(s: string, i: nat)
    requires i <= |s| && AllSpace(s[..i])
    ensures TrimStart(s) == TrimStart(s[i..])
    decreases i
  {
    if i == 0 { assert s[0..] == s; }
    else {
      assert IsSpace(s[..i][0]);
      assert s[1..][..i - 1] == s[..i][1..] && s[1..][i - 1..] == s[i..];
      StartSkips(s[1..], i - 1);
    }
  }

  lemma {:induction false} EndSkips(s: string, j: nat)
    requires j <= |s| && AllSpace(s[j..])
    ensures TrimEnd(s) == TrimEnd(s[..j])
    decreases |s|
  {
    if j == |s| { assert s[..j] == s; }
    else {
      var most := s[..|s| - 1];
      assert IsSpace(s[j..][|s| - 1 - j]);
      assert most[j..] == s[j..][..|s| - 1 - j] && most[..j] == s[..j];
      EndSkips(most, j);
    }
  }

  /** A word with no space at either end, or none at all, is what is left when the spaces around it go. */
  lemma TrimLeaves(s: string, word: string)
    requires IsWord(s, word) && (word == "" || (!IsSpace(word[0]) && !IsSpace(word[|word| - 1])))
    ensures Trim(s) == word
  {
    var i, j :| 0 <= i <= j <= |s| && s[i..j] == word && AllSpace(s[..i]) && AllSpace(s[j..]);
    StartSkips(s, i);
    if word == "" {
      assert s[i..] == s[j..];
      StartSkips(s[i..], |s| - i);
      assert s[i..][..|s| - i] == s[i..] && s[i..][|s| - i..] == "";
    } else {
      assert s[i..][0] == word[0] && TrimStart(s) == s[i..];
      assert s[i..][j - i..] == s[j..] && s[i..][..j - i] == word;
      EndSkips(s[i..], j - i);
    }
  }

  lemma {:induction false} StartLeaves(s: string) returns (i: nat)
    ensures i <= |s| && TrimStart(s) == s[i..] && AllSpace(s[..i])
  {
    if s != "" && IsSpace(s[0]) {
      var k := StartLeaves(s[1..]);
      i := k + 1;
      assert s[1..][k..] == s[i..] && s[..i] == [s[0]] + s[1..][..k];
    } else {
      i := 0;
    }
  }

  lemma {:induction false} EndLeaves(s: string) returns (j: nat)
    ensures j <= |s| && TrimEnd(s) == s[..j] && AllSpace(s[j..])
  {
    if s != "" && IsSpace(s[|s| - 1]) {
      var most := s[..|s| - 1];
      j := EndLeaves(most);
      assert most[..j] == s[..j] && s[j..] == most[j..] + [s[|s| - 1]];
    } else {
      j := |s|;
    }
  }

  lemma TrimIsWord(s: string)
    ensures IsWord(s, Trim(s))
  {
    var i := StartLeaves(s);
    var j := EndLeaves(s[i..]);
    assert s[i..][..j] == s[i..i + j] && s[i..][j..] == s[i + j..];
  }

  lemma LowerSpells(word: string, text: string)
    requires forall k :: 0 <= k < |text| ==> text[k] < 'A' || 'Z' < text[k]
    ensures Lower(word) == text <==> Spells(word, text)
  {
    if Spells(word, text) { assert Lower(word) == text; }
    if Lower(word) == text {
      forall k | 0 <= k < |text| ensures word[k] == text[k] || ('a' <= text[k] <= 'z' && word[k] as int == text[k] as int - 32) {
        assert Lower(word)[k] == text[k];
      }
    }
  }

  /** A text says something exactly when it is not spaces alone, and is neither `TBD` nor `n/a` with spaces around it, in any case. */
  lemma FilledMeans(value: Option<string>)
    ensures Filled(value) <==>
      value.Some? && forall word :: IsWord(value.value, word) ==> word != "" && !Spells(word, "tbd") && !Spells(word, "n/a")
  {
    hide Trim, Lower, IsWord, Spells, IsSpace;
    if value.Some? {
      TrimIsWord(value.value);
      LowerEmpty(Trim(value.value));
      LowerSpells(Trim(value.value), "tbd");
      LowerSpells(Trim(value.value), "n/a");
      forall word | IsWord(value.value, word) && (word == "" || Spells(word, "tbd") || Spells(word, "n/a"))
        ensures word == Trim(value.value) {
        SpelledEnds(word);
        TrimLeaves(value.value, word);
      }
    }
  }

  lemma LowerEmpty(word: string)
    ensures Lower(word) == "" <==> word == ""
  {
    assert |Lower(word)| == |word|;
  }

  lemma SpelledEnds(word: string)
    requires word == "" || Spells(word, "tbd") || Spells(word, "n/a")
    ensures word == "" || (!IsSpace(word[0]) && !IsSpace(word[|word| - 1]))
  {
  }

  /** An origin is `https://` and a host: at least one character, none of them a space or a slash. */
  lemma OriginMeans(value: Option<string>)
    ensures IsOrigin(value) <==>
      exists host: string :: value == Some("https://" + host) && host != "" && forall c :: c in host ==> !IsSpace(c) && c != '/'
  {
    if IsOrigin(value) {
      var host := value.value[8..];
      assert value.value == "https://" + host;
      assert forall c :: c in host ==> !IsSpace(c) && c != '/';
    }
    if exists host: string :: value == Some("https://" + host) && host != "" && forall c :: c in host ==> !IsSpace(c) && c != '/' {
      var host: string :| value == Some("https://" + host) && host != "" && forall c :: c in host ==> !IsSpace(c) && c != '/';
      OriginFilled(host);
      assert forall k :: 8 <= k < |value.value| ==> value.value[k] == host[k - 8] && host[k - 8] in host;
    }
  }

  lemma OriginFilled(host: string)
    requires host != "" && !IsSpace(host[|host| - 1])
    ensures Filled(Some("https://" + host))
  {
    var s := "https://" + host;
    assert s[0] == 'h' && s[|s| - 1] == host[|host| - 1];
    assert Trim(s) == s;
    assert |Lower(s)| == |s| > 8;
  }

  // ---- Checks and their states ----

  datatype Status = NotStarted | InProgress | Passed | Failed | Skipped
  datatype Applicability = Yes | No | Undecided
  datatype Coverage = Attested | OtherCoverage | UnknownCoverage

  datatype Check = Check(id: string, phase: int, launchGate: bool, universal: bool)

  datatype State = State(
    applicability: Applicability,
    rationale: Option<string>,
    status: Status,
    coverage: Coverage,
    attestationExpiresAt: Stamp,
    evidence: Option<string>,
    evidenceRef: Option<string>)

  type States = map<string, State>

  function StateOf(states: States, check: Check): State {
    if check.id in states then states[check.id]
    else State(if check.universal then Yes else Undecided, None, NotStarted, UnknownCoverage, Absent, None, None)
  }

  /** Attested, but no longer at this moment: the expiry has come, or was never recorded. */
  predicate AttestationLapsed(state: State, assessedAt: Stamp) {
    && state.coverage == Attested
    && Parsed(assessedAt).Some?
    && (Parsed(state.attestationExpiresAt) == None || Parsed(state.attestationExpiresAt).value <= Parsed(assessedAt).value)
  }

  /** The state as an assessment reads it: a lapsed attestation no longer passes anything. */
  function EffectiveState(state: State, assessedAt: Stamp): State {
    if !AttestationLapsed(state, assessedAt) then state
    else state.(status := if state.status == Passed then InProgress else state.status, coverage := UnknownCoverage)
  }

  function Effective(states: States, check: Check, assessedAt: Stamp): State {
    EffectiveState(StateOf(states, check), assessedAt)
  }

  /** An applicable launch gate, as the assessment reads it. */
  predicate InScope(states: States, assessedAt: Stamp, check: Check) {
    check.launchGate && Effective(states, check, assessedAt).applicability == Yes
  }

  // ---- Counting and choosing ----

  function Filter<T(!new)>(keep: T -> bool, s: seq<T>): (r: seq<T>)
    ensures |r| <= |s|
    ensures forall x :: x in r <==> x in s && keep(x)
  {
    if s == [] then []
    else if keep(s[0]) then [s[0]] + Filter(keep, s[1..])
    else Filter(keep, s[1..])
  }

  function Count<T(!new)>(what: T -> bool, s: seq<T>): nat {
    |Filter(what, s)|
  }

  lemma {:induction false} FilterAppend<T(!new)>(keep: T -> bool, s: seq<T>, x: T)
    ensures Filter(keep, s + [x]) == Filter(keep, s) + if keep(x) then [x] else []
  {
    if s == [] {
      assert s + [x] == [x];
    } else {
      assert (s + [x])[1..] == s[1..] + [x];
      FilterAppend(keep, s[1..], x);
    }
  }

  lemma {:induction false} FilterAll<T(!new)>(keep: T -> bool, s: seq<T>)
    ensures Filter(keep, s) == [] <==> forall x :: x in s ==> !keep(x)
  {
    if s != [] { FilterAll(keep, s[1..]); }
  }

  /** What is chosen, and how often, depends on what is there, and how often: not on the order. */
  lemma {:induction false} FilterCounts<T(!new)>(keep: T -> bool, s: seq<T>, x: T)
    ensures multiset(Filter(keep, s))[x] == if keep(x) then multiset(s)[x] else 0
  {
    if s != [] {
      FilterCounts(keep, s[1..], x);
      assert s == [s[0]] + s[1..];
    }
  }

  lemma {:induction false} CountSplits<T(!new)>(a: T -> bool, b: T -> bool, c: T -> bool, s: seq<T>)
    requires forall x :: x in s ==> (a(x) <==> b(x) || c(x)) && !(b(x) && c(x))
    ensures Count(a, s) == Count(b, s) + Count(c, s)
  {
    if s != [] {
      assert s[0] in s;
      CountSplits(a, b, c, s[1..]);
    }
  }

  lemma {:induction false} CountWithin<T(!new)>(a: T -> bool, b: T -> bool, s: seq<T>)
    requires forall x :: x in s && a(x) ==> b(x)
    ensures Count(a, s) <= Count(b, s)
  {
    if s != [] {
      assert s[0] in s;
      CountWithin(a, b, s[1..]);
    }
  }
}

/** The first assessment: are the applicable launch gates passed, and every conditional one decided? */
module Readiness {
  import opened Jobs
  import opened Assessment

  datatype Decision = GO | HOLD
  datatype Kind = SkippedApplicableGate | ExcludedWithoutRationale
  datatype Violation = Violation(checkId: string, kind: Kind)

  datatype LaunchReadiness = LaunchReadiness(
    decision: Decision,
    gatesOutstanding: nat,
    gatesFailed: nat,
    applicabilityDecisionsOutstanding: nat,
    attestationsLapsed: nat,
    violations: seq<Violation>)

  predicate Outstanding(states: States, at: Stamp, check: Check) {
    InScope(states, at, check) && Effective(states, check, at).status != Passed
  }

  predicate FailedGate(states: States, at: Stamp, check: Check) {
    InScope(states, at, check) && Effective(states, check, at).status == Status.Failed
  }

  predicate Unresolved(states: States, at: Stamp, check: Check) {
    check.launchGate && Effective(states, check, at).applicability == Undecided
  }

  predicate Lapsed(states: States, at: Stamp, check: Check) {
    Outstanding(states, at, check) && StateOf(states, check).status == Passed
  }

  function OutstandingAt(states: States, at: Stamp): Check -> bool { check => Outstanding(states, at, check) }
  function FailedGateAt(states: States, at: Stamp): Check -> bool { check => FailedGate(states, at, check) }
  function UnresolvedAt(states: States, at: Stamp): Check -> bool { check => Unresolved(states, at, check) }
  function LapsedAt(states: States, at: Stamp): Check -> bool { check => Lapsed(states, at, check) }

  /** What is wrong with how one check was recorded. */
  function ViolationsOf(states: States, at: Stamp, check: Check): seq<Violation> {
    var state := Effective(states, check, at);
    (if state.applicability == No && (state.rationale == None || state.rationale == Some(""))
     then [Violation(check.id, ExcludedWithoutRationale)] else [])
    + (if InScope(states, at, check) && state.status == Skipped then [Violation(check.id, SkippedApplicableGate)] else [])
  }

  function AllViolations(states: States, at: Stamp, checks: seq<Check>): seq<Violation> {
    if checks == [] then []
    else AllViolations(states, at, checks[..|checks| - 1]) + ViolationsOf(states, at, checks[|checks| - 1])
  }

  function Launch(checks: seq<Check>, states: States, at: Stamp): LaunchReadiness {
    var outstanding := Count(OutstandingAt(states, at), checks);
    var failed := Count(FailedGateAt(states, at), checks);
    var unresolved := Count(UnresolvedAt(states, at), checks);
    LaunchReadiness(if outstanding == 0 && failed == 0 && unresolved == 0 then GO else HOLD,
                    outstanding, failed, unresolved, Count(LapsedAt(states, at), checks),
                    AllViolations(states, at, checks))
  }

  method ComputeLaunchReadiness(checks: seq<Check>, states: States, at: Stamp) returns (r: LaunchReadiness)
    ensures r == Launch(checks, states, at)
  {
    hide Filter, InScope, Effective, AllViolations;
    var outstanding, failed, unresolved, lapsed := 0, 0, 0, 0;
    var violations: seq<Violation> := [];
    Nothing(states, at);
    for i := 0 to |checks|
      invariant outstanding == Count(OutstandingAt(states, at), checks[..i])
      invariant failed == Count(FailedGateAt(states, at), checks[..i])
      invariant unresolved == Count(UnresolvedAt(states, at), checks[..i])
      invariant lapsed == Count(LapsedAt(states, at), checks[..i])
      invariant violations == AllViolations(states, at, checks[..i])
    {
      var check := checks[i];
      OneMore(states, at, checks, i);
      var recorded := StateOf(states, check);
      var state := EffectiveState(recorded, at);
      Reads(states, at, check);
      if state.applicability == No && (state.rationale == None || state.rationale == Some("")) {
        violations := violations + [Violation(check.id, ExcludedWithoutRationale)];
      }
      if !check.launchGate { continue; }
      if state.applicability == Undecided {
        unresolved := unresolved + 1;
        continue;
      }
      if state.applicability == No { continue; }
      if state.status == Status.Failed { failed := failed + 1; }
      if state.status == Skipped { violations := violations + [Violation(check.id, SkippedApplicableGate)]; }
      if state.status != Passed { outstanding := outstanding + 1; }
      if recorded.status == Passed && state.status != Passed { lapsed := lapsed + 1; }
    }
    assert checks[..|checks|] == checks;
    var decision := if outstanding == 0 && failed == 0 && unresolved == 0 then GO else HOLD;
    r := LaunchReadiness(decision, outstanding, failed, unresolved, lapsed, violations);
  }

  lemma Nothing(states: States, at: Stamp)
    ensures forall what: Check -> bool :: Count(what, []) == 0
    ensures AllViolations(states, at, []) == []
  {
  }

  lemma Reads(states: States, at: Stamp, check: Check)
    ensures Effective(states, check, at) == EffectiveState(StateOf(states, check), at)
    ensures InScope(states, at, check) <==> check.launchGate && EffectiveState(StateOf(states, check), at).applicability == Yes
  {
  }

  lemma OneMore(states: States, at: Stamp, checks: seq<Check>, i: nat)
    requires i < |checks|
    ensures
      var before, after, check := checks[..i], checks[..i + 1], checks[i];
      && Count(OutstandingAt(states, at), after)
         == Count(OutstandingAt(states, at), before) + (if Outstanding(states, at, check) then 1 else 0)
      && Count(FailedGateAt(states, at), after)
         == Count(FailedGateAt(states, at), before) + (if FailedGate(states, at, check) then 1 else 0)
      && Count(UnresolvedAt(states, at), after)
         == Count(UnresolvedAt(states, at), before) + (if Unresolved(states, at, check) then 1 else 0)
      && Count(LapsedAt(states, at), after)
         == Count(LapsedAt(states, at), before) + (if Lapsed(states, at, check) then 1 else 0)
      && AllViolations(states, at, after) == AllViolations(states, at, before) + ViolationsOf(states, at, check)
  {
    assert checks[..i + 1] == checks[..i] + [checks[i]];
    assert checks[..i + 1][..i] == checks[..i];
    FilterAppend(OutstandingAt(states, at), checks[..i], checks[i]);
    FilterAppend(FailedGateAt(states, at), checks[..i], checks[i]);
    FilterAppend(UnresolvedAt(states, at), checks[..i], checks[i]);
    FilterAppend(LapsedAt(states, at), checks[..i], checks[i]);
  }

  /** The attestation behind a recorded state still holds at this moment, or it rests on none. */
  predicate StillGood(recorded: State, at: Stamp) {
    recorded.coverage == Attested && at.At? ==> recorded.attestationExpiresAt.At? && at.ms < recorded.attestationExpiresAt.ms
  }

  /** A launch gate that holds nothing up: excluded by decision, or passed and still good for it. */
  predicate Settled(states: States, at: Stamp, check: Check) {
    check.id in states &&
    var recorded := states[check.id];
    || recorded.applicability == No
    || (recorded.applicability == Yes && recorded.status == Passed && StillGood(recorded, at))
  }

  predicate RecordedPassed(states: States, check: Check) {
    check.launchGate && check.id in states && states[check.id].applicability == Yes && states[check.id].status == Passed
  }

  /**
   * What each count takes in, by what is recorded of a launch gate. One with nothing recorded is in scope and
   * not passed if it is universal, and undecided otherwise.
   */
  lemma GatesMean(states: States, at: Stamp, check: Check)
    requires check.launchGate
    ensures Outstanding(states, at, check) <==>
      if check.id in states
      then states[check.id].applicability == Yes && !(states[check.id].status == Passed && StillGood(states[check.id], at))
      else check.universal
    ensures Unresolved(states, at, check) <==>
      if check.id in states then states[check.id].applicability == Undecided else !check.universal
    ensures FailedGate(states, at, check) <==>
      check.id in states && states[check.id].applicability == Yes && states[check.id].status == Status.Failed
    ensures Lapsed(states, at, check) <==> RecordedPassed(states, check) && !StillGood(states[check.id], at)
  {
    StandsMeans(StateOf(states, check), at);
    hide AttestationLapsed, StillGood;
  }

  lemma StandsMeans(recorded: State, at: Stamp)
    ensures AttestationLapsed(recorded, at) <==> !StillGood(recorded, at)
  {
  }

  /**
   * The decision is GO exactly when every launch gate is decided and every applicable one is recorded passed
   * on an attestation that has not run out. An outstanding gate that had passed is one whose attestation lapsed.
   */
  lemma GoExactly(checks: seq<Check>, states: States, at: Stamp)
    ensures Launch(checks, states, at).decision == GO <==>
      forall check :: check in checks && check.launchGate ==> Settled(states, at, check)
    ensures Launch(checks, states, at).attestationsLapsed == 0 <==>
      forall check :: check in checks && RecordedPassed(states, check) ==> StillGood(states[check.id], at)
  {
    hide StillGood, StateOf, Settled, Outstanding, FailedGate, Unresolved, Lapsed, AllViolations, Filter;
    FilterAll(OutstandingAt(states, at), checks);
    FilterAll(FailedGateAt(states, at), checks);
    FilterAll(UnresolvedAt(states, at), checks);
    FilterAll(LapsedAt(states, at), checks);
    assert Launch(checks, states, at).attestationsLapsed == 0 <==> Filter(LapsedAt(states, at), checks) == [];
    forall check | check in checks
      ensures !check.launchGate || Settled(states, at, check) <==>
        !Outstanding(states, at, check) && !FailedGate(states, at, check) && !Unresolved(states, at, check)
      ensures Lapsed(states, at, check) <==> RecordedPassed(states, check) && !StillGood(states[check.id], at)
    {
      GateReads(states, at, check);
    }
  }

  lemma GateReads(states: States, at: Stamp, check: Check)
    ensures !check.launchGate || Settled(states, at, check) <==>
      !Outstanding(states, at, check) && !FailedGate(states, at, check) && !Unresolved(states, at, check)
    ensures Lapsed(states, at, check) <==> RecordedPassed(states, check) && !StillGood(states[check.id], at)
  {
    hide StillGood, StateOf;
    if check.launchGate { GatesMean(states, at, check); }
  }

  /** What a violation says of the check it names: left out with no reason given, or skipped though in scope. */
  predicate Earns(states: States, at: Stamp, check: Check, v: Violation) {
    check.id in states &&
    var recorded := states[check.id];
    && v.checkId == check.id
    && if v.kind == ExcludedWithoutRationale
       then recorded.applicability == No && (recorded.rationale == None || recorded.rationale == Some(""))
       else check.launchGate && recorded.applicability == Yes && recorded.status == Skipped
  }

  lemma EarnedHere(states: States, at: Stamp, check: Check, v: Violation)
    ensures v in ViolationsOf(states, at, check) <==> Earns(states, at, check, v)
  {
    hide AttestationLapsed;
  }

  /** A violation is listed exactly when some check earns it. */
  lemma {:induction false} ViolationsMean(checks: seq<Check>, states: States, at: Stamp, v: Violation)
    ensures v in AllViolations(states, at, checks) <==> exists check :: check in checks && Earns(states, at, check, v)
  {
    hide ViolationsOf, Earns;
    if checks != [] {
      var front, last := checks[..|checks| - 1], checks[|checks| - 1];
      ViolationsMean(front, states, at, v);
      EarnedHere(states, at, last, v);
      assert checks == front + [last];
      assert forall check :: check in checks <==> check in front || check == last;
    }
  }
}
