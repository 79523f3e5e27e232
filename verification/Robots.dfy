/** robots.txt: which group speaks for an agent, and which of its rules decides a path. */
module Robots {
  import opened Jobs

  datatype Rule = Rule(allow: bool, path: string)
  datatype Group = Group(agents: seq<string>, rules: seq<Rule>, crawlDelay: Option<real>)

  // ---- Path patterns ----

  /** `*` stands for any run of characters; an anchored pattern must use up the whole path. */
  predicate Fits(pattern: string, path: string, anchored: bool)
    decreases |pattern| + |path|
  {
    if pattern == "" then !anchored || path == ""
    else if pattern[0] == '*' then
      Fits(pattern[1..], path, anchored) || (path != "" && Fits(pattern, path[1..], anchored))
    else
      path != "" && path[0] == pattern[0] && Fits(pattern[1..], path[1..], anchored)
  }

  predicate Matches(pattern: string, path: string) {
    if pattern != "" && pattern[|pattern| - 1] == '$' then Fits(pattern[..|pattern| - 1], path, true)
    else Fits(pattern, path, false)
  }

  /** The literal parts of a pattern laid along a path, in order, with gaps between them but none before the first. */
  ghost predicate LaidOut(parts: seq<string>, path: string, anchored: bool)
    decreases |parts|
  {
    && parts != [] && parts[0] <= path
    && var rest := path[|parts[0]|..];
       if |parts| == 1 then !anchored || rest == ""
       else exists k :: 0 <= k <= |rest| && LaidOut(parts[1..], rest[k..], anchored)
  }

  /** `split('*')`. */
  function Split(pattern: string): (parts: seq<string>)
    ensures parts != []
  {
    if pattern == "" then [""]
    else
      var rest := Split(pattern[1..]);
      if pattern[0] == '*' then [""] + rest else [[pattern[0]] + rest[0]] + rest[1..]
  }

  /** A pattern fits a path exactly when its parts can be laid along it, the first at the start. */
  lemma {:induction false} FitsMeansLaidOut(pattern: string, path: string, anchored: bool)
    ensures Fits(pattern, path, anchored) <==> LaidOut(Split(pattern), path, anchored)
    decreases |pattern| + |path|
  {
    var parts := Split(pattern);
    if pattern == "" {
      assert path[0..] == path;
    } else if pattern[0] == '*' {
      var rest := Split(pattern[1..]);
      assert parts == [""] + rest && parts[1..] == rest;
      assert path[|parts[0]|..] == path;
      FitsMeansLaidOut(pattern[1..], path, anchored);
      assert path[0..] == path;
      if path != "" {
        FitsMeansLaidOut(pattern, path[1..], anchored);
        GapShifts(rest, path, anchored);
      } else {
        assert forall k :: 0 <= k <= |path| ==> path[k..] == path;
      }
    } else {
      var rest := Split(pattern[1..]);
      assert parts == [[pattern[0]] + rest[0]] + rest[1..];
      assert parts[0] == [pattern[0]] + rest[0] && parts[1..] == rest[1..];
      if path != "" && path[0] == pattern[0] {
        FitsMeansLaidOut(pattern[1..], path[1..], anchored);
        FirstPart(pattern[0], rest, path, anchored);
      }
    }
  }

  /** A gap before the rest is a gap of nothing, or a gap that takes at least one character. */
  lemma GapShifts(rest: seq<string>, path: string, anchored: bool)
    requires rest != [] && path != ""
    ensures LaidOut([""] + rest, path, anchored) <==> LaidOut(rest, path, anchored) || LaidOut([""] + rest, path[1..], anchored)
  {
    var parts := [""] + rest;
    assert parts[1..] == rest;
    assert path[0..] == path && path[1..][0..] == path[1..];
    if LaidOut(parts, path, anchored) {
      var k :| 0 <= k <= |path| && LaidOut(rest, path[k..], anchored);
      if k > 0 { assert path[1..][k - 1..] == path[k..]; }
    }
    if LaidOut(parts, path[1..], anchored) {
      var k :| 0 <= k <= |path[1..]| && LaidOut(rest, path[1..][k..], anchored);
      assert path[1..][k..] == path[k + 1..];
    }
  }

  lemma FirstPart(c: char, rest: seq<string>, path: string, anchored: bool)
    requires rest != [] && path != "" && path[0] == c
    ensures LaidOut([[c] + rest[0]] + rest[1..], path, anchored) <==> LaidOut(rest, path[1..], anchored)
  {
    var first := [c] + rest[0];
    var parts := [first] + rest[1..];
    assert parts[1..] == rest[1..];
    assert first <= path <==> rest[0] <= path[1..] by {
      if rest[0] <= path[1..] { assert path == [c] + path[1..]; }
      if first <= path { assert path[1..][..|rest[0]|] == first[1..]; }
    }
    if first <= path { assert path[|first|..] == path[1..][|rest[0]|..]; }
  }

  /** `join('*')`. */
  function Join(parts: seq<string>): string {
    if parts == [] then "" else if |parts| == 1 then parts[0] else parts[0] + "*" + Join(parts[1..])
  }

  /** The parts of a pattern are its text between stars: none holds a star, and with the stars put back they are the pattern. */
  lemma {:induction false} PartsMakeUpPattern(pattern: string)
    ensures Join(Split(pattern)) == pattern
    ensures forall k :: 0 <= k < |Split(pattern)| ==> '*' !in Split(pattern)[k]
  {
    var parts := Split(pattern);
    if pattern != "" {
      PartsMakeUpPattern(pattern[1..]);
      var rest := Split(pattern[1..]);
      if pattern[0] == '*' { assert parts[1..] == rest; }
      else {
        assert parts[1..] == rest[1..];
        assert Join(parts) == [pattern[0]] + Join(rest);
      }
    }
  }

  lemma LaidFrom(parts: seq<string>, path: string, at: nat, anchored: bool)
    requires |parts| > 1 && parts[0] <= path && |parts[0]| <= at <= |path| && LaidOut(parts[1..], path[at..], anchored)
    ensures LaidOut(parts, path, anchored)
  {
    var rest := path[|parts[0]|..];
    assert rest[at - |parts[0]|..] == path[at..];
  }

  lemma LaidOn(parts: seq<string>, path: string, anchored: bool) returns (at: nat)
    requires |parts| > 1 && LaidOut(parts, path, anchored)
    ensures parts[0] <= path && |parts[0]| <= at <= |path| && LaidOut(parts[1..], path[at..], anchored)
  {
    var rest := path[|parts[0]|..];
    var k :| 0 <= k <= |rest| && LaidOut(parts[1..], rest[k..], anchored);
    at := |parts[0]| + k;
    assert rest[k..] == path[at..];
  }

  /** Parts that lie along a path with something left over lie along the whole of some beginning of it. */
  lemma {:induction false} BeginningFound(parts: seq<string>, path: string) returns (n: nat)
    requires LaidOut(parts, path, false)
    ensures n <= |path| && LaidOut(parts, path[..n], true)
    decreases |parts|
  {
    if |parts| == 1 {
      n := |parts[0]|;
      assert path[..n] == parts[0] && parts[0][n..] == "";
    } else {
      hide LaidOut;
      var at := LaidOn(parts, path, false);
      var m := BeginningFound(parts[1..], path[at..]);
      n := at + m;
      assert path[..n][at..] == path[at..][..m];
      assert parts[0] <= path[..n] by { assert path[..n][..|parts[0]|] == path[..|parts[0]|]; }
      LaidFrom(parts, path[..n], at, true);
    }
  }

  lemma {:induction false} LeftOver(parts: seq<string>, path: string, n: nat)
    requires n <= |path| && LaidOut(parts, path[..n], true)
    ensures LaidOut(parts, path, false)
    decreases |parts|
  {
    if |parts| == 1 {
      assert parts[0] <= path by { assert path[..|parts[0]|] == path[..n][..|parts[0]|]; }
    } else {
      hide LaidOut;
      var at := LaidOn(parts, path[..n], true);
      assert path[..n][at..] == path[at..][..n - at];
      LeftOver(parts[1..], path[at..], n - at);
      assert parts[0] <= path by { assert path[..|parts[0]|] == path[..n][..|parts[0]|]; }
      LaidFrom(parts, path, at, false);
    }
  }

  /**
   * What a rule's path says, by its text alone: the parts between its stars lie along the path in order, the first
   * at the start. Ended by `$`, what stands before that must reach the path's end; any other, some beginning of it.
   */
  ghost predicate Meets(pattern: string, path: string) {
    if pattern != "" && pattern[|pattern| - 1] == '$' then LaidOut(Split(pattern[..|pattern| - 1]), path, true)
    else exists n :: 0 <= n <= |path| && LaidOut(Split(pattern), path[..n], true)
  }

  lemma MatchesMeans(pattern: string, path: string)
    ensures Matches(pattern, path) <==> Meets(pattern, path)
  {
    hide Fits, LaidOut, Split;
    if pattern != "" && pattern[|pattern| - 1] == '$' { FitsMeansLaidOut(pattern[..|pattern| - 1], path, true); }
    else {
      FitsMeansLaidOut(pattern, path, false);
      if LaidOut(Split(pattern), path, false) { var n := BeginningFound(Split(pattern), path); }
      forall n | 0 <= n <= |path| && LaidOut(Split(pattern), path[..n], true) ensures LaidOut(Split(pattern), path, false) {
        LeftOver(Split(pattern), path, n);
      }
    }
  }

  // ---- Which rule decides ----

  /** A matching rule than which no matching rule is longer. */
  ghost predicate Longest(rules: seq<Rule>, path: string, k: int) {
    && 0 <= k < |rules| && Meets(rules[k].path, path)
    && forall j :: 0 <= j < |rules| && Meets(rules[j].path, path) ==> |rules[j].path| <= |rules[k].path|
  }

  /** What section 2.2.2 of RFC 9309 allows: no rule matches, or one of the longest that match is an Allow. */
  ghost predicate Permitted(rules: seq<Rule>, path: string) {
    || (forall k :: 0 <= k < |rules| ==> !Meets(rules[k].path, path))
    || exists k :: Longest(rules, path, k) && rules[k].allow
  }

  method IsAllowed(rules: seq<Rule>, path: string) returns (decision: bool)
    ensures decision <==> Permitted(rules, path)
  {
    hide Matches, Meets;
    decision := true;
    var winning := -1;
    ghost var winner := -1;
    for i := 0 to |rules|
      invariant winning == -1 <==> winner == -1
      invariant winning == -1 ==> decision && forall k :: 0 <= k < i ==> !Meets(rules[k].path, path)
      invariant winning != -1 ==>
        && 0 <= winner < i && Meets(rules[winner].path, path)
        && winning == |rules[winner].path| && decision == rules[winner].allow
        && (forall k :: 0 <= k < i && Meets(rules[k].path, path) ==> |rules[k].path| <= winning)
        && (forall k :: 0 <= k < i && Meets(rules[k].path, path) && |rules[k].path| == winning && rules[k].allow ==> decision)
    {
      var rule := rules[i];
      MatchesMeans(rule.path, path);
      if !Matches(rule.path, path) { continue; }
      if |rule.path| > winning || (|rule.path| == winning && rule.allow) {
        decision := rule.allow;
        winning := |rule.path|;
        winner := i;
      }
    }
    if winning != -1 {
      assert Longest(rules, path, winner);
      assert forall k :: Longest(rules, path, k) ==> |rules[k].path| == winning;
    }
  }

  /** The decision does not depend on the order the rules are written in. */
  lemma OrderDoesNotMatter(rules: seq<Rule>, others: seq<Rule>, path: string)
    requires forall rule :: rule in rules <==> rule in others
    ensures Permitted(rules, path) ==> Permitted(others, path)
  {
    hide Meets;
    if exists k :: Longest(rules, path, k) && rules[k].allow {
      var k :| Longest(rules, path, k) && rules[k].allow;
      assert rules[k] in rules;
      var j :| 0 <= j < |others| && others[j] == rules[k];
      forall i | 0 <= i < |others| && Meets(others[i].path, path) ensures |others[i].path| <= |others[j].path| {
        assert others[i] in others;
        var m :| 0 <= m < |rules| && rules[m] == others[i];
      }
      assert Longest(others, path, j);
    } else if Permitted(rules, path) {
      forall i | 0 <= i < |others| ensures !Meets(others[i].path, path) {
        assert others[i] in others;
        var m :| 0 <= m < |rules| && rules[m] == others[i];
      }
    }
  }

  // ---- Which group speaks ----

  /** `includes`. */
  predicate Within(needle: string, hay: string) {
    exists k :: 0 <= k <= |hay| && needle <= hay[k..]
  }

  ghost predicate Inside(needle: string, hay: string) {
    exists before: string, after: string :: hay == before + needle + after
  }

  lemma WithinMeans(needle: string, hay: string)
    ensures Within(needle, hay) <==> Inside(needle, hay)
  {
    if Within(needle, hay) {
      var k :| 0 <= k <= |hay| && needle <= hay[k..];
      assert hay == hay[..k] + needle + hay[k..][|needle|..];
    }
    if Inside(needle, hay) {
      var before: string, after: string :| hay == before + needle + after;
      assert hay[|before|..] == needle + after;
    }
  }

  /** An agent line of some group that names this agent: its token stands somewhere inside the agent. */
  ghost predicate Names(groups: seq<Group>, agent: string, g: nat, a: nat) {
    && g < |groups| && a < |groups[g].agents| && groups[g].agents[a] != "*"
    && Inside(groups[g].agents[a], agent)
  }

  /** One agent line stands before another. */
  predicate Before(g: nat, a: nat, h: nat, b: nat) {
    g < h || (g == h && a < b)
  }

  /** The first of the longest agent lines that name this agent. */
  ghost predicate MostSpecific(groups: seq<Group>, agent: string, g: nat, a: nat) {
    && Names(groups, agent, g, a)
    && forall h: nat, b: nat :: Names(groups, agent, h, b) ==>
         || |groups[h].agents[b]| < |groups[g].agents[a]|
         || (|groups[h].agents[b]| == |groups[g].agents[a]| && !Before(h, b, g, a))
  }

  ghost predicate FirstStar(groups: seq<Group>, g: nat) {
    && g < |groups| && "*" in groups[g].agents && forall h :: 0 <= h < g ==> "*" !in groups[h].agents
  }

  /** What has been found after reading every line before line `a` of group `g`. */
  ghost predicate Found(groups: seq<Group>, agent: string, g: nat, a: nat, best: int, line: int, length: int) {
    var ok :=
      if best == -1 then length == -1 && forall h: nat, b: nat :: Before(h, b, g, a) ==> !Names(groups, agent, h, b)
      else
        && best >= 0 && line >= 0 && Before(best, line, g, a) && Names(groups, agent, best, line)
        && length == |groups[best].agents[line]|
        && forall h: nat, b: nat :: Before(h, b, g, a) && Names(groups, agent, h, b) ==>
             || |groups[h].agents[b]| < length
             || (|groups[h].agents[b]| == length && !Before(h, b, best, line));
    ok
  }

  lemma FoundNext(groups: seq<Group>, agent: string, g: nat, a: nat, best: int, line: int, length: int)
    requires Found(groups, agent, g, a, best, line, length) && g < |groups| && a < |groups[g].agents|
    ensures
      if Names(groups, agent, g, a) && |groups[g].agents[a]| > length
      then Found(groups, agent, g, a + 1, g, a, |groups[g].agents[a]|)
      else Found(groups, agent, g, a + 1, best, line, length)
  {
  }

  lemma NamesMeans(groups: seq<Group>, agent: string, g: nat, a: nat)
    requires g < |groups| && a < |groups[g].agents|
    ensures Names(groups, agent, g, a) <==> groups[g].agents[a] != "*" && Within(groups[g].agents[a], agent)
  {
    hide Within, Inside;
    WithinMeans(groups[g].agents[a], agent);
  }

  lemma StarHere(groups: seq<Group>, g: nat, a: nat)
    requires g < |groups| && a < |groups[g].agents| && groups[g].agents[a] == "*"
    requires forall h :: 0 <= h < g ==> "*" !in groups[h].agents
    ensures FirstStar(groups, g)
  {
  }

  lemma NothingFound(groups: seq<Group>, agent: string)
    ensures Found(groups, agent, 0, 0, -1, -1, -1)
  {
  }

  lemma FoundInGroup(groups: seq<Group>, agent: string, g: nat, best: int, line: int, length: int)
    requires g < |groups| && Found(groups, agent, g, |groups[g].agents|, best, line, length)
    ensures Found(groups, agent, g + 1, 0, best, line, length)
  {
  }

  lemma FoundInAll(groups: seq<Group>, agent: string, best: int, line: int, length: int)
    requires Found(groups, agent, |groups|, 0, best, line, length)
    ensures best >= 0 ==> line >= 0 && MostSpecific(groups, agent, best, line)
    ensures best == -1 ==> forall g: nat, a: nat :: !Names(groups, agent, g, a)
  {
  }

  /** The group for an agent, as an index: its most specific mention, else the first group for everyone; -1 for none. */
  method GroupFor(groups: seq<Group>, agent: string) returns (chosen: int)
    ensures -1 <= chosen < |groups|
    ensures chosen == -1 <==>
      (forall g: nat, a: nat :: !Names(groups, agent, g, a)) && (forall g :: 0 <= g < |groups| ==> "*" !in groups[g].agents)
    ensures chosen >= 0 ==>
      || (exists a: nat :: MostSpecific(groups, agent, chosen, a))
      || ((forall g: nat, a: nat :: !Names(groups, agent, g, a)) && FirstStar(groups, chosen))
  {
    hide Found, Names, Within;
    var best, bestLength, wildcard := -1, -1, -1;
    ghost var line := -1;
    NothingFound(groups, agent);
    for g := 0 to |groups|
      invariant -1 <= best < |groups| && Found(groups, agent, g, 0, best, line, bestLength)
      invariant wildcard == -1 ==> forall h :: 0 <= h < g ==> "*" !in groups[h].agents
      invariant -1 <= wildcard < g && (wildcard >= 0 ==> FirstStar(groups, wildcard))
    {
      for a := 0 to |groups[g].agents|
        invariant -1 <= best < |groups| && Found(groups, agent, g, a, best, line, bestLength)
        invariant wildcard == -1 ==> forall h :: 0 <= h < g ==> "*" !in groups[h].agents
        invariant wildcard == -1 ==> "*" !in groups[g].agents[..a]
        invariant -1 <= wildcard <= g && (wildcard >= 0 ==> FirstStar(groups, wildcard))
      {
        var candidate := groups[g].agents[a];
        FoundNext(groups, agent, g, a, best, line, bestLength);
        NamesMeans(groups, agent, g, a);
        if candidate == "*" {
          if wildcard == -1 {
            wildcard := g;
            assert FirstStar(groups, g) by { StarHere(groups, g, a); }
          }
          continue;
        }
        if Within(candidate, agent) && |candidate| > bestLength {
          best, bestLength, line := g, |candidate|, a;
        }
      }
      assert groups[g].agents[..|groups[g].agents|] == groups[g].agents;
      FoundInGroup(groups, agent, g, best, line, bestLength);
    }
    FoundInAll(groups, agent, best, line, bestLength);
    if best >= 0 {
      chosen := best;
    } else {
      chosen := wildcard;
    }
  }
}
