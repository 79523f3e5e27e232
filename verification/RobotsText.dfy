/** robots.txt read line by line into groups, and written back. */
module RobotsText {
  import opened Jobs
  import opened Robots

  /** A line as its field and value; a line without a colon, or with any other field, says nothing. */
  datatype Line =
    | UserAgent(name: string)
    | RuleLine(allow: bool, path: string)
    | Delay(seconds: Option<real>)   // `None` where the value is no number
    | SitemapLine(url: string)
    | Other

  /** The groups closed so far, the one being read, and whether the last line that counts named an agent. */
  datatype Reading = Reading(groups: seq<Group>, agents: seq<string>, rules: seq<Rule>, crawlDelay: Option<real>, collecting: bool)

  function Flush(r: Reading): Reading {
    Reading(if r.agents != [] then r.groups + [Group(r.agents, r.rules, r.crawlDelay)] else r.groups, [], [], None, r.collecting)
  }

  function Next(r: Reading, line: Line): Reading {
    match line
    case UserAgent(name) =>
      var open := if r.collecting then r else Flush(r).(collecting := true);
      open.(agents := open.agents + [name])
    case RuleLine(allow, path) =>
      r.(collecting := false, rules := if path == "" then r.rules else r.rules + [Rule(allow, path)])
    case Delay(seconds) => r.(collecting := false, crawlDelay := if seconds.Some? then seconds else r.crawlDelay)
    case SitemapLine(_) => r
    case Other => r
  }

  function Reads(r: Reading, lines: seq<Line>): Reading
    decreases |lines|
  {
    if lines == [] then r else Reads(Next(r, lines[0]), lines[1..])
  }

  const Start := Reading([], [], [], None, false)

  function Groups(lines: seq<Line>): seq<Group> {
    Flush(Reads(Start, lines)).groups
  }

  function Sitemaps(lines: seq<Line>): seq<string> {
    if lines == [] then []
    else (if lines[0].SitemapLine? then [lines[0].url] else []) + Sitemaps(lines[1..])
  }

  method ParseRobots(lines: seq<Line>) returns (groups: seq<Group>, sitemaps: seq<string>)
    ensures groups == Groups(lines) && sitemaps == Sitemaps(lines)
  {
    groups, sitemaps := [], [];
    var agents: seq<string>, rules: seq<Rule>, crawlDelay: Option<real>, collectingAgents := [], [], None, false;
    for i := 0 to |lines|
      invariant Reads(Start, lines) == Reads(Reading(groups, agents, rules, crawlDelay, collectingAgents), lines[i..])
      invariant Sitemaps(lines) == sitemaps + Sitemaps(lines[i..])
    {
      assert lines[i..][0] == lines[i] && lines[i..][1..] == lines[i + 1..];
      match lines[i]
      case UserAgent(name) =>
        if !collectingAgents {
          if |agents| > 0 { groups := groups + [Group(agents, rules, crawlDelay)]; }
          agents, rules, crawlDelay := [], [], None;
          collectingAgents := true;
        }
        agents := agents + [name];
      case RuleLine(allow, path) =>
        collectingAgents := false;
        if path != "" { rules := rules + [Rule(allow, path)]; }
      case Delay(seconds) =>
        collectingAgents := false;
        if seconds.Some? { crawlDelay := seconds; }
      case SitemapLine(url) =>
        sitemaps := sitemaps + [url];
      case Other =>
    }
    if |agents| > 0 { groups := groups + [Group(agents, rules, crawlDelay)]; }
  }

  // ---- Written out ----

  function AgentLines(agents: seq<string>): seq<Line> {
    if agents == [] then [] else [UserAgent(agents[0])] + AgentLines(agents[1..])
  }

  function RuleLines(rules: seq<Rule>): seq<Line> {
    if rules == [] then [] else [RuleLine(rules[0].allow, rules[0].path)] + RuleLines(rules[1..])
  }

  /** A group that some rule or delay closes: agents named after it open a new one. */
  predicate Closed(g: Group) {
    g.rules != [] || g.crawlDelay.Some?
  }

  function Plain(g: Group): seq<Line> {
    AgentLines(g.agents) + RuleLines(g.rules) + if g.crawlDelay.Some? then [Delay(g.crawlDelay)] else []
  }

  /** The same, with an empty Disallow where nothing else would close the group. */
  function Sealed(g: Group): seq<Line> {
    Plain(g) + if Closed(g) then [] else [RuleLine(false, "")]
  }

  function PlainAll(gs: seq<Group>): seq<Line> {
    if gs == [] then [] else Plain(gs[0]) + PlainAll(gs[1..])
  }

  function SealedAll(gs: seq<Group>): seq<Line> {
    if gs == [] then [] else Sealed(gs[0]) + SealedAll(gs[1..])
  }

  /** A group a file can hold: someone is named, and no rule is empty. */
  predicate WellFormed(g: Group) {
    g.agents != [] && forall k :: 0 <= k < |g.rules| ==> g.rules[k].path != ""
  }

  ghost predicate AllWellFormed(gs: seq<Group>) {
    forall k :: 0 <= k < |gs| ==> WellFormed(gs[k])
  }

  // ---- Reading back ----

  lemma {:induction false} ReadsOn(r: Reading, a: seq<Line>, b: seq<Line>)
    ensures Reads(r, a + b) == Reads(Reads(r, a), b)
    decreases |a|
  {
    if a == [] {
      assert a + b == b;
    } else {
      assert (a + b)[1..] == a[1..] + b;
      ReadsOn(Next(r, a[0]), a[1..], b);
    }
  }

  lemma FirstLine(r: Reading, line: Line, rest: seq<Line>)
    ensures Reads(r, [line] + rest) == Reads(Next(r, line), rest)
  {
    assert ([line] + rest)[1..] == rest;
  }

  lemma {:induction false} AgentsRead(r: Reading, agents: seq<string>)
    requires r.collecting
    ensures Reads(r, AgentLines(agents)) == r.(agents := r.agents + agents)
    decreases |agents|
  {
    if agents == [] {
      assert r.agents + agents == r.agents;
    } else {
      var next := r.(agents := r.agents + [agents[0]]);
      assert Next(r, UserAgent(agents[0])) == next;
      AgentsRead(next, agents[1..]);
      assert next.agents + agents[1..] == r.agents + agents;
      FirstLine(r, UserAgent(agents[0]), AgentLines(agents[1..]));
    }
  }

  /** The first agent line of a group, after anything but an agent, closes what was being read. */
  lemma OpeningRead(r: Reading, agents: seq<string>)
    requires !r.collecting && agents != []
    ensures Reads(r, AgentLines(agents)) == Reading(Flush(r).groups, agents, [], None, true)
  {
    assert AgentLines(agents)[1..] == AgentLines(agents[1..]);
    AgentsRead(Next(r, UserAgent(agents[0])), agents[1..]);
    assert [] + [agents[0]] + agents[1..] == agents;
  }

  lemma {:induction false} RulesRead(r: Reading, rules: seq<Rule>)
    requires forall k :: 0 <= k < |rules| ==> rules[k].path != ""
    ensures Reads(r, RuleLines(rules)) == r.(rules := r.rules + rules, collecting := r.collecting && rules == [])
    decreases |rules|
  {
    if rules == [] {
      assert r.rules + rules == r.rules;
    } else {
      var line := RuleLine(rules[0].allow, rules[0].path);
      var next := r.(collecting := false, rules := r.rules + [rules[0]]);
      assert Rule(rules[0].allow, rules[0].path) == rules[0];
      assert Next(r, line) == next;
      RulesRead(next, rules[1..]);
      assert next.rules + rules[1..] == r.rules + rules;
      FirstLine(r, line, RuleLines(rules[1..]));
    }
  }

  lemma PlainRead(r: Reading, g: Group)
    requires !r.collecting && WellFormed(g)
    ensures Reads(r, Plain(g)) == Reading(Flush(r).groups, g.agents, g.rules, g.crawlDelay, !Closed(g))
  {
    var named := Reading(Flush(r).groups, g.agents, [], None, true);
    var last: seq<Line> := if g.crawlDelay.Some? then [Delay(g.crawlDelay)] else [];
    ReadsOn(r, AgentLines(g.agents) + RuleLines(g.rules), last);
    ReadsOn(r, AgentLines(g.agents), RuleLines(g.rules));
    OpeningRead(r, g.agents);
    RulesRead(named, g.rules);
    assert [] + g.rules == g.rules;
    var ruled := named.(rules := g.rules, collecting := g.rules == []);
    LastRead(ruled, g.crawlDelay);
  }

  lemma LastRead(r: Reading, crawlDelay: Option<real>)
    requires r.crawlDelay == None
    ensures Reads(r, if crawlDelay.Some? then [Delay(crawlDelay)] else [])
      == r.(crawlDelay := crawlDelay, collecting := r.collecting && crawlDelay == None)
  {
    if crawlDelay.Some? {
      var line := Delay(crawlDelay);
      assert [line][1..] == [];
      assert Reads(r, [line]) == Reads(Next(r, line), []);
    }
  }

  lemma SealedRead(r: Reading, g: Group)
    requires !r.collecting && WellFormed(g)
    ensures Reads(r, Sealed(g)) == Reading(Flush(r).groups, g.agents, g.rules, g.crawlDelay, false)
  {
    var read := Reading(Flush(r).groups, g.agents, g.rules, g.crawlDelay, !Closed(g));
    PlainRead(r, g);
    if Closed(g) {
      assert Sealed(g) == Plain(g);
    } else {
      var line := RuleLine(false, "");
      ReadsOn(r, Plain(g), [line]);
      assert [line][1..] == [];
      assert Reads(read, [line]) == Reads(Next(read, line), []);
    }
  }

  lemma {:induction false} SealedAllRead(r: Reading, gs: seq<Group>)
    requires !r.collecting && AllWellFormed(gs)
    ensures Flush(Reads(r, SealedAll(gs))).groups == Flush(r).groups + gs
    decreases |gs|
  {
    if gs == [] {
      assert Flush(r).groups + gs == Flush(r).groups;
    } else {
      ReadsOn(r, Sealed(gs[0]), SealedAll(gs[1..]));
      SealedRead(r, gs[0]);
      var read := Reading(Flush(r).groups, gs[0].agents, gs[0].rules, gs[0].crawlDelay, false);
      SealedAllRead(read, gs[1..]);
      assert Group(gs[0].agents, gs[0].rules, gs[0].crawlDelay) == gs[0];
      assert Flush(r).groups + [gs[0]] + gs[1..] == Flush(r).groups + gs;
    }
  }

  /** Any groups, written with an empty Disallow where nothing else closes one, read back as they were. */
  lemma ReadsBack(gs: seq<Group>)
    requires AllWellFormed(gs)
    ensures Groups(SealedAll(gs)) == gs
  {
    SealedAllRead(Start, gs);
    assert Flush(Start).groups == [];
  }

  // ---- When groups run together ----

  /** How many of these, not counting the last, are closed. */
  function ClosedCount(gs: seq<Group>): nat {
    if |gs| <= 1 then 0 else (if Closed(gs[0]) then 1 else 0) + ClosedCount(gs[1..])
  }

  lemma {:induction false} AllClosed(gs: seq<Group>)
    requires gs != []
    ensures ClosedCount(gs) <= |gs| - 1
    ensures ClosedCount(gs) == |gs| - 1 <==> forall k :: 0 <= k < |gs| - 1 ==> Closed(gs[k])
  {
    if |gs| > 1 {
      AllClosed(gs[1..]);
      assert forall k :: 0 <= k < |gs| - 2 ==> gs[1..][k] == gs[k + 1];
      if forall k :: 0 <= k < |gs| - 1 ==> Closed(gs[k]) {
        assert Closed(gs[0]);
        forall k | 0 <= k < |gs| - 2 ensures Closed(gs[1..][k]) { assert Closed(gs[k + 1]); }
      }
      if ClosedCount(gs) == |gs| - 1 {
        forall k | 0 <= k < |gs| - 1 ensures Closed(gs[k]) { if k > 0 { assert Closed(gs[1..][k - 1]); } }
      }
    }
  }

  /** A group whose agents follow a bare group's agents is read as one with it. */
  lemma JoinedRead(r: Reading, g: Group)
    requires r.collecting && r.agents != [] && WellFormed(g)
    ensures
      var read := Reads(r, Plain(g));
      read.groups == r.groups && read.agents != [] && (read.collecting <==> !Closed(g))
  {
    var last: seq<Line> := if g.crawlDelay.Some? then [Delay(g.crawlDelay)] else [];
    ReadsOn(r, AgentLines(g.agents) + RuleLines(g.rules), last);
    ReadsOn(r, AgentLines(g.agents), RuleLines(g.rules));
    AgentsRead(r, g.agents);
    var named := r.(agents := r.agents + g.agents);
    RulesRead(named, g.rules);
    var ruled := named.(rules := named.rules + g.rules, collecting := g.rules == []);
    if g.crawlDelay.Some? {
      var line := Delay(g.crawlDelay);
      assert [line][1..] == [];
      assert Reads(ruled, [line]) == Reads(Next(ruled, line), []);
    }
  }

  lemma {:induction false} PlainCounts(r: Reading, gs: seq<Group>)
    requires AllWellFormed(gs) && gs != [] && (r.collecting ==> r.agents != [])
    ensures |Flush(Reads(r, PlainAll(gs))).groups|
      == (if r.collecting then |r.groups| else |Flush(r).groups|) + 1 + ClosedCount(gs)
    decreases |gs|
  {
    ReadsOn(r, Plain(gs[0]), PlainAll(gs[1..]));
    var read := Reads(r, Plain(gs[0]));
    if r.collecting { JoinedRead(r, gs[0]); } else { PlainRead(r, gs[0]); }
    if |gs| > 1 {
      assert forall k :: 0 <= k < |gs[1..]| ==> gs[1..][k] == gs[k + 1];
      PlainCounts(read, gs[1..]);
    }
  }

  lemma {:induction false} PlainAllRead(r: Reading, gs: seq<Group>)
    requires !r.collecting && AllWellFormed(gs) && forall k :: 0 <= k < |gs| - 1 ==> Closed(gs[k])
    ensures Flush(Reads(r, PlainAll(gs))).groups == Flush(r).groups + gs
    decreases |gs|
  {
    if gs == [] {
      assert Flush(r).groups + gs == Flush(r).groups;
    } else {
      ReadsOn(r, Plain(gs[0]), PlainAll(gs[1..]));
      PlainRead(r, gs[0]);
      var read := Reading(Flush(r).groups, gs[0].agents, gs[0].rules, gs[0].crawlDelay, !Closed(gs[0]));
      assert Group(gs[0].agents, gs[0].rules, gs[0].crawlDelay) == gs[0];
      if |gs| > 1 {
        assert forall k :: 0 <= k < |gs[1..]| ==> gs[1..][k] == gs[k + 1];
        PlainAllRead(read, gs[1..]);
        assert Flush(r).groups + [gs[0]] + gs[1..] == Flush(r).groups + gs;
      } else {
        assert gs == [gs[0]];
      }
    }
  }

  /**
   * Written with nothing added, groups read back as they were exactly when each but the last has a rule or a
   * delay: a group with neither runs together with the next, blank lines between them or not.
   */
  lemma BareGroupsRunTogether(gs: seq<Group>)
    requires AllWellFormed(gs)
    ensures Groups(PlainAll(gs)) == gs <==> forall k :: 0 <= k < |gs| - 1 ==> Closed(gs[k])
  {
    assert Flush(Start).groups == [];
    if forall k :: 0 <= k < |gs| - 1 ==> Closed(gs[k]) {
      PlainAllRead(Start, gs);
    } else {
      PlainCounts(Start, gs);
      AllClosed(gs);
    }
  }

  // ---- Lines that say nothing ----

  predicate Says(line: Line) {
    !line.SitemapLine? && !line.Other?
  }

  function Heard(lines: seq<Line>): seq<Line> {
    if lines == [] then [] else (if Says(lines[0]) then [lines[0]] else []) + Heard(lines[1..])
  }

  lemma {:induction false} HeardReads(r: Reading, lines: seq<Line>)
    ensures Reads(r, lines) == Reads(r, Heard(lines))
    decreases |lines|
  {
    if lines != [] {
      HeardReads(Next(r, lines[0]), lines[1..]);
      var first := if Says(lines[0]) then [lines[0]] else [];
      ReadsOn(r, first, Heard(lines[1..]));
      if Says(lines[0]) {
        assert first[1..] == [];
        assert Reads(r, first) == Reads(Next(r, lines[0]), []);
      }
    }
  }

  /** Comments, blank lines, unknown fields and sitemaps may stand anywhere, even inside a group. */
  lemma NoiseDoesNotMatter(lines: seq<Line>)
    ensures Groups(lines) == Groups(Heard(lines))
  {
    HeardReads(Start, lines);
  }

  /** Straight after a rule or a delay, a delay that is no number and a rule with no path say nothing: what was read stands. */
  lemma EmptyLinesSayNothing(before: seq<Line>, line: Line, after: seq<Line>)
    requires before != [] && (before[|before| - 1].RuleLine? || before[|before| - 1].Delay?)
    requires line == Delay(None) || (line.RuleLine? && line.path == "")
    ensures Groups(before + [line] + after) == Groups(before + after)
  {
    var r := Reads(Start, before);
    var front, last := before[..|before| - 1], before[|before| - 1];
    assert before == front + [last];
    ReadsOn(Start, front, [last]);
    assert [last][1..] == [];
    assert r == Reads(Next(Reads(Start, front), last), []) == Next(Reads(Start, front), last);
    assert Next(r, line) == r;
    ReadsOn(Start, before, [line]);
    assert [line][1..] == [];
    assert Reads(r, [line]) == Reads(Next(r, line), []) == r;
    ReadsOn(Start, before + [line], after);
    ReadsOn(Start, before, after);
  }
}
