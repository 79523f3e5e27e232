/** The crawl frontier: two lanes of URLs spent one request for one, and what becomes of every URL discovered. */
module Frontier {
  import opened Jobs
  import opened Sequences

  /** What the site and its rules say of a URL; any functions will do. */
  datatype Site = Site(
    normalize: string -> Option<string>,
    sameSite: string -> bool,
    allowed: string -> bool,       // true of everything when robots.txt is not respected
    maxDepth: int,
    maxPages: int)

  datatype Entry = Entry(url: string, norm: string, depth: int, from: Option<string>)

  datatype Link = Link(url: string, nofollow: bool)

  /** What a request came back with: where a redirect led, and the links found. */
  datatype Answer = Answer(redirected: Option<string>, links: seq<Link>)

  function Norms(entries: seq<Entry>): (r: seq<string>)
    ensures |r| == |entries| && forall k :: 0 <= k < |r| ==> r[k] == entries[k].norm
  {
    if entries == [] then [] else [entries[0].norm] + Norms(entries[1..])
  }

  lemma NormsAppend(entries: seq<Entry>, e: Entry)
    ensures Norms(entries + [e]) == Norms(entries) + [e.norm]
  {
    var a, b := Norms(entries + [e]), Norms(entries) + [e.norm];
    assert forall k :: 0 <= k < |a| ==> a[k] == b[k];
  }

  lemma NormsTail(entries: seq<Entry>)
    requires entries != []
    ensures Norms(entries) == [entries[0].norm] + Norms(entries[1..])
  {
  }

  /** Which lane a page was drawn from, and whether there was a choice. */
  datatype Pick = Pick(fromListed: bool, choice: bool)

  /** The two lanes as they stand. */
  datatype Front = Front(walk: seq<Entry>, listed: seq<Entry>)

  /** Where a crawl has been: what it was given, and its pages with what each answered. */
  datatype Trail = Trail(seeds: seq<string>, sitemapUrls: seq<string>, pages: seq<Entry>, answers: seq<Answer>)

  // ---- What a finished crawl says of its pages ----

  /** This page led to that entry: it redirected there, at its own depth, or has a link there, one deeper. */
  ghost predicate Led(page: Entry, answer: Answer, e: Entry) {
    && e.from == Some(page.norm)
    && (|| (answer.redirected == Some(e.url) && e.depth == page.depth)
        || (e.depth == page.depth + 1 && exists link :: link in answer.links && !link.nofollow && link.url == e.url))
  }

  /** An entry was given at the start, as a seed or by a sitemap, or one of the first `n` pages led to it. */
  ghost predicate Traced(trail: Trail, n: nat, e: Entry, fromListed: bool)
    requires n <= |trail.pages| && n <= |trail.answers|
  {
    if e.from == None then e.depth == 0 && e.url in (if fromListed then trail.sitemapUrls else trail.seeds)
    else !fromListed && exists j :: 0 <= j < n && Led(trail.pages[j], trail.answers[j], e)
  }

  /** Each page stands after the page that led to it, whose answer says so; one with none was given. */
  ghost predicate ParentsFirst(trail: Trail, picks: seq<Pick>)
    requires |trail.answers| >= |trail.pages| && |picks| >= |trail.pages|
  {
    forall k :: 0 <= k < |trail.pages| ==> Traced(trail, k, trail.pages[k], picks[k].fromListed)
  }

  function Lane(front: Front, listed: bool): seq<Entry> {
    if listed then front.listed else front.walk
  }

  /** Draw `k` took the head of the lane it names: with a choice, the walk's first and then the lanes in turn. */
  ghost predicate Drew(history: seq<Front>, picks: seq<Pick>, drawn: seq<Entry>, k: nat)
    requires k < |history| && k < |picks| && k < |drawn|
  {
    && picks[k].choice == (history[k].walk != [] && history[k].listed != [])
    && Lane(history[k], picks[k].fromListed) != [] && Lane(history[k], picks[k].fromListed)[0] == drawn[k]
    && (picks[k].choice ==> picks[k].fromListed == (k > 0 && !picks[k - 1].fromListed))
  }

  /** From one draw to the next: the head of the lane drawn from has gone, and what is found joins the walk's end. */
  ghost predicate Carried(before: Front, pick: Pick, after: Front) {
    && (pick.fromListed ==> before.listed != [] && after.listed == before.listed[1..] && before.walk <= after.walk)
    && (!pick.fromListed ==> before.walk != [] && after.listed == before.listed && before.walk[1..] <= after.walk)
  }

  /** Every draw in turn, and the lanes before each. */
  ghost predicate InTurns(history: seq<Front>, picks: seq<Pick>, drawn: seq<Entry>) {
    && |history| == |picks| == |drawn|
    && (forall k :: 0 <= k < |history| ==> Drew(history, picks, drawn, k))
    && (forall k :: 0 < k < |history| ==> Carried(history[k - 1], picks[k - 1], history[k]))
  }

  /** How many of the pages from `a` to before `b` came from the lane. */
  function DrawnFrom(picks: seq<Pick>, listed: bool, a: nat, b: nat): nat
    requires a <= b <= |picks|
    decreases b
  {
    if b == a then 0 else DrawnFrom(picks, listed, a, b - 1) + if picks[b - 1].fromListed == listed then 1 else 0
  }

  /**
   * Over any stretch of a crawl's pages in which both lanes stay non-empty, the pages from each lane differ by
   * at most one; and a page counted for a lane was at the head of that lane when it was drawn.
   */
  lemma {:induction false} LanesShareEvenly(history: seq<Front>, picks: seq<Pick>, pages: seq<Entry>, a: nat, b: nat)
    requires InTurns(history, picks, pages) && a <= b <= |pages|
    requires forall k :: a <= k < b ==> history[k].walk != [] && history[k].listed != []
    ensures
      var walked, listed := DrawnFrom(picks, false, a, b), DrawnFrom(picks, true, a, b);
      && walked + listed == b - a && -1 <= walked - listed <= 1
      && (a < b ==> (walked == listed <==> picks[b - 1].fromListed != picks[a].fromListed))
      && (a < b && walked != listed ==> (walked > listed <==> !picks[b - 1].fromListed))
    ensures forall k :: a <= k < b ==> Lane(history[k], picks[k].fromListed) != [] && Lane(history[k], picks[k].fromListed)[0] == pages[k]
    decreases b
  {
    if a < b {
      LanesShareEvenly(history, picks, pages, a, b - 1);
      assert Drew(history, picks, pages, b - 1);
      if a < b - 1 { assert Drew(history, picks, pages, b - 2); }
    }
  }

  // ---- The frontier ----

  /** How far a crawl has seen: every URL it was shown, and the ones it has queued. */
  datatype Reach = Reach(discovered: set<string>, queued: set<string>)

  predicate Grown(before: Reach, after: Reach) {
    before.discovered <= after.discovered && before.queued <= after.queued
  }

  /** A URL given to the frontier was either no URL, off the site, or is now discovered; and queued, if not too deep. */
  predicate Noted(site: Site, reach: Reach, url: string, depth: int) {
    var norm := site.normalize(url);
    norm.Some? && site.sameSite(norm.value) ==>
      norm.value in reach.discovered && (depth <= site.maxDepth ==> norm.value in reach.queued)
  }

  /** A URL the crawl was given, or one of its pages answered with. */
  ghost predicate Mentioned(trail: Trail, url: string) {
    || url in trail.seeds || url in trail.sitemapUrls
    || exists answer :: answer in trail.answers &&
         (answer.redirected == Some(url) || exists link :: link in answer.links && !link.nofollow && link.url == url)
  }

  /** Nothing is discovered but what was mentioned. */
  ghost predicate AllMentioned(site: Site, trail: Trail, discovered: set<string>) {
    var ok := forall u :: u in discovered ==> exists url :: Mentioned(trail, url) && site.normalize(url) == Some(u);
    ok
  }

  /** A URL the frontier is shown, at a depth, by a page or by none. */
  datatype Target = Target(url: string, depth: int, from: Option<string>)

  /** What some targets, shown in order, leave queued, and add to their lane: each new one that fits and the rules allow. */
  function Joined(site: Site, targets: seq<Target>, queued: set<string>): (r: (seq<Entry>, set<string>))
    decreases |targets|
  {
    if targets == [] then ([], queued)
    else
      var t := targets[|targets| - 1];
      var (lane, before) := Joined(site, targets[..|targets| - 1], queued);
      var norm := site.normalize(t.url);
      if norm == None || !site.sameSite(norm.value) || norm.value in before || t.depth > site.maxDepth then (lane, before)
      else (lane + (if site.allowed(norm.value) then [Entry(t.url, norm.value, t.depth, t.from)] else []), before + {norm.value})
  }

  /** What the crawl is given to begin with. */
  function Offered(urls: seq<string>): (r: seq<Target>)
    ensures |r| == |urls| && forall k :: 0 <= k < |r| ==> r[k] == Target(urls[k], 0, None)
  {
    if urls == [] then [] else [Target(urls[0], 0, None)] + Offered(urls[1..])
  }

  /** The links a page may be left by, one deeper than it, in the order they stand. */
  function Outward(page: Entry, links: seq<Link>): seq<Target> {
    if links == [] then []
    else
      var last := links[|links| - 1];
      Outward(page, links[..|links| - 1])
      + (if last.nofollow then [] else [Target(last.url, page.depth + 1, Some(page.norm))])
  }

  /** What a page led to: where it redirected, at its own depth, and then its links. */
  function Targets(page: Entry, answer: Answer): seq<Target> {
    (if answer.redirected.Some? then [Target(answer.redirected.value, page.depth, Some(page.norm))] else [])
    + Outward(page, answer.links)
  }

  /** The lanes before the first draw: the seeds' and then, of what is left, the sitemaps'. */
  function Opened(site: Site, seeds: seq<string>, sitemapUrls: seq<string>): Front {
    var (walk, queued) := Joined(site, Offered(seeds), {});
    Front(walk, Joined(site, Offered(sitemapUrls), queued).0)
  }

  /** What is queued before the first draw. */
  function OpenedQueued(site: Site, seeds: seq<string>, sitemapUrls: seq<string>): set<string> {
    Joined(site, Offered(sitemapUrls), Joined(site, Offered(seeds), {}).1).1
  }

  /** From one draw to the next: the head of the lane drawn from goes, and just what the page led to joins the walk. */
  ghost predicate LedOn(site: Site, before: Front, known: set<string>, pick: Pick, page: Entry, answer: Answer, after: Front, later: set<string>) {
    var (more, queued) := Joined(site, Targets(page, answer), known);
    && later == queued
    && (if pick.fromListed then before.listed == [page] + after.listed && after.walk == before.walk + more
        else after.listed == before.listed && before.walk != [] && before.walk[0] == page && after.walk == before.walk[1..] + more)
  }

  /** Every draw leads on to the next, and the last to what is left; `known` is what was queued before each, and at the end. */
  ghost predicate Unfolds(site: Site, history: seq<Front>, known: seq<set<string>>, picks: seq<Pick>, trail: Trail, left: Front) {
    var ok :=
      && |history| == |picks| == |trail.answers| == |trail.pages| && |known| == |trail.pages| + 1
      && forall k :: 0 <= k < |trail.pages| ==>
           LedOn(site, history[k], known[k], picks[k], trail.pages[k], trail.answers[k],
                 if k + 1 < |history| then history[k + 1] else left, known[k + 1]);
    ok
  }

  /** Each URL queued is in exactly one place, once: a page, in flight, in a lane, or blocked. */
  ghost predicate Partition(queued: set<string>, pages: seq<Entry>, inFlight: seq<Entry>, walk: seq<Entry>, listed: seq<Entry>,
                            blocked: seq<string>)
  {
    var ok := multiset(queued) == multiset(Norms(pages)) + multiset(Norms(inFlight)) + multiset(Norms(walk))
      + multiset(Norms(listed)) + multiset(blocked);
    ok
  }

  ghost predicate Fits(site: Site, trail: Trail, e: Entry, fromListed: bool)
    requires |trail.answers| == |trail.pages|
  {
    && site.normalize(e.url) == Some(e.norm) && site.allowed(e.norm) && e.depth <= site.maxDepth
    && Traced(trail, |trail.pages|, e, fromListed)
  }

  predicate Within(site: Site, e: Entry) {
    site.normalize(e.url) == Some(e.norm) && site.allowed(e.norm) && e.depth <= site.maxDepth
  }

  /** Every page was given or stands after the page that led to it, and so will every entry waiting. */
  ghost predicate Orderly(site: Site, trail: Trail, picks: seq<Pick>, inFlight: seq<Entry>, walk: seq<Entry>, listed: seq<Entry>) {
    var ok :=
      && |trail.answers| == |trail.pages| && |picks| == |trail.pages| + |inFlight| && |inFlight| <= 1
      && (forall k :: 0 <= k < |walk| ==> Fits(site, trail, walk[k], false))
      && (forall k :: 0 <= k < |listed| ==> Fits(site, trail, listed[k], true))
      && (forall k :: 0 <= k < |inFlight| ==> Fits(site, trail, inFlight[k], picks[|trail.pages|].fromListed))
      && (forall k :: 0 <= k < |trail.pages| ==> Within(site, trail.pages[k]))
      && ParentsFirst(trail, picks);
    ok
  }

  ghost predicate Seen(site: Site, discovered: set<string>, queued: set<string>, beyond: seq<string>, blocked: seq<string>) {
    var ok :=
      && (forall u :: u in discovered <==> u in queued || u in beyond)
      && (forall u :: u in discovered ==> site.sameSite(u))
      && (forall k :: 0 <= k < |blocked| ==> !site.allowed(blocked[k]))
      && NoDup(beyond);
    ok
  }

  /** The draws so far, whose turn it is, and that nothing but the walk has grown since the last. */
  ghost predicate Turns(turn: nat, history: seq<Front>, picks: seq<Pick>, drawn: seq<Entry>, now: Front) {
    var ok :=
      && turn < 2 && InTurns(history, picks, drawn)
      && (if picks == [] then turn == 0
          else
            && turn == (if picks[|picks| - 1].fromListed then 0 else 1)
            && Carried(history[|history| - 1], picks[|picks| - 1], now));
    ok
  }

  lemma SeenQueued(site: Site, discovered: set<string>, queued: set<string>, beyond: seq<string>, blocked: seq<string>)
    requires Seen(site, discovered, queued, beyond, blocked)
    ensures queued <= discovered
  {
  }

  /** A URL seen for the first time, or seen too deep before: it is queued now, or noted as too deep. */
  lemma SeenMore(site: Site, discovered: set<string>, queued: set<string>, beyond: seq<string>, blocked: seq<string>, norm: string)
    requires Seen(site, discovered, queued, beyond, blocked) && site.sameSite(norm)
    ensures Seen(site, discovered + {norm}, queued, if norm in beyond then beyond else beyond + [norm], blocked)
    ensures Seen(site, discovered + {norm}, queued + {norm}, beyond, blocked)
    ensures !site.allowed(norm) ==> Seen(site, discovered + {norm}, queued + {norm}, beyond, blocked + [norm])
  {
    if norm !in beyond { AppendNoDup(beyond, norm); }
  }

  // ---- One step at a time ----

  lemma AddToSet(s: set<string>, x: string)
    requires x !in s
    ensures multiset(s + {x}) == multiset(s) + multiset{x}
  {
  }

  lemma FreshFrontier(site: Site, seeds: seq<string>, sitemapUrls: seq<string>)
    ensures Partition({}, [], [], [], [], []) && Orderly(site, Trail(seeds, sitemapUrls, [], []), [], [], [], [])
    ensures Seen(site, {}, {}, [], []) && Turns(0, [], [], [], Front([], []))
    ensures AllMentioned(site, Trail(seeds, sitemapUrls, [], []), {})
  {
    var none: set<string> := {};
    assert multiset(none) == multiset{};
  }

  lemma QueueBlocked(queued: set<string>, pages: seq<Entry>, inFlight: seq<Entry>, walk: seq<Entry>, listed: seq<Entry>,
                     blocked: seq<string>, norm: string)
    requires Partition(queued, pages, inFlight, walk, listed, blocked) && norm !in queued
    ensures Partition(queued + {norm}, pages, inFlight, walk, listed, blocked + [norm])
  {
    AddToSet(queued, norm);
    assert multiset(blocked + [norm]) == multiset(blocked) + multiset{norm};
  }

  lemma QueueEntry(queued: set<string>, pages: seq<Entry>, inFlight: seq<Entry>, walk: seq<Entry>, listed: seq<Entry>,
                   blocked: seq<string>, e: Entry)
    requires Partition(queued, pages, inFlight, walk, listed, blocked) && e.norm !in queued
    ensures Partition(queued + {e.norm}, pages, inFlight, walk + [e], listed, blocked)
    ensures Partition(queued + {e.norm}, pages, inFlight, walk, listed + [e], blocked)
  {
    AddToSet(queued, e.norm);
    NormsAppend(walk, e);
    NormsAppend(listed, e);
    assert multiset(Norms(walk) + [e.norm]) == multiset(Norms(walk)) + multiset{e.norm};
    assert multiset(Norms(listed) + [e.norm]) == multiset(Norms(listed)) + multiset{e.norm};
  }

  lemma Draw(queued: set<string>, pages: seq<Entry>, walk: seq<Entry>, listed: seq<Entry>, blocked: seq<string>)
    requires Partition(queued, pages, [], walk, listed, blocked)
    ensures walk != [] ==> Partition(queued, pages, [walk[0]], walk[1..], listed, blocked)
    ensures listed != [] ==> Partition(queued, pages, [listed[0]], walk, listed[1..], blocked)
  {
    if walk != [] {
      NormsTail(walk);
      assert Norms([walk[0]]) == [walk[0].norm];
    }
    if listed != [] {
      NormsTail(listed);
      assert Norms([listed[0]]) == [listed[0].norm];
    }
  }

  lemma LandPage(queued: set<string>, pages: seq<Entry>, e: Entry, walk: seq<Entry>, listed: seq<Entry>, blocked: seq<string>)
    requires Partition(queued, pages, [e], walk, listed, blocked)
    ensures Partition(queued, pages + [e], [], walk, listed, blocked)
  {
    NormsAppend(pages, e);
    assert Norms([e]) == [e.norm];
  }

  function Landed(trail: Trail, page: Entry, answer: Answer): Trail {
    trail.(pages := trail.pages + [page], answers := trail.answers + [answer])
  }

  lemma StillTraced(trail: Trail, n: nat, page: Entry, answer: Answer, e: Entry, fromListed: bool)
    requires |trail.answers| == |trail.pages| && n <= |trail.pages| && Traced(trail, n, e, fromListed)
    ensures Traced(Landed(trail, page, answer), n, e, fromListed)
    ensures Traced(Landed(trail, page, answer), |trail.pages| + 1, e, fromListed)
  {
    if e.from != None {
      var j :| 0 <= j < n && Led(trail.pages[j], trail.answers[j], e);
      var after := Landed(trail, page, answer);
      assert Led(after.pages[j], after.answers[j], e);
    }
  }

  lemma LandOrderly(site: Site, trail: Trail, picks: seq<Pick>, page: Entry, answer: Answer, walk: seq<Entry>, listed: seq<Entry>)
    requires Orderly(site, trail, picks, [page], walk, listed)
    ensures Orderly(site, Landed(trail, page, answer), picks, [], walk, listed)
  {
    hide Traced;
    var after := Landed(trail, page, answer);
    assert [page][0] == page;
    forall k | 0 <= k < |walk| ensures Fits(site, after, walk[k], false) {
      StillTraced(trail, |trail.pages|, page, answer, walk[k], false);
    }
    forall k | 0 <= k < |listed| ensures Fits(site, after, listed[k], true) {
      StillTraced(trail, |trail.pages|, page, answer, listed[k], true);
    }
    forall k | 0 <= k < |after.pages| ensures Traced(after, k, after.pages[k], picks[k].fromListed) {
      assert after.pages[k] == if k < |trail.pages| then trail.pages[k] else page;
      assert Traced(trail, k, after.pages[k], picks[k].fromListed);
      StillTraced(trail, k, page, answer, after.pages[k], picks[k].fromListed);
    }
  }

  /** Everything a page's answer led to has been noted: a redirect's target at its depth, its links one deeper. */
  ghost predicate Followed(site: Site, reach: Reach, page: Entry, answer: Answer) {
    && (answer.redirected.Some? ==> Noted(site, reach, answer.redirected.value, page.depth))
    && forall k :: 0 <= k < |answer.links| && !answer.links[k].nofollow ==> Noted(site, reach, answer.links[k].url, page.depth + 1)
  }

  lemma StillFollowed(site: Site, before: Reach, after: Reach, page: Entry, answer: Answer)
    requires Followed(site, before, page, answer) && Grown(before, after)
    ensures Followed(site, after, page, answer)
  {
  }

  lemma TracedMentioned(trail: Trail, e: Entry, fromListed: bool)
    requires |trail.answers| == |trail.pages| && Traced(trail, |trail.pages|, e, fromListed)
    ensures Mentioned(trail, e.url)
  {
    if e.from != None {
      var j :| 0 <= j < |trail.pages| && Led(trail.pages[j], trail.answers[j], e);
      assert trail.answers[j] in trail.answers;
    }
  }

  lemma MentionOne(site: Site, trail: Trail, discovered: set<string>, url: string, norm: string)
    requires AllMentioned(site, trail, discovered) && Mentioned(trail, url) && site.normalize(url) == Some(norm)
    ensures AllMentioned(site, trail, discovered + {norm})
  {
    hide Mentioned;
  }

  lemma StillMentioned(site: Site, trail: Trail, page: Entry, answer: Answer, discovered: set<string>)
    requires AllMentioned(site, trail, discovered)
    ensures AllMentioned(site, Landed(trail, page, answer), discovered)
  {
    var after := Landed(trail, page, answer);
    assert forall x :: x in trail.answers ==> x in after.answers;
    assert forall url :: Mentioned(trail, url) ==> Mentioned(after, url);
    forall u | u in discovered ensures exists url :: Mentioned(after, url) && site.normalize(url) == Some(u) {
      var url :| Mentioned(trail, url) && site.normalize(url) == Some(u);
      assert Mentioned(after, url);
    }
  }

  class Crawl {
    const site: Site
    var walk: seq<Entry>
    var listed: seq<Entry>
    var queued: set<string>
    var blocked: seq<string>
    var beyond: seq<string>          // in the order first seen
    var pages: seq<Entry>
    var turn: nat
    ghost const seeds: seq<string>
    ghost const sitemapUrls: seq<string>
    ghost var answers: seq<Answer>   // what each page answered
    ghost var inFlight: seq<Entry>   // the entry being fetched, if one is
    ghost var discovered: set<string>
    ghost var picks: seq<Pick>
    ghost var history: seq<Front>    // the lanes before each draw

    ghost function Trailing(): Trail
      reads this
    {
      Trail(seeds, sitemapUrls, pages, answers)
    }

    ghost function Reaching(): Reach
      reads this
    {
      Reach(discovered, queued)
    }

    ghost predicate Valid()
      reads this
    {
      && Partition(queued, pages, inFlight, walk, listed, blocked)
      && Orderly(site, Trailing(), picks, inFlight, walk, listed)
      && Seen(site, discovered, queued, beyond, blocked)
      && Turns(turn, history, picks, pages + inFlight, Front(walk, listed))
      && AllMentioned(site, Trailing(), discovered)
    }

    constructor (site: Site, ghost seeds: seq<string>, ghost sitemapUrls: seq<string>)
      ensures Valid() && this.site == site && this.seeds == seeds && this.sitemapUrls == sitemapUrls
      ensures pages == [] && inFlight == [] && picks == [] && history == [] && answers == [] && discovered == {}
      ensures walk == [] && listed == [] && queued == {}
    {
      hide Partition, Orderly, Seen, Turns, AllMentioned;
      this.site := site;
      this.seeds, this.sitemapUrls := seeds, sitemapUrls;
      walk, listed, queued, blocked, beyond, pages, turn := [], [], {}, [], [], [], 0;
      answers, inFlight, discovered, picks, history := [], [], {}, [], [];
      new;
      FreshFrontier(site, seeds, sitemapUrls);
      assert pages + inFlight == [];
    }

    /**
     * A URL joins a lane, or is noted as blocked or as too deep; one that is none of the crawl's, or is queued
     * already, changes nothing.
     */
    method Enqueue(url: string, depth: int, from: Option<string>, toListed: bool)
      requires Valid() && inFlight == [] && (toListed ==> picks == [])
      requires Traced(Trailing(), |pages|, Entry(url, "", depth, from), toListed)
      modifies this`walk, this`listed, this`queued, this`blocked, this`beyond, this`discovered
      ensures Valid()
      ensures Grown(old(Reaching()), Reaching()) && Noted(site, Reaching(), url, depth)
      ensures
        var norm := site.normalize(url);
        if norm == None || !site.sameSite(norm.value) || norm.value in old(queued) then
          walk == old(walk) && listed == old(listed) && queued == old(queued) && blocked == old(blocked) && beyond == old(beyond)
        else if depth > site.maxDepth then
          && walk == old(walk) && listed == old(listed) && queued == old(queued) && blocked == old(blocked)
          && beyond == old(beyond) + (if norm.value in old(beyond) then [] else [norm.value])
        else if !site.allowed(norm.value) then
          && walk == old(walk) && listed == old(listed) && beyond == old(beyond)
          && queued == old(queued) + {norm.value} && blocked == old(blocked) + [norm.value]
        else
          && queued == old(queued) + {norm.value} && blocked == old(blocked) && beyond == old(beyond)
          && var e := Entry(url, norm.value, depth, from);
             if toListed then walk == old(walk) && listed == old(listed) + [e] else walk == old(walk) + [e] && listed == old(listed)
    {
      hide Partition, Turns, Orderly, Traced, Seen, AllMentioned, Mentioned;
      AnswersMatch(site, Trailing(), picks, inFlight, walk, listed);
      TracedMentioned(Trailing(), Entry(url, "", depth, from), toListed);
      var normalized := site.normalize(url);
      if normalized == None { return; }
      var norm := normalized.value;
      if !site.sameSite(norm) { return; }
      SeenQueued(site, discovered, queued, beyond, blocked);
      if norm in queued { return; }
      SeenMore(site, discovered, queued, beyond, blocked, norm);
      MentionOne(site, Trailing(), discovered, url, norm);
      discovered := discovered + {norm};
      if depth > site.maxDepth {
        if norm !in beyond { beyond := beyond + [norm]; }
        return;
      }
      if !site.allowed(norm) {
        QueueBlocked(queued, pages, inFlight, walk, listed, blocked, norm);
        queued := queued + {norm};
        blocked := blocked + [norm];
        return;
      }
      var e := Entry(url, norm, depth, from);
      QueueEntry(queued, pages, inFlight, walk, listed, blocked, e);
      QueueOrderly(site, Trailing(), picks, walk, listed, e, toListed);
      LaneGrows(turn, history, picks, pages + inFlight, walk, listed, e);
      queued := queued + {norm};
      if toListed { listed := listed + [e]; } else { walk := walk + [e]; }
    }

    /** What the crawl is given to begin with: the seeds join the walk, or what the sitemaps declare the other lane. */
    method EnqueueGiven(urls: seq<string>, toListed: bool)
      requires Valid() && inFlight == [] && picks == []
      requires if toListed then urls == sitemapUrls && listed == [] else urls == seeds && walk == []
      modifies this`walk, this`listed, this`queued, this`blocked, this`beyond, this`discovered
      ensures Valid() && Grown(old(Reaching()), Reaching()) && NotedAll(site, Reaching(), urls)
      ensures if toListed then walk == old(walk) else listed == old(listed)
      ensures Joined(site, Offered(urls), old(queued)) == (if toListed then listed else walk, queued)
    {
      hide Partition, Orderly, Seen, Turns, AllMentioned, Noted, NotedAll, Joined;
      JoinedNothing(site, queued);
      NothingNoted(site, Reaching(), urls);
      for i := 0 to |urls|
        invariant Valid() && Grown(old(Reaching()), Reaching()) && NotedAll(site, Reaching(), urls[..i])
        invariant if toListed then walk == old(walk) else listed == old(listed)
        invariant Joined(site, Offered(urls[..i]), old(queued)) == (if toListed then listed else walk, queued)
      {
        ghost var before := Reaching();
        OfferedNext(urls, i);
        JoinedNext(site, Offered(urls[..i]), Target(urls[i], 0, None), old(queued));
        AnswersMatch(site, Trailing(), picks, inFlight, walk, listed);
        GivenTraced(Trailing(), urls, i, toListed);
        Enqueue(urls[i], 0, None, toListed);
        NotedNext(site, before, Reaching(), urls, i);
      }
      assert urls[..|urls|] == urls;
    }

    /** The lane whose turn it is, or the other when that one is dry. */
    method NextEntry() returns (drawn: Option<Entry>)
      requires Valid() && inFlight == []
      modifies this`walk, this`listed, this`turn, this`inFlight, this`picks, this`history
      ensures Valid()
      ensures drawn == None ==>
        && inFlight == [] && walk == old(walk) == [] && listed == old(listed) == []
        && picks == old(picks) && history == old(history)
      ensures drawn.Some? ==>
        && inFlight == [drawn.value] && history == old(history) + [Front(old(walk), old(listed))]
        && |picks| == |old(picks)| + 1
        && var pick := picks[|picks| - 1];
           && picks == old(picks) + [pick] && pick.choice == (old(walk) != [] && old(listed) != [])
           && (if pick.fromListed then old(listed) == [drawn.value] + listed && walk == old(walk)
               else old(walk) == [drawn.value] + walk && listed == old(listed))
    {
      hide Partition, Orderly, Seen, Turns, AllMentioned;
      for step := 0 to 2
        invariant Valid() && inFlight == [] && walk == old(walk) && listed == old(listed)
        invariant picks == old(picks) && history == old(history) && turn == old(turn)
        invariant step >= 1 ==> (if turn == 0 then walk == [] else listed == [])
        invariant step == 2 ==> walk == [] && listed == []
      {
        var fromListed := (turn + step) % 2 == 1;
        var lane := if fromListed then listed else walk;
        TurnIsTwo(turn, history, picks, pages + inFlight, Front(walk, listed));
        OtherLane(turn, step);
        if lane != [] {
          var e := lane[0];
          ghost var choice := walk != [] && listed != [];
          Draw(queued, pages, walk, listed, blocked);
          DrawOrderly(site, Trailing(), picks, walk, listed, choice);
          assert pages + [] == pages;
          TakeTurn(turn, history, picks, pages, walk, listed, fromListed);
          turn := (turn + step + 1) % 2;
          history := history + [Front(walk, listed)];
          picks := picks + [Pick(fromListed, choice)];
          inFlight := [e];
          if fromListed { listed := listed[1..]; } else { walk := walk[1..]; }
          return Some(e);
        }
      }
      drawn := None;
    }

    /** The fetch is over: the entry in flight becomes a page. */
    method Land(e: Entry, ghost answer: Answer)
      requires Valid() && inFlight == [e]
      modifies this`pages, this`inFlight, this`answers
      ensures Valid() && inFlight == [] && pages == old(pages) + [e] && answers == old(answers) + [answer]
    {
      hide Partition, Orderly, Seen, Turns, AllMentioned;
      StillMentioned(site, Trailing(), e, answer, discovered);
      LandPage(queued, pages, e, walk, listed, blocked);
      LandOrderly(site, Trailing(), picks, e, answer, walk, listed);
      assert pages + [e] + [] == pages + [e];
      pages := pages + [e];
      answers := answers + [answer];
      inFlight := [];
    }

    /** What a page led to: the target of a redirect at its own depth, and its links one deeper. */
    method Follow(page: Entry, answer: Answer)
      requires Valid() && inFlight == [] && pages != [] && pages[|pages| - 1] == page
      requires |answers| == |pages| && answers[|answers| - 1] == answer
      modifies this`walk, this`listed, this`queued, this`blocked, this`beyond, this`discovered
      ensures Valid() && listed == old(listed)
      ensures
        var (more, known) := Joined(site, Targets(page, answer), old(queued));
        walk == old(walk) + more && queued == known
      ensures Grown(old(Reaching()), Reaching()) && Followed(site, Reaching(), page, answer)
    {
      hide Valid, Followed, Noted, Traced, Joined, Outward;
      ghost var start := walk;
      ghost var shown: seq<Target> := [];
      JoinedNothing(site, queued);
      if answer.redirected != None {
        PageLed(Trailing(), page, answer, answer.redirected.value, page.depth);
        JoinedNext(site, [], Target(answer.redirected.value, page.depth, Some(page.norm)), queued);
        shown := [] + [Target(answer.redirected.value, page.depth, Some(page.norm))];
        Enqueue(answer.redirected.value, page.depth, Some(page.norm), false);
      }
      ghost var first := shown;
      NoneOutward(page, answer.links);
      assert first == if answer.redirected.Some? then [Target(answer.redirected.value, page.depth, Some(page.norm))] else [];
      assert first + [] == first;
      for i := 0 to |answer.links|
        invariant Valid() && listed == old(listed) && shown == first + Outward(page, answer.links[..i])
        invariant walk == start + Joined(site, shown, old(queued)).0 && queued == Joined(site, shown, old(queued)).1
        invariant Grown(old(Reaching()), Reaching())
        invariant answer.redirected.Some? ==> Noted(site, Reaching(), answer.redirected.value, page.depth)
        invariant forall k :: 0 <= k < i && !answer.links[k].nofollow ==> Noted(site, Reaching(), answer.links[k].url, page.depth + 1)
      {
        var link := answer.links[i];
        OutwardNext(page, answer.links, i);
        if link.nofollow {
          assert shown + [] == shown;
          continue;
        }
        PageLed(Trailing(), page, answer, link.url, page.depth + 1);
        ghost var before := Reaching();
        JoinedNext(site, shown, Target(link.url, page.depth + 1, Some(page.norm)), old(queued));
        shown := shown + [Target(link.url, page.depth + 1, Some(page.norm))];
        Enqueue(link.url, page.depth + 1, Some(page.norm), false);
        StillNoted(site, before, Reaching(), page, answer, i);
      }
      assert answer.links[..|answer.links|] == answer.links;
      assert shown == Targets(page, answer);
      FollowedAll(site, Reaching(), page, answer);
    }

    lemma PicksMade()
      requires Valid()
      ensures |picks| == |pages| + |inFlight|
    {
      hide Partition, Seen, Turns, AllMentioned, ParentsFirst, Fits;
    }

    /** Fetch pages until the budget is spent or both lanes are dry; `fetch` is asked the n-th request, for this URL. */
    method Walk(fetch: (nat, string) -> Answer) returns (ghost known: seq<set<string>>)
      requires Valid() && inFlight == [] && pages == [] && history == [] && answers == []
      modifies this
      ensures Valid() && inFlight == [] && Grown(old(Reaching()), Reaching())
      ensures |pages| <= Max(0, site.maxPages)
      ensures |pages| < site.maxPages ==> walk == [] && listed == []
      ensures |answers| == |pages| && forall k :: 0 <= k < |pages| ==> answers[k] == fetch(k, pages[k].url)
      ensures forall k :: 0 <= k < |pages| ==> Followed(site, Reaching(), pages[k], fetch(k, pages[k].url))
      ensures |history| == |pages|
      ensures if pages == [] then Front(walk, listed) == old(Front(walk, listed)) else history[0] == old(Front(walk, listed))
      ensures Unfolds(site, history, known, picks, Trailing(), Front(walk, listed))
      ensures |known| == |pages| + 1 && known[0] == old(queued) && known[|pages|] == queued
    {
      hide Valid, Followed, Unfolds, Joined, Targets;
      known := [queued];
      PicksMade();
      NothingUnfolds(site, known, Trailing(), Front(walk, listed));
      while |pages| < site.maxPages
        invariant Valid() && inFlight == [] && Grown(old(Reaching()), Reaching())
        invariant |pages| <= Max(0, site.maxPages)
        invariant |answers| == |pages| && forall k :: 0 <= k < |pages| ==> answers[k] == fetch(k, pages[k].url)
        invariant forall k :: 0 <= k < |pages| ==> Followed(site, Reaching(), pages[k], fetch(k, pages[k].url))
        invariant |history| == |pages|
        invariant if pages == [] then Front(walk, listed) == old(Front(walk, listed)) else history[0] == old(Front(walk, listed))
        invariant Unfolds(site, history, known, picks, Trailing(), Front(walk, listed))
        invariant |known| == |pages| + 1 && known[0] == old(queued) && known[|pages|] == queued
        decreases site.maxPages - |pages|
      {
        ghost var front, trail, drawnBefore := Front(walk, listed), Trailing(), picks;
        var drawn := NextEntry();
        if drawn == None { break; }
        var e := drawn.value;
        var answer := fetch(|pages|, e.url);
        ghost var before := Reaching();
        Land(e, answer);
        Follow(e, answer);
        UnfoldsOn(site, history[..|history| - 1], known, drawnBefore, trail, front, picks[|picks| - 1], e, answer, Front(walk, listed), queued);
        known := known + [queued];
        forall k | 0 <= k < |pages| ensures Followed(site, Reaching(), pages[k], fetch(k, pages[k].url)) {
          if k < |pages| - 1 { StillFollowed(site, before, Reaching(), pages[k], fetch(k, pages[k].url)); }
        }
      }
    }

    /** The lanes as they were left, then what was too deep and never reached another way. */
    method NotReached() returns (urls: seq<string>)
      ensures urls == Norms(walk) + Norms(listed) + Keep(beyond, set u | u in beyond && u !in queued && site.allowed(u))
    {
      hide Keep;
      var deep := [];
      ghost var kept := set u | u in beyond && u !in queued && site.allowed(u);
      KeepFrom(beyond, 0, kept);
      for i := 0 to |beyond|
        invariant deep + Keep(beyond[i..], kept) == Keep(beyond, kept)
      {
        KeepFrom(beyond, i, kept);
        if beyond[i] !in queued && site.allowed(beyond[i]) { deep := deep + [beyond[i]]; }
      }
      KeepFrom(beyond, |beyond|, kept);
      urls := Norms(walk) + Norms(listed) + deep;
    }
  }

  lemma KeepFrom(s: seq<string>, i: nat, kept: set<string>)
    requires i <= |s|
    ensures i == 0 ==> Keep(s[i..], kept) == Keep(s, kept)
    ensures i == |s| ==> Keep(s[i..], kept) == []
    ensures i < |s| ==> s[i] in s && Keep(s[i..], kept) == (if s[i] in kept then [s[i]] else []) + Keep(s[i + 1..], kept)
  {
    if i == 0 { assert s[0..] == s; }
    if i < |s| { assert s[i..][1..] == s[i + 1..]; }
  }

  /** What a page answered with is traced to it. */
  lemma PageLed(trail: Trail, page: Entry, answer: Answer, url: string, depth: int)
    requires trail.pages != [] && |trail.answers| == |trail.pages|
    requires trail.pages[|trail.pages| - 1] == page && trail.answers[|trail.pages| - 1] == answer
    requires || (answer.redirected == Some(url) && depth == page.depth)
             || (depth == page.depth + 1 && exists link :: link in answer.links && !link.nofollow && link.url == url)
    ensures Traced(trail, |trail.pages|, Entry(url, "", depth, Some(page.norm)), false)
  {
    assert Led(trail.pages[|trail.pages| - 1], trail.answers[|trail.pages| - 1], Entry(url, "", depth, Some(page.norm)));
  }

  lemma StillNoted(site: Site, before: Reach, after: Reach, page: Entry, answer: Answer, i: nat)
    requires Grown(before, after) && i <= |answer.links|
    ensures answer.redirected.Some? && Noted(site, before, answer.redirected.value, page.depth) ==>
      Noted(site, after, answer.redirected.value, page.depth)
    ensures (forall k :: 0 <= k < i && !answer.links[k].nofollow ==> Noted(site, before, answer.links[k].url, page.depth + 1)) ==>
      forall k :: 0 <= k < i && !answer.links[k].nofollow ==> Noted(site, after, answer.links[k].url, page.depth + 1)
  {
  }

  lemma FollowedAll(site: Site, reach: Reach, page: Entry, answer: Answer)
    requires answer.redirected.Some? ==> Noted(site, reach, answer.redirected.value, page.depth)
    requires forall k :: 0 <= k < |answer.links| && !answer.links[k].nofollow ==> Noted(site, reach, answer.links[k].url, page.depth + 1)
    ensures Followed(site, reach, page, answer)
  {
  }

  lemma AnswersMatch(site: Site, trail: Trail, picks: seq<Pick>, inFlight: seq<Entry>, walk: seq<Entry>, listed: seq<Entry>)
    requires Orderly(site, trail, picks, inFlight, walk, listed)
    ensures |trail.answers| == |trail.pages|
  {
    hide Fits, ParentsFirst;
  }

  lemma QueueOrderly(site: Site, trail: Trail, picks: seq<Pick>, walk: seq<Entry>, listed: seq<Entry>, e: Entry, toListed: bool)
    requires Orderly(site, trail, picks, [], walk, listed) && Within(site, e)
    requires Traced(trail, |trail.pages|, Entry(e.url, "", e.depth, e.from), toListed)
    ensures if toListed then Orderly(site, trail, picks, [], walk, listed + [e]) else Orderly(site, trail, picks, [], walk + [e], listed)
  {
    if e.from != None {
      var j :| 0 <= j < |trail.pages| && Led(trail.pages[j], trail.answers[j], Entry(e.url, "", e.depth, e.from));
      assert Led(trail.pages[j], trail.answers[j], e);
    }
    assert Traced(trail, |trail.pages|, e, toListed);
    assert Fits(site, trail, e, toListed);
  }

  /** An entry joining the walk, or either lane before anything is drawn, disturbs no turn. */
  lemma LaneGrows(turn: nat, history: seq<Front>, picks: seq<Pick>, drawn: seq<Entry>, walk: seq<Entry>, listed: seq<Entry>, e: Entry)
    requires Turns(turn, history, picks, drawn, Front(walk, listed))
    ensures Turns(turn, history, picks, drawn, Front(walk + [e], listed))
    ensures picks == [] ==> Turns(turn, history, picks, drawn, Front(walk, listed + [e]))
  {
    hide InTurns;
  }

  lemma TurnIsTwo(turn: nat, history: seq<Front>, picks: seq<Pick>, drawn: seq<Entry>, now: Front)
    requires Turns(turn, history, picks, drawn, now)
    ensures turn < 2
  {
  }

  lemma OtherLane(turn: nat, step: nat)
    requires turn < 2 && step < 2
    ensures (turn + step) % 2 == (if step == 0 then turn else 1 - turn)
    ensures (turn + step + 1) % 2 == if (turn + step) % 2 == 1 then 0 else 1
  {
  }

  lemma DrawOrderly(site: Site, trail: Trail, picks: seq<Pick>, walk: seq<Entry>, listed: seq<Entry>, choice: bool)
    requires Orderly(site, trail, picks, [], walk, listed)
    ensures walk != [] ==> Orderly(site, trail, picks + [Pick(false, choice)], [walk[0]], walk[1..], listed)
    ensures listed != [] ==> Orderly(site, trail, picks + [Pick(true, choice)], [listed[0]], walk, listed[1..])
  {
    hide Fits;
    forall pick: Pick ensures ParentsFirst(trail, picks + [pick]) {
      forall k | 0 <= k < |trail.pages| ensures Traced(trail, k, trail.pages[k], (picks + [pick])[k].fromListed) {
        assert (picks + [pick])[k] == picks[k];
      }
    }
  }

  /** Drawing from the lane whose turn it is, or from the other when that is dry, is the next draw in turn. */
  lemma TakeTurn(turn: nat, history: seq<Front>, picks: seq<Pick>, pages: seq<Entry>, walk: seq<Entry>, listed: seq<Entry>,
                 fromListed: bool)
    requires Turns(turn, history, picks, pages, Front(walk, listed))
    requires (if fromListed then listed else walk) != [] && (walk != [] && listed != [] ==> fromListed == (turn == 1))
    ensures
      var choice := walk != [] && listed != [];
      var e := if fromListed then listed[0] else walk[0];
      Turns(if fromListed then 0 else 1, history + [Front(walk, listed)], picks + [Pick(fromListed, choice)], pages + [e],
            if fromListed then Front(walk, listed[1..]) else Front(walk[1..], listed))
  {
    var choice := walk != [] && listed != [];
    var e := if fromListed then listed[0] else walk[0];
    var history', picks', pages' := history + [Front(walk, listed)], picks + [Pick(fromListed, choice)], pages + [e];
    forall k | 0 <= k < |history'| ensures Drew(history', picks', pages', k) {
      if k < |history| { assert Drew(history, picks, pages, k); }
    }
    forall k | 0 < k < |history'| ensures Carried(history'[k - 1], picks'[k - 1], history'[k]) {
      if k < |history| { assert Carried(history[k - 1], picks[k - 1], history[k]); }
    }
  }

  // ---- What a crawl accounts for ----

  /**
   * Every URL a crawl names it names once, in one of its three lists; the pages and the URLs not reached are,
   * between them, exactly the discovered URLs the rules allow; and nothing allowed is reported blocked.
   */
  ghost predicate Accounted(site: Site, discovered: set<string>, pages: seq<Entry>, notReached: seq<string>, blocked: seq<string>) {
    && NoDup(Norms(pages) + notReached + blocked)
    && (forall u :: u in Norms(pages) || u in notReached <==> u in discovered && site.allowed(u))
    && (forall u :: u in blocked ==> u in discovered && !site.allowed(u))
  }

  lemma OnceEach(s: seq<string>, all: set<string>)
    requires multiset(s) == multiset(all)
    ensures NoDup(s) && forall u :: u in s <==> u in all
  {
    forall x ensures multiset(s)[x] <= 1 { assert multiset(all)[x] <= 1; }
    CountsNoDup(s);
    forall u ensures u in s <==> u in all { assert u in multiset(s) <==> u in multiset(all); }
  }

  lemma {:induction false} CountsNoDup(s: seq<string>)
    requires forall x :: multiset(s)[x] <= 1
    ensures NoDup(s)
  {
    if s != [] {
      assert s == [s[0]] + s[1..];
      assert multiset(s) == multiset{s[0]} + multiset(s[1..]);
      forall x ensures multiset(s[1..])[x] <= 1 { assert multiset(s)[x] <= 1; }
      CountsNoDup(s[1..]);
      assert multiset(s)[s[0]] <= 1;
      PrependNoDup(s[0], s[1..]);
    }
  }

  lemma AllAccounted(site: Site, discovered: set<string>, queued: set<string>, trail: Trail, picks: seq<Pick>, walk: seq<Entry>,
                     listed: seq<Entry>, blocked: seq<string>, beyond: seq<string>, deep: seq<string>)
    requires Partition(queued, trail.pages, [], walk, listed, blocked)
    requires Orderly(site, trail, picks, [], walk, listed) && Seen(site, discovered, queued, beyond, blocked)
    requires NoDup(deep) && forall u :: u in deep <==> u in beyond && u !in queued && site.allowed(u)
    ensures Accounted(site, discovered, trail.pages, Norms(walk) + Norms(listed) + deep, blocked)
  {
    hide Partition, Orderly, Seen, NoDup;
    var p, w, l := Norms(trail.pages), Norms(walk), Norms(listed);
    QueuedOnce(queued, trail.pages, walk, listed, blocked);
    InsertNoDup(p + w + l, deep, blocked);
    assert p + (w + l + deep) + blocked == p + w + l + deep + blocked;
    WhereNamed(site, discovered, queued, trail, picks, walk, listed, blocked, beyond, deep);
  }

  lemma QueuedOnce(queued: set<string>, pages: seq<Entry>, walk: seq<Entry>, listed: seq<Entry>, blocked: seq<string>)
    requires Partition(queued, pages, [], walk, listed, blocked)
    ensures
      var named := Norms(pages) + Norms(walk) + Norms(listed) + blocked;
      NoDup(named) && forall u :: u in named <==> u in queued
  {
    var p, w, l := Norms(pages), Norms(walk), Norms(listed);
    assert multiset(p + w + l + blocked) == multiset(p) + multiset(w) + multiset(l) + multiset(blocked);
    assert Norms([]) == [];
    OnceEach(p + w + l + blocked, queued);
  }

  lemma BeyondOnce(site: Site, discovered: set<string>, queued: set<string>, beyond: seq<string>, blocked: seq<string>)
    requires Seen(site, discovered, queued, beyond, blocked)
    ensures
      var deep := Keep(beyond, set u | u in beyond && u !in queued && site.allowed(u));
      NoDup(deep) && forall u :: u in deep <==> u in beyond && u !in queued && site.allowed(u)
  {
    KeepNoDup(beyond, set u | u in beyond && u !in queued && site.allowed(u));
  }

  /** Two sequences that share nothing and repeat nothing may be interleaved. */
  lemma InsertNoDup(a: seq<string>, deep: seq<string>, b: seq<string>)
    requires NoDup(a + b) && NoDup(deep) && forall u :: u in deep ==> u !in a + b
    ensures NoDup(a + deep + b)
  {
    var s, t := a + deep + b, a + b;
    forall i, j | 0 <= i < j < |s| ensures s[i] != s[j] {
      var k, m := |a|, |a| + |deep|;
      if i < k { assert s[i] == t[i] && t[i] in t; }
      else if i < m { assert s[i] == deep[i - k] && deep[i - k] in deep; }
      else { assert s[i] == t[i - |deep|] && t[i - |deep|] in t; }
      if j < k { assert s[j] == t[j] && t[j] in t; }
      else if j < m { assert s[j] == deep[j - k] && deep[j - k] in deep; }
      else { assert s[j] == t[j - |deep|] && t[j - |deep|] in t; }
    }
  }

  lemma WhereNamed(site: Site, discovered: set<string>, queued: set<string>, trail: Trail, picks: seq<Pick>, walk: seq<Entry>,
                   listed: seq<Entry>, blocked: seq<string>, beyond: seq<string>, deep: seq<string>)
    requires Orderly(site, trail, picks, [], walk, listed) && Seen(site, discovered, queued, beyond, blocked)
    requires forall u :: u in queued <==> u in Norms(trail.pages) + Norms(walk) + Norms(listed) + blocked
    requires forall u :: u in deep <==> u in beyond && u !in queued && site.allowed(u)
    ensures
      var notReached := Norms(walk) + Norms(listed) + deep;
      && (forall u :: u in Norms(trail.pages) || u in notReached <==> u in discovered && site.allowed(u))
      && (forall u :: u in blocked ==> u in discovered && !site.allowed(u))
  {
    hide Orderly;
    NamedAllowed(site, trail, picks, walk, listed);
  }

  /** Every page is one the rules allow, and so is every entry left in a lane. */
  lemma NamedAllowed(site: Site, trail: Trail, picks: seq<Pick>, walk: seq<Entry>, listed: seq<Entry>)
    requires Orderly(site, trail, picks, [], walk, listed)
    ensures forall u :: u in Norms(trail.pages) + Norms(walk) + Norms(listed) ==> site.allowed(u)
  {
    hide Traced, ParentsFirst;
    forall u | u in Norms(trail.pages) + Norms(walk) + Norms(listed) ensures site.allowed(u) {
      if u in Norms(trail.pages) { var k :| 0 <= k < |trail.pages| && Norms(trail.pages)[k] == u; }
      else if u in Norms(walk) {
        var k :| 0 <= k < |walk| && Norms(walk)[k] == u;
        assert Fits(site, trail, walk[k], false);
      } else {
        var k :| 0 <= k < |listed| && Norms(listed)[k] == u;
        assert Fits(site, trail, listed[k], true);
      }
    }
  }

  lemma PagesInOrder(site: Site, trail: Trail, picks: seq<Pick>, walk: seq<Entry>, listed: seq<Entry>)
    requires Orderly(site, trail, picks, [], walk, listed)
    ensures |trail.answers| == |trail.pages| == |picks| && ParentsFirst(trail, picks)
    ensures forall k :: 0 <= k < |trail.pages| ==> Within(site, trail.pages[k])
  {
    hide ParentsFirst;
  }

  lemma TurnsTaken(turn: nat, history: seq<Front>, picks: seq<Pick>, drawn: seq<Entry>, now: Front)
    requires Turns(turn, history, picks, drawn, now)
    ensures InTurns(history, picks, drawn)
  {
    hide InTurns;
  }

  lemma AllOnSite(site: Site, discovered: set<string>, queued: set<string>, beyond: seq<string>, blocked: seq<string>)
    requires Seen(site, discovered, queued, beyond, blocked)
    ensures forall u :: u in discovered ==> site.sameSite(u)
  {
  }

  // ---- The whole crawl ----

  /** A target the crawl owes a visit was visited, or the rules forbid it. */
  predicate Visited(site: Site, pages: seq<Entry>, blocked: seq<string>, url: string, depth: int) {
    var norm := site.normalize(url);
    norm.Some? && site.sameSite(norm.value) && depth <= site.maxDepth ==> norm.value in Norms(pages) || norm.value in blocked
  }

  ghost predicate VisitedAll(site: Site, pages: seq<Entry>, blocked: seq<string>, urls: seq<string>) {
    forall k :: 0 <= k < |urls| ==> Visited(site, pages, blocked, urls[k], 0)
  }

  ghost predicate NotedAll(site: Site, reach: Reach, urls: seq<string>) {
    forall k :: 0 <= k < |urls| ==> Noted(site, reach, urls[k], 0)
  }

  /** Everything a page led to within the depth limit was visited too, or is forbidden. */
  ghost predicate Closed(site: Site, pages: seq<Entry>, blocked: seq<string>, page: Entry, answer: Answer) {
    && (answer.redirected.Some? ==> Visited(site, pages, blocked, answer.redirected.value, page.depth))
    && forall k :: 0 <= k < |answer.links| && !answer.links[k].nofollow ==> Visited(site, pages, blocked, answer.links[k].url, page.depth + 1)
  }

  /** A crawl that ended with both lanes dry has left nothing unvisited that it owed a visit. */
  lemma DryMeansClosed(site: Site, reach: Reach, trail: Trail, blocked: seq<string>)
    requires Partition(reach.queued, trail.pages, [], [], [], blocked) && |trail.answers| == |trail.pages|
    requires NotedAll(site, reach, trail.seeds) && NotedAll(site, reach, trail.sitemapUrls)
    requires forall k :: 0 <= k < |trail.pages| ==> Followed(site, reach, trail.pages[k], trail.answers[k])
    ensures VisitedAll(site, trail.pages, blocked, trail.seeds) && VisitedAll(site, trail.pages, blocked, trail.sitemapUrls)
    ensures forall k :: 0 <= k < |trail.pages| ==> Closed(site, trail.pages, blocked, trail.pages[k], trail.answers[k])
  {
    hide Partition;
    QueuedOnce(reach.queued, trail.pages, [], [], blocked);
    assert Norms([]) == [];
    assert forall u :: u in reach.queued ==> u in Norms(trail.pages) || u in blocked;
  }

  /**
   * A whole crawl: the seeds, then what the sitemaps declare, then the walk. `trail` is what each page answered,
   * `reach` what was seen and queued, `history` the lanes before each page was drawn, with `picks` saying from
   * which it was, `known` what was queued by then, and `left` the lanes as the crawl left them. Each draw leads on
   * to the next by just what its page answered, in order. It stops only at the page budget or with both lanes dry;
   * and then whatever it was given or led to within the depth limit has been visited, or is forbidden.
   */
  method CrawlSite(site: Site, seeds: seq<string>, sitemapUrls: seq<string>, fetch: (nat, string) -> Answer)
    returns (pages: seq<Entry>, notReached: seq<string>, blocked: seq<string>, ghost reach: Reach,
             ghost trail: Trail, ghost history: seq<Front>, ghost known: seq<set<string>>, ghost picks: seq<Pick>, ghost left: Front)
    ensures Accounted(site, reach.discovered, pages, notReached, blocked)
    ensures forall u :: u in reach.queued <==> u in Norms(pages) + Norms(left.walk) + Norms(left.listed) + blocked
    ensures Norms(left.walk) + Norms(left.listed) <= notReached
    ensures forall u :: u in reach.discovered ==> site.sameSite(u)
    ensures AllMentioned(site, trail, reach.discovered)
    ensures NotedAll(site, reach, seeds) && NotedAll(site, reach, sitemapUrls)
    ensures forall k :: 0 <= k < |pages| ==> Followed(site, reach, pages[k], fetch(k, pages[k].url))
    ensures trail.seeds == seeds && trail.sitemapUrls == sitemapUrls && trail.pages == pages && |trail.answers| == |pages|
    ensures forall k :: 0 <= k < |pages| ==> trail.answers[k] == fetch(k, pages[k].url)
    ensures InTurns(history, picks, pages) && ParentsFirst(trail, picks)
    ensures (if pages == [] then left else history[0]) == Opened(site, seeds, sitemapUrls)
    ensures Unfolds(site, history, known, picks, trail, left)
    ensures known[0] == OpenedQueued(site, seeds, sitemapUrls) && known[|pages|] == reach.queued
    ensures forall k :: 0 <= k < |pages| ==> Within(site, pages[k])
    ensures |pages| <= Max(0, site.maxPages)
    ensures |pages| < site.maxPages ==>
      && left == Front([], [])
      && VisitedAll(site, pages, blocked, seeds) && VisitedAll(site, pages, blocked, sitemapUrls)
      && forall k :: 0 <= k < |pages| ==> Closed(site, pages, blocked, pages[k], fetch(k, pages[k].url))
  {
    hide Followed, Partition, Orderly, Seen, Turns, Noted, InTurns, ParentsFirst, AllMentioned, NotedAll, VisitedAll, Closed, Accounted,
         Joined, Within, Unfolds, Norms, Keep, NoDup, Visited, Offered;
    var crawl := new Crawl(site, seeds, sitemapUrls);
    crawl.EnqueueGiven(seeds, false);
    ghost var seeded := crawl.Reaching();
    crawl.EnqueueGiven(sitemapUrls, true);
    NotedStill(site, seeded, crawl.Reaching(), seeds);
    ghost var before := crawl.Reaching();
    known := crawl.Walk(fetch);
    NotedStill(site, before, crawl.Reaching(), seeds);
    NotedStill(site, before, crawl.Reaching(), sitemapUrls);
    notReached := crawl.NotReached();
    pages, blocked, reach, left := crawl.pages, crawl.blocked, crawl.Reaching(), Front(crawl.walk, crawl.listed);
    trail, history, picks := crawl.Trailing(), crawl.history, crawl.picks;
    assert pages + [] == pages;
    Concludes(site, reach, trail, history, picks, left, blocked, crawl.beyond, crawl.turn);
    if |pages| < site.maxPages { DryMeansClosed(site, reach, trail, blocked); }
  }

  /** What a crawl's books say once nothing is in flight. */
  lemma Concludes(site: Site, reach: Reach, trail: Trail, history: seq<Front>, picks: seq<Pick>, left: Front, blocked: seq<string>,
                  beyond: seq<string>, turn: nat)
    requires Partition(reach.queued, trail.pages, [], left.walk, left.listed, blocked)
    requires Orderly(site, trail, picks, [], left.walk, left.listed)
    requires Seen(site, reach.discovered, reach.queued, beyond, blocked)
    requires Turns(turn, history, picks, trail.pages, left)
    ensures
      var deep := Keep(beyond, set u | u in beyond && u !in reach.queued && site.allowed(u));
      Accounted(site, reach.discovered, trail.pages, Norms(left.walk) + Norms(left.listed) + deep, blocked)
    ensures forall u :: u in reach.queued <==> u in Norms(trail.pages) + Norms(left.walk) + Norms(left.listed) + blocked
    ensures forall u :: u in reach.discovered ==> site.sameSite(u)
    ensures |trail.answers| == |trail.pages| == |picks|
    ensures InTurns(history, picks, trail.pages) && ParentsFirst(trail, picks)
    ensures forall k :: 0 <= k < |trail.pages| ==> Within(site, trail.pages[k])
  {
    hide Partition, Orderly, Seen, Turns, InTurns, ParentsFirst, Accounted, Within;
    PagesInOrder(site, trail, picks, left.walk, left.listed);
    TurnsTaken(turn, history, picks, trail.pages, left);
    AllOnSite(site, reach.discovered, reach.queued, beyond, blocked);
    BeyondOnce(site, reach.discovered, reach.queued, beyond, blocked);
    QueuedOnce(reach.queued, trail.pages, left.walk, left.listed, blocked);
    AllAccounted(site, reach.discovered, reach.queued, trail, picks, left.walk, left.listed, blocked, beyond,
                 Keep(beyond, set u | u in beyond && u !in reach.queued && site.allowed(u)));
  }

  lemma GivenTraced(trail: Trail, urls: seq<string>, i: nat, toListed: bool)
    requires i < |urls| && |trail.answers| >= |trail.pages| && (if toListed then urls == trail.sitemapUrls else urls == trail.seeds)
    ensures Traced(trail, |trail.pages|, Entry(urls[i], "", 0, None), toListed)
  {
  }

  lemma JoinedNothing(site: Site, queued: set<string>)
    ensures Joined(site, [], queued) == ([], queued) && Offered([]) == []
  {
  }

  lemma OfferedNext(urls: seq<string>, i: nat)
    requires i < |urls|
    ensures Offered(urls[..i + 1]) == Offered(urls[..i]) + [Target(urls[i], 0, None)]
  {
  }

  lemma NoneOutward(page: Entry, links: seq<Link>)
    ensures Outward(page, links[..0]) == []
  {
  }

  lemma OutwardNext(page: Entry, links: seq<Link>, i: nat)
    requires i < |links|
    ensures Outward(page, links[..i + 1])
      == Outward(page, links[..i]) + if links[i].nofollow then [] else [Target(links[i].url, page.depth + 1, Some(page.norm))]
  {
    assert links[..i + 1][..i] == links[..i];
  }

  lemma JoinedNext(site: Site, targets: seq<Target>, t: Target, queued: set<string>)
    ensures
      var (lane, before) := Joined(site, targets, queued);
      var norm := site.normalize(t.url);
      Joined(site, targets + [t], queued) ==
        if norm == None || !site.sameSite(norm.value) || norm.value in before || t.depth > site.maxDepth then (lane, before)
        else if !site.allowed(norm.value) then (lane, before + {norm.value})
        else (lane + [Entry(t.url, norm.value, t.depth, t.from)], before + {norm.value})
  {
    assert Joined(site, targets, queued).0 + [] == Joined(site, targets, queued).0;
    assert (targets + [t])[..|targets|] == targets;
  }

  lemma NothingUnfolds(site: Site, known: seq<set<string>>, trail: Trail, now: Front)
    requires |known| == 1 && trail.pages == [] && trail.answers == []
    ensures Unfolds(site, [], known, [], trail, now)
  {
  }

  /** One more draw, and what its page led to. */
  lemma UnfoldsOn(site: Site, history: seq<Front>, known: seq<set<string>>, picks: seq<Pick>, trail: Trail, now: Front,
                  pick: Pick, page: Entry, answer: Answer, after: Front, later: set<string>)
    requires Unfolds(site, history, known, picks, trail, now)
    requires LedOn(site, now, known[|known| - 1], pick, page, answer, after, later)
    ensures Unfolds(site, history + [now], known + [later], picks + [pick], Landed(trail, page, answer), after)
  {
    hide LedOn;
  }

  lemma NothingNoted(site: Site, reach: Reach, urls: seq<string>)
    ensures NotedAll(site, reach, urls[..0])
  {
  }

  lemma NotedStill(site: Site, before: Reach, after: Reach, urls: seq<string>)
    requires Grown(before, after) && NotedAll(site, before, urls)
    ensures NotedAll(site, after, urls)
  {
  }

  lemma NotedNext(site: Site, before: Reach, after: Reach, urls: seq<string>, i: nat)
    requires i < |urls| && Grown(before, after) && NotedAll(site, before, urls[..i]) && Noted(site, after, urls[i], 0)
    ensures NotedAll(site, after, urls[..i + 1])
  {
  }
}
