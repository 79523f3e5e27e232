/** Reading a sitemap from parse events, keeping only the entry it is inside: the machine, and the parser that is one. */
module Sitemap {
  import opened Jobs

  /** How text is tidied and a name is stripped of its prefix; any two functions will do. */
  datatype Lexicon = Lexicon(clean: string -> string, local: string -> string)

  datatype Event = Open(name: string) | Data(text: string) | Close(name: string)

  type Fields = map<string, string>

  datatype Video = Video(
    loc: string,
    title: Option<string>,
    description: Option<string>,
    thumbnailUrl: Option<string>,
    contentUrl: Option<string>,
    playerUrl: Option<string>)

  datatype News = News(
    loc: string,
    publicationName: Option<string>,
    language: Option<string>,
    publicationDate: Option<string>,
    title: Option<string>)

  datatype Parsed = Parsed(urls: seq<string>, sitemaps: seq<string>, videos: seq<Video>, news: seq<News>)

  datatype OpenEntry = OpenEntry(locs: seq<string>, videos: seq<Fields>, news: seq<Fields>)

  /** A field not yet closed: what has been read of it so far, and how many elements were open when it was. */
  datatype Field = Field(depth: nat, value: string)

  /** `video` and `news` say whether one is open; the open one is the last of its entry's. */
  datatype Machine = Machine(
    path: seq<string>,
    entry: Option<OpenEntry>,
    video: bool,
    news: bool,
    text: Option<Field>,
    out: Parsed)

  const NEWS_FIELDS: set<string> := {"name", "language", "publication_date", "title"}

  function Start(): Machine {
    Machine([], None, false, false, None, Parsed([], [], [], []))
  }

  function Get(fields: Fields, key: string): Option<string> {
    if key in fields then Some(fields[key]) else None
  }

  function VideoOf(loc: string, fields: Fields): Video {
    Video(loc, Get(fields, "title"), Get(fields, "description"), Get(fields, "thumbnail_loc"),
          Get(fields, "content_loc"), Get(fields, "player_loc"))
  }

  function NewsOf(loc: string, fields: Fields): News {
    News(loc, Get(fields, "name"), Get(fields, "language"), Get(fields, "publication_date"), Get(fields, "title"))
  }

  function VideosOf(loc: string, all: seq<Fields>): (r: seq<Video>) {
    if all == [] then [] else [VideoOf(loc, all[0])] + VideosOf(loc, all[1..])
  }

  function NewsesOf(loc: string, all: seq<Fields>): (r: seq<News>) {
    if all == [] then [] else [NewsOf(loc, all[0])] + NewsesOf(loc, all[1..])
  }

  /** Set a field of the last of `all`: the one being read. */
  function SetLast(all: seq<Fields>, key: string, value: string): seq<Fields> {
    if all == [] then all else all[|all| - 1 := all[|all| - 1][key := value]]
  }

  function OnOpen(lx: Lexicon, m: Machine, name: string): Machine {
    var path := m.path + [name];
    var depth := |path|;
    var m := m.(path := path);
    if path[0] == "urlset" && depth == 2 && name == "url" then m.(entry := Some(OpenEntry([], [], [])))
    else if m.entry.Some? && depth == 3 && name == "loc" then m.(text := Some(Field(depth, "")))
    else if m.entry.Some? && depth == 3 && lx.local(name) == "video" then
      m.(video := true, entry := Some(m.entry.value.(videos := m.entry.value.videos + [map[]])))
    else if m.entry.Some? && depth == 3 && lx.local(name) == "news" then
      m.(news := true, entry := Some(m.entry.value.(news := m.entry.value.news + [map[]])))
    else if m.video && depth == 4 then m.(text := Some(Field(depth, "")))
    else if m.news && (depth == 4 || depth == 5) && lx.local(name) in NEWS_FIELDS then m.(text := Some(Field(depth, "")))
    else if path[0] == "sitemapindex" && depth == 3 && path[1] == "sitemap" && name == "loc" then
      m.(text := Some(Field(depth, "")))
    else m
  }

  function OnText(m: Machine, data: string): Machine {
    if m.text == None then m else m.(text := Some(m.text.value.(value := m.text.value.value + data)))
  }

  /** What a field just closed is kept as. */
  function Keep(lx: Lexicon, m: Machine, depth: nat, name: string, value: string): Machine {
    if m.path != [] && m.path[0] == "sitemapindex" then m.(out := m.out.(sitemaps := m.out.sitemaps + [value]))
    else if m.entry == None then m
    else if depth == 3 then
      m.(entry := Some(m.entry.value.(locs := m.entry.value.locs + [value])), out := m.out.(urls := m.out.urls + [value]))
    else if m.video then
      m.(entry := Some(m.entry.value.(videos := SetLast(m.entry.value.videos, lx.local(name), value))))
    else if m.news then
      m.(entry := Some(m.entry.value.(news := SetLast(m.entry.value.news, lx.local(name), value))))
    else m
  }

  /** The entry just closed, written out under its first `loc`; an entry without one names no page. */
  function Emit(out: Parsed, entry: OpenEntry): Parsed {
    if entry.locs == [] then out
    else
      out.(videos := out.videos + VideosOf(entry.locs[0], entry.videos),
           news := out.news + NewsesOf(entry.locs[0], entry.news))
  }

  function OnClose(lx: Lexicon, m: Machine, name: string): Machine {
    var depth := |m.path|;
    var m := m.(path := if m.path == [] then [] else m.path[..|m.path| - 1]);
    if m.text.Some? && depth == m.text.value.depth then
      var value := lx.clean(m.text.value.value);
      var m := m.(text := None);
      if value == "" then m else Keep(lx, m, depth, name, value)
    else if m.video && depth == 3 then m.(video := false)
    else if m.news && depth == 3 then m.(news := false)
    else if m.entry.Some? && depth == 2 then m.(entry := None, out := Emit(m.out, m.entry.value))
    else m
  }

  function Step(lx: Lexicon, m: Machine, ev: Event): Machine {
    match ev
    case Open(name) => OnOpen(lx, m, name)
    case Data(text) => OnText(m, text)
    case Close(name) => OnClose(lx, m, name)
  }

  function Run(lx: Lexicon, m: Machine, evs: seq<Event>): Machine
    decreases |evs|
  {
    if evs == [] then m else Run(lx, Step(lx, m, evs[0]), evs[1..])
  }

  lemma {:induction false} RunSplit(lx: Lexicon, m: Machine, a: seq<Event>, b: seq<Event>)
    ensures Run(lx, m, a + b) == Run(lx, Run(lx, m, a), b)
    decreases |a|
  {
    if a == [] { assert a + b == b; }
    else {
      assert (a + b)[1..] == a[1..] + b;
      RunSplit(lx, Step(lx, m, a[0]), a[1..], b);
    }
  }

  lemma RunOne(lx: Lexicon, m: Machine, ev: Event)
    ensures Run(lx, m, [ev]) == Step(lx, m, ev)
  {
    assert [ev][1..] == [];
  }

  /** Text may arrive in any pieces: cutting one piece in two changes nothing. */
  lemma PiecesDoNotMatter(lx: Lexicon, m: Machine, before: seq<Event>, a: string, b: string, after: seq<Event>)
    ensures Run(lx, m, before + [Data(a), Data(b)] + after) == Run(lx, m, before + [Data(a + b)] + after)
  {
    var mid := Run(lx, m, before);
    RunSplit(lx, m, before + [Data(a), Data(b)], after);
    RunSplit(lx, m, before, [Data(a), Data(b)]);
    RunSplit(lx, m, before + [Data(a + b)], after);
    RunSplit(lx, m, before, [Data(a + b)]);
    RunOne(lx, mid, Data(a + b));
    assert [Data(a), Data(b)][1..] == [Data(b)];
    RunOne(lx, OnText(mid, a), Data(b));
    if mid.text.Some? { assert mid.text.value.value + a + b == mid.text.value.value + (a + b); }
  }

  // ---- Cutting a document short ----

  ghost predicate Extends(a: Parsed, b: Parsed) {
    a.urls <= b.urls && a.sitemaps <= b.sitemaps && a.videos <= b.videos && a.news <= b.news
  }

  /**
   * What was read when the input stopped is a prefix, list by list, of what reading on would give: the closes
   * that end a cut document write nothing.
   */
  lemma {:induction false} CutIsPrefix(lx: Lexicon, m: Machine, evs: seq<Event>)
    ensures Extends(m.out, Run(lx, m, evs).out)
    decreases |evs|
  {
    if evs != [] {
      var next := Step(lx, m, evs[0]);
      assert Extends(m.out, next.out);
      CutIsPrefix(lx, next, evs[1..]);
    }
  }

  // ---- The parser ----

  /** The closes of the elements still open, innermost first. */
  function Closes(path: seq<string>): seq<Event> {
    if path == [] then [] else [Close(path[|path| - 1])] + Closes(path[..|path| - 1])
  }

  lemma NoClose(lx: Lexicon, m: Machine)
    ensures Run(lx, m, Closes([])) == m
  {
  }

  lemma FirstClose(lx: Lexicon, m: Machine, path: seq<string>)
    requires path != []
    ensures Run(lx, m, Closes(path)) == Run(lx, OnClose(lx, m, path[|path| - 1]), Closes(path[..|path| - 1]))
  {
    assert Closes(path)[1..] == Closes(path[..|path| - 1]);
  }

  class SitemapParser {
    const lx: Lexicon
    var path: seq<string>
    var entry: Option<OpenEntry>
    var video: bool
    var news: bool
    var text: Option<Field>
    var ending: bool
    var urls: seq<string>
    var sitemaps: seq<string>
    var videos: seq<Video>
    var newsItems: seq<News>

    function Abs(): Machine
      reads this
    {
      Machine(path, entry, video, news, text, Parsed(urls, sitemaps, videos, newsItems))
    }

    constructor (lx: Lexicon)
      ensures this.lx == lx && !ending && Abs() == Start()
    {
      this.lx := lx;
      path, entry, video, news, text, ending := [], None, false, false, None, false;
      urls, sitemaps, videos, newsItems := [], [], [], [];
    }

    method OnOpenTag(name: string)
      modifies this
      ensures ending == old(ending) && Abs() == OnOpen(lx, old(Abs()), name)
    {
      path := path + [name];
      var depth := |path|;
      if path[0] == "urlset" && depth == 2 && name == "url" {
        entry := Some(OpenEntry([], [], []));
      } else if entry != None && depth == 3 && name == "loc" {
        text := Some(Field(depth, ""));
      } else if entry != None && depth == 3 && lx.local(name) == "video" {
        video := true;
        entry := Some(entry.value.(videos := entry.value.videos + [map[]]));
      } else if entry != None && depth == 3 && lx.local(name) == "news" {
        news := true;
        entry := Some(entry.value.(news := entry.value.news + [map[]]));
      } else if video && depth == 4 {
        text := Some(Field(depth, ""));
      } else if news && (depth == 4 || depth == 5) && lx.local(name) in NEWS_FIELDS {
        text := Some(Field(depth, ""));
      } else if path[0] == "sitemapindex" && depth == 3 && path[1] == "sitemap" && name == "loc" {
        text := Some(Field(depth, ""));
      }
    }

    method OnTextData(data: string)
      modifies `text
      ensures Abs() == OnText(old(Abs()), data)
    {
      if text != None { text := Some(text.value.(value := text.value.value + data)); }
    }

    /** A close forced by the end of a cut document writes nothing. */
    method OnCloseTag(name: string)
      modifies this
      ensures ending == old(ending) && path == if old(path) == [] then [] else old(path)[..|old(path)| - 1]
      ensures if ending then Abs().out == old(Abs().out) else Abs() == OnClose(lx, old(Abs()), name)
    {
      var depth := |path|;
      if path != [] { path := path[..|path| - 1]; }
      if ending { return; }
      if text != None && depth == text.value.depth {
        var value := lx.clean(text.value.value);
        text := None;
        if value == "" { return; }
        if path != [] && path[0] == "sitemapindex" { sitemaps := sitemaps + [value]; }
        else if entry == None { return; }
        else if depth == 3 {
          entry := Some(entry.value.(locs := entry.value.locs + [value]));
          urls := urls + [value];
        } else if video {
          entry := Some(entry.value.(videos := SetLast(entry.value.videos, lx.local(name), value)));
        } else if news {
          entry := Some(entry.value.(news := SetLast(entry.value.news, lx.local(name), value)));
        }
        return;
      }
      if video && depth == 3 { video := false; return; }
      if news && depth == 3 { news := false; return; }
      if entry != None && depth == 2 {
        if entry.value.locs != [] { EmitEntry(entry.value.locs[0]); }
        entry := None;
      }
    }

    method EmitEntry(loc: string)
      requires entry.Some? && entry.value.locs != [] && loc == entry.value.locs[0]
      modifies `videos, `newsItems
      ensures Abs() == old(Abs()).(out := Emit(old(Abs().out), entry.value))
    {
      var e := entry.value;
      assert e.videos[0..] == e.videos && e.news[0..] == e.news;
      for i := 0 to |e.videos|
        invariant newsItems == old(newsItems)
        invariant videos + VideosOf(loc, e.videos[i..]) == old(videos) + VideosOf(loc, e.videos)
      {
        assert e.videos[i..][0] == e.videos[i] && e.videos[i..][1..] == e.videos[i + 1..];
        videos := videos + [VideoOf(loc, e.videos[i])];
      }
      assert e.videos[|e.videos|..] == [];
      for i := 0 to |e.news|
        invariant videos == old(videos) + VideosOf(loc, e.videos)
        invariant newsItems + NewsesOf(loc, e.news[i..]) == old(newsItems) + NewsesOf(loc, e.news)
      {
        assert e.news[i..][0] == e.news[i] && e.news[i..][1..] == e.news[i + 1..];
        newsItems := newsItems + [NewsOf(loc, e.news[i])];
      }
      assert e.news[|e.news|..] == [];
    }

    /** The tokenizer at work: a stretch of the document, as events. */
    method Write(evs: seq<Event>)
      requires !ending
      modifies this
      ensures !ending && Abs() == Run(lx, old(Abs()), evs)
    {
      assert evs[0..] == evs;
      for i := 0 to |evs|
        invariant !ending
        invariant Run(lx, Abs(), evs[i..]) == Run(lx, old(Abs()), evs)
      {
        assert evs[i..][0] == evs[i] && evs[i..][1..] == evs[i + 1..];
        match evs[i]
        case Open(name) => OnOpenTag(name);
        case Data(data) => OnTextData(data);
        case Close(name) => OnCloseTag(name);
      }
      assert evs[|evs|..] == [];
    }

    /**
     * Ends the parse and returns the lists. What is still open is closed, innermost first: as the document's own
     * closes would on a whole document, and with nothing written out on a cut one.
     */
    method End(complete: bool) returns (parsed: Parsed)
      requires !ending
      modifies this
      ensures parsed == if complete then Run(lx, old(Abs()), Closes(old(path))).out else old(Abs().out)
    {
      hide Run, OnClose, Closes;
      ending := !complete;
      while path != []
        invariant ending == !complete
        invariant !complete ==> Abs().out == old(Abs().out)
        invariant complete ==> Run(lx, Abs(), Closes(path)) == Run(lx, old(Abs()), Closes(old(path)))
        decreases |path|
      {
        FirstClose(lx, Abs(), path);
        OnCloseTag(path[|path| - 1]);
      }
      NoClose(lx, Abs());
      parsed := Parsed(urls, sitemaps, videos, newsItems);
    }
  }
}
