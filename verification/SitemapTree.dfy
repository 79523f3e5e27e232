/** The element tree the event machine replaced, read recursively, and the proof that the machine reads the same. */
module SitemapTree {
  import opened Jobs
  import opened Sitemap

  datatype Node = Text(data: string) | Element(name: string, children: seq<Node>)

  // ---- The document as events ----

  function Events(node: Node): (evs: seq<Event>)
    decreases node, 1
  {
    match node
    case Text(data) => [Data(data)]
    case Element(name, children) => [Open(name)] + AllEvents(children) + [Close(name)]
  }

  function AllEvents(nodes: seq<Node>): seq<Event>
    decreases nodes, 0
  {
    if nodes == [] then [] else Events(nodes[0]) + AllEvents(nodes[1..])
  }

  // ---- The document as a tree ----

  function Content(node: Node): string
    decreases node, 1
  {
    match node
    case Text(data) => data
    case Element(_, children) => AllContent(children)
  }

  /** All the text inside some nodes, however deep. */
  function AllContent(nodes: seq<Node>): string
    decreases nodes, 0
  {
    if nodes == [] then "" else Content(nodes[0]) + AllContent(nodes[1..])
  }

  function Named(fields: Fields, key: string, value: string): Fields {
    if value == "" then fields else fields[key := value]
  }

  /** The `loc` children with something in them. */
  function Locs(lx: Lexicon, nodes: seq<Node>): seq<string> {
    if nodes == [] then []
    else
      var rest := Locs(lx, nodes[1..]);
      match nodes[0]
      case Text(_) => rest
      case Element(name, children) =>
        var value := lx.clean(AllContent(children));
        if name == "loc" && value != "" then [value] + rest else rest
  }

  /** The fields of a video: every child element, by local name, the last of a name winning. */
  function VideoFields(lx: Lexicon, nodes: seq<Node>, fields: Fields): Fields
    decreases |nodes|
  {
    if nodes == [] then fields
    else
      match nodes[0]
      case Text(_) => VideoFields(lx, nodes[1..], fields)
      case Element(name, children) =>
        VideoFields(lx, nodes[1..], Named(fields, lx.local(name), lx.clean(AllContent(children))))
  }

  predicate IsField(lx: Lexicon, node: Node) {
    node.Element? && lx.local(node.name) in NEWS_FIELDS
  }

  predicate HoldsField(lx: Lexicon, nodes: seq<Node>) {
    exists k :: 0 <= k < |nodes| && IsField(lx, nodes[k])
  }

  /** The news fields among the children of a container. */
  function InnerFields(lx: Lexicon, nodes: seq<Node>, fields: Fields): Fields
    decreases |nodes|
  {
    if nodes == [] then fields
    else if IsField(lx, nodes[0]) then
      InnerFields(lx, nodes[1..], Named(fields, lx.local(nodes[0].name), lx.clean(AllContent(nodes[0].children))))
    else InnerFields(lx, nodes[1..], fields)
  }

  /** The fields of a news entry: a field child holding no other field is read; any other child is a container of fields. */
  function NewsFields(lx: Lexicon, nodes: seq<Node>, fields: Fields): Fields
    decreases |nodes|
  {
    if nodes == [] then fields
    else
      match nodes[0]
      case Text(_) => NewsFields(lx, nodes[1..], fields)
      case Element(name, children) => NewsFields(lx, nodes[1..], NewsChild(lx, name, children, fields))
  }

  function NewsChild(lx: Lexicon, name: string, children: seq<Node>, fields: Fields): Fields {
    if lx.local(name) in NEWS_FIELDS && !HoldsField(lx, children)
    then Named(fields, lx.local(name), lx.clean(AllContent(children)))
    else InnerFields(lx, children, fields)
  }

  /** What kind of child of a `url` this is. `loc` is an exact name; the extensions go by local name. */
  datatype Kind = IsLoc | IsVideo | IsNews | IsOther

  function KindOf(lx: Lexicon, name: string): Kind {
    if name == "loc" then IsLoc
    else if lx.local(name) == "video" then IsVideo
    else if lx.local(name) == "news" then IsNews
    else IsOther
  }

  function EntryVideos(lx: Lexicon, nodes: seq<Node>): seq<Fields> {
    if nodes == [] then []
    else
      var rest := EntryVideos(lx, nodes[1..]);
      if nodes[0].Element? && KindOf(lx, nodes[0].name) == IsVideo then [VideoFields(lx, nodes[0].children, map[])] + rest
      else rest
  }

  function EntryNews(lx: Lexicon, nodes: seq<Node>): seq<Fields> {
    if nodes == [] then []
    else
      var rest := EntryNews(lx, nodes[1..]);
      if nodes[0].Element? && KindOf(lx, nodes[0].name) == IsNews then [NewsFields(lx, nodes[0].children, map[])] + rest
      else rest
  }

  /** A `url`: its locs, and its videos and news under the first of them. */
  function ReadUrl(lx: Lexicon, nodes: seq<Node>): Parsed {
    var locs := Locs(lx, nodes);
    if locs == [] then Parsed([], [], [], [])
    else Parsed(locs, [], VideosOf(locs[0], EntryVideos(lx, nodes)), NewsesOf(locs[0], EntryNews(lx, nodes)))
  }

  function Plus(a: Parsed, b: Parsed): Parsed {
    Parsed(a.urls + b.urls, a.sitemaps + b.sitemaps, a.videos + b.videos, a.news + b.news)
  }

  /** The children of the root, each read as what the root makes of it. */
  function ReadChildren(lx: Lexicon, root: string, nodes: seq<Node>): Parsed
    decreases |nodes|
  {
    if nodes == [] then Parsed([], [], [], [])
    else
      var rest := ReadChildren(lx, root, nodes[1..]);
      if root == "urlset" && nodes[0].Element? && nodes[0].name == "url" then Plus(ReadUrl(lx, nodes[0].children), rest)
      else if root == "sitemapindex" && nodes[0].Element? && nodes[0].name == "sitemap" then
        Plus(Parsed([], Locs(lx, nodes[0].children), [], []), rest)
      else rest
  }

  function Read(lx: Lexicon, root: Node): Parsed {
    if root.Text? then Parsed([], [], [], []) else ReadChildren(lx, root.name, root.children)
  }

  // ---- Below what the machine looks at ----

  /** Every open and close from here down is one the machine makes nothing of. */
  predicate Deep(m: Machine) {
    && |m.path| >= 2
    && ((m.path[0] == "sitemapindex" && m.path[1] == "sitemap") || m.entry.Some? ==> |m.path| >= 3)
    && (m.video ==> |m.path| >= 4)
    && (m.news ==> |m.path| >= 5)
    && (m.text.Some? ==> m.text.value.depth <= |m.path|)
  }

  function Gather(m: Machine, data: string): Machine {
    if m.text == None then m else m.(text := Some(m.text.value.(value := m.text.value.value + data)))
  }

  /** Deep down, only the text of an open field changes. */
  lemma {:induction false} DeepNode(lx: Lexicon, m: Machine, node: Node)
    requires Deep(m)
    ensures Run(lx, m, Events(node)) == Gather(m, Content(node))
    decreases node, 1
  {
    match node {
      case Text(data) => RunOne(lx, m, Data(data));
      case Element(name, children) =>
        var inside := m.(path := m.path + [name]);
        assert OnOpen(lx, m, name) == inside;
        DeepNodes(lx, inside, children);
        RunElement(lx, m, name, children);
        var after := Gather(inside, AllContent(children));
        assert after.path[..|after.path| - 1] == m.path;
    }
  }

  lemma {:induction false} DeepNodes(lx: Lexicon, m: Machine, nodes: seq<Node>)
    requires Deep(m)
    ensures Run(lx, m, AllEvents(nodes)) == Gather(m, AllContent(nodes))
    decreases nodes, 0
  {
    if nodes != [] {
      DeepNode(lx, m, nodes[0]);
      DeepNodes(lx, Gather(m, Content(nodes[0])), nodes[1..]);
      RunSplit(lx, m, Events(nodes[0]), AllEvents(nodes[1..]));
      if m.text.Some? {
        assert m.text.value.value + Content(nodes[0]) + AllContent(nodes[1..])
          == m.text.value.value + (Content(nodes[0]) + AllContent(nodes[1..]));
      }
    } else {
      if m.text.Some? { assert m.text.value.value + "" == m.text.value.value; }
    }
  }

  /** An element's events: its open, its children's, its close. */
  lemma RunElement(lx: Lexicon, m: Machine, name: string, children: seq<Node>)
    ensures Run(lx, m, Events(Element(name, children)))
      == OnClose(lx, Run(lx, OnOpen(lx, m, name), AllEvents(children)), name)
  {
    RunSplit(lx, m, [Open(name)] + AllEvents(children), [Close(name)]);
    RunSplit(lx, m, [Open(name)], AllEvents(children));
    RunOne(lx, m, Open(name));
    RunOne(lx, Run(lx, OnOpen(lx, m, name), AllEvents(children)), Close(name));
  }

  // ---- Inside a url ----

  /** Standing in a child of a `url`, or deeper, with nothing being gathered. */
  predicate InUrl(m: Machine, depth: nat) {
    |m.path| == depth && depth >= 1 && m.path[0] == "urlset" && m.entry.Some? && m.text == None
  }

  /** The entry with the last of its videos, or of its news, replaced. */
  function WithVideo(m: Machine, fields: Fields): Machine
    requires m.entry.Some? && m.entry.value.videos != []
  {
    var all := m.entry.value.videos;
    m.(entry := Some(m.entry.value.(videos := all[|all| - 1 := fields])))
  }

  function WithNews(m: Machine, fields: Fields): Machine
    requires m.entry.Some? && m.entry.value.news != []
  {
    var all := m.entry.value.news;
    m.(entry := Some(m.entry.value.(news := all[|all| - 1 := fields])))
  }

  function LastVideo(m: Machine): Fields
    requires m.entry.Some? && m.entry.value.videos != []
  {
    m.entry.value.videos[|m.entry.value.videos| - 1]
  }

  function LastNews(m: Machine): Fields
    requires m.entry.Some? && m.entry.value.news != []
  {
    m.entry.value.news[|m.entry.value.news| - 1]
  }

  lemma WithVideoTwice(m: Machine, a: Fields, b: Fields)
    requires m.entry.Some? && m.entry.value.videos != []
    ensures LastVideo(WithVideo(m, a)) == a && WithVideo(WithVideo(m, a), b) == WithVideo(m, b)
    ensures WithVideo(m, LastVideo(m)) == m
  {
    var all := m.entry.value.videos;
    assert all[|all| - 1 := a][|all| - 1 := b] == all[|all| - 1 := b];
    assert all[|all| - 1 := LastVideo(m)] == all;
  }

  lemma WithNewsTwice(m: Machine, a: Fields, b: Fields)
    requires m.entry.Some? && m.entry.value.news != []
    ensures LastNews(WithNews(m, a)) == a && WithNews(WithNews(m, a), b) == WithNews(m, b)
    ensures WithNews(m, LastNews(m)) == m
  {
    var all := m.entry.value.news;
    assert all[|all| - 1 := a][|all| - 1 := b] == all[|all| - 1 := b];
    assert all[|all| - 1 := LastNews(m)] == all;
  }

  /** A field opened at the next depth, its text gathered however deep it lies, and closed. */
  lemma RunField(lx: Lexicon, m: Machine, name: string, children: seq<Node>)
    requires |m.path| >= 2 && OnOpen(lx, m, name) == m.(path := m.path + [name], text := Some(Field(|m.path| + 1, "")))
    requires Deep(OnOpen(lx, m, name))
    ensures Run(lx, m, Events(Element(name, children)))
      == var value := lx.clean(AllContent(children));
         var shut := m.(text := None);
         if value == "" then shut else Keep(lx, shut, |m.path| + 1, name, value)
  {
    hide OnOpen, OnClose, Deep, Keep, Run, Events, AllEvents;
    RunElement(lx, m, name, children);
    DeepNodes(lx, OnOpen(lx, m, name), children);
    assert "" + AllContent(children) == AllContent(children);
    CloseField(lx, m, name, AllContent(children));
  }

  lemma CloseField(lx: Lexicon, m: Machine, name: string, content: string)
    ensures OnClose(lx, m.(path := m.path + [name], text := Some(Field(|m.path| + 1, content))), name)
      == var value := lx.clean(content);
         var shut := m.(text := None);
         if value == "" then shut else Keep(lx, shut, |m.path| + 1, name, value)
  {
    hide Keep;
    assert (m.path + [name])[..|m.path|] == m.path;
  }

  /** An element the machine makes nothing of, nor of anything inside it. */
  lemma RunNothing(lx: Lexicon, m: Machine, name: string, children: seq<Node>)
    requires OnOpen(lx, m, name) == m.(path := m.path + [name]) && Deep(OnOpen(lx, m, name)) && m.text == None
    requires |m.path| == 1 ==> m.entry == None
    requires |m.path| == 2 ==> !m.video && !m.news
    ensures Run(lx, m, Events(Element(name, children))) == m
  {
    var inside := OnOpen(lx, m, name);
    RunElement(lx, m, name, children);
    DeepNodes(lx, inside, children);
    assert inside.path[..|inside.path| - 1] == m.path;
  }

  lemma {:induction false} RunVideo(lx: Lexicon, m: Machine, nodes: seq<Node>)
    requires InUrl(m, 3) && m.video && !m.news && m.entry.value.videos != []
    ensures Run(lx, m, AllEvents(nodes)) == WithVideo(m, VideoFields(lx, nodes, LastVideo(m)))
    decreases |nodes|
  {
    if nodes == [] {
      WithVideoTwice(m, LastVideo(m), LastVideo(m));
    } else {
      RunSplit(lx, m, Events(nodes[0]), AllEvents(nodes[1..]));
      match nodes[0] {
        case Text(data) =>
          RunOne(lx, m, Data(data));
          RunVideo(lx, m, nodes[1..]);
        case Element(name, children) =>
          var fields := Named(LastVideo(m), lx.local(name), lx.clean(AllContent(children)));
          RunVideoChild(lx, m, name, children);
          WithVideoTwice(m, fields, VideoFields(lx, nodes[1..], fields));
          RunVideo(lx, WithVideo(m, fields), nodes[1..]);
      }
    }
  }

  lemma RunVideoChild(lx: Lexicon, m: Machine, name: string, children: seq<Node>)
    requires InUrl(m, 3) && m.video && !m.news && m.entry.value.videos != []
    ensures Run(lx, m, Events(Element(name, children)))
      == WithVideo(m, Named(LastVideo(m), lx.local(name), lx.clean(AllContent(children))))
  {
    hide Run, Events;
    RunField(lx, m, name, children);
    WithVideoTwice(m, LastVideo(m), LastVideo(m));
  }

  /** A news field with no field inside it gathers everything inside it. */
  lemma {:induction false} RunPlainField(lx: Lexicon, m: Machine, nodes: seq<Node>)
    requires |m.path| == 4 && m.entry.Some? && m.news && !m.video && m.text.Some? && m.text.value.depth == 4
    requires m.path[0] == "urlset" && !HoldsField(lx, nodes)
    ensures Run(lx, m, AllEvents(nodes)) == Gather(m, AllContent(nodes))
    decreases |nodes|
  {
    if nodes == [] { assert m.text.value.value + "" == m.text.value.value; }
    else {
      assert !IsField(lx, nodes[0]);
      assert !HoldsField(lx, nodes[1..]) by {
        forall k | 0 <= k < |nodes[1..]| ensures !IsField(lx, nodes[1..][k]) { assert nodes[1..][k] == nodes[k + 1]; }
      }
      RunSplit(lx, m, Events(nodes[0]), AllEvents(nodes[1..]));
      UnreadChild(lx, m, nodes[0]);
      RunPlainField(lx, Gather(m, Content(nodes[0])), nodes[1..]);
      assert m.text.value.value + Content(nodes[0]) + AllContent(nodes[1..])
        == m.text.value.value + (Content(nodes[0]) + AllContent(nodes[1..]));
    }
  }

  /** Inside a child of a news entry, a node that is no field only adds to whatever text is being gathered. */
  lemma UnreadChild(lx: Lexicon, m: Machine, node: Node)
    requires |m.path| == 4 && m.path[0] == "urlset" && m.entry.Some? && m.news && !m.video
    requires m.text.Some? ==> m.text.value.depth == 4
    requires !IsField(lx, node)
    ensures Run(lx, m, Events(node)) == Gather(m, Content(node))
  {
    match node {
      case Text(data) => RunOne(lx, m, Data(data));
      case Element(name, children) =>
        var inside := m.(path := m.path + [name]);
        assert OnOpen(lx, m, name) == inside;
        RunElement(lx, m, name, children);
        DeepNodes(lx, inside, children);
        var after := Gather(inside, AllContent(children));
        assert after.path[..|after.path| - 1] == m.path;
    }
  }

  lemma RunInnerField(lx: Lexicon, m: Machine, node: Node)
    requires |m.path| == 4 && m.path[0] == "urlset" && m.entry.Some? && m.news && !m.video && m.entry.value.news != []
    requires IsField(lx, node)
    ensures Run(lx, m, Events(node))
      == WithNews(m, Named(LastNews(m), lx.local(node.name), lx.clean(AllContent(node.children)))).(text := None)
  {
    hide Run, Events;
    RunField(lx, m, node.name, node.children);
    WithNewsTwice(m, LastNews(m), LastNews(m));
  }

  /** A child of a news entry read as a container: each field in it is read, and its own text comes to nothing. */
  lemma {:induction false} RunContainer(lx: Lexicon, m: Machine, nodes: seq<Node>)
    requires |m.path| == 4 && m.path[0] == "urlset" && m.entry.Some? && m.news && !m.video && m.entry.value.news != []
    requires m.text.Some? ==> m.text.value.depth == 4
    ensures
      var r := Run(lx, m, AllEvents(nodes));
      && r == WithNews(m, InnerFields(lx, nodes, LastNews(m))).(text := r.text)
      && (r.text.Some? ==> m.text.Some? && r.text.value.depth == 4 && !HoldsField(lx, nodes))
    decreases |nodes|
  {
    hide OnOpen, OnClose;
    if nodes == [] {
      WithNewsTwice(m, LastNews(m), LastNews(m));
    } else {
      RunSplit(lx, m, Events(nodes[0]), AllEvents(nodes[1..]));
      if IsField(lx, nodes[0]) {
        var fields := Named(LastNews(m), lx.local(nodes[0].name), lx.clean(AllContent(nodes[0].children)));
        RunInnerField(lx, m, nodes[0]);
        WithNewsTwice(m, fields, InnerFields(lx, nodes[1..], fields));
        RunContainer(lx, WithNews(m, fields).(text := None), nodes[1..]);
      } else {
        UnreadChild(lx, m, nodes[0]);
        RunContainer(lx, Gather(m, Content(nodes[0])), nodes[1..]);
        if HoldsField(lx, nodes) {
          var k :| 0 <= k < |nodes| && IsField(lx, nodes[k]);
          assert nodes[1..][k - 1] == nodes[k];
        }
      }
    }
  }

  /** One element child of a news entry. */
  lemma RunNewsChild(lx: Lexicon, m: Machine, name: string, children: seq<Node>)
    requires InUrl(m, 3) && m.news && !m.video && m.entry.value.news != []
    ensures
      Run(lx, m, Events(Element(name, children))) == WithNews(m, NewsChild(lx, name, children, LastNews(m)))
  {
    var inside := OnOpen(lx, m, name);
    RunElement(lx, m, name, children);
    WithNewsTwice(m, LastNews(m), LastNews(m));
    assert inside.path[..3] == m.path;
    if lx.local(name) in NEWS_FIELDS && !HoldsField(lx, children) {
      RunPlainField(lx, inside, children);
      assert "" + AllContent(children) == AllContent(children);
    } else {
      RunContainer(lx, inside, children);
    }
  }

  lemma {:induction false} RunNews(lx: Lexicon, m: Machine, nodes: seq<Node>)
    requires InUrl(m, 3) && m.news && !m.video && m.entry.value.news != []
    ensures Run(lx, m, AllEvents(nodes)) == WithNews(m, NewsFields(lx, nodes, LastNews(m)))
    decreases |nodes|
  {
    hide OnOpen, OnClose;
    if nodes == [] {
      WithNewsTwice(m, LastNews(m), LastNews(m));
    } else {
      RunSplit(lx, m, Events(nodes[0]), AllEvents(nodes[1..]));
      match nodes[0] {
        case Text(data) =>
          RunOne(lx, m, Data(data));
          RunNews(lx, m, nodes[1..]);
        case Element(name, children) =>
          var fields := NewsChild(lx, name, children, LastNews(m));
          RunNewsChild(lx, m, name, children);
          WithNewsTwice(m, fields, NewsFields(lx, nodes[1..], fields));
          RunNews(lx, WithNews(m, fields), nodes[1..]);
      }
    }
  }

  /** The entry, and the urls, once these children of a `url` have been read. */
  function WithChildren(lx: Lexicon, m: Machine, nodes: seq<Node>): Machine
    requires m.entry.Some?
  {
    var e := m.entry.value;
    m.(entry := Some(OpenEntry(e.locs + Locs(lx, nodes), e.videos + EntryVideos(lx, nodes), e.news + EntryNews(lx, nodes))),
       out := m.out.(urls := m.out.urls + Locs(lx, nodes)))
  }

  /** One child of a `url`, on its own. */
  lemma Single(lx: Lexicon, name: string, children: seq<Node>)
    ensures
      var node, kind := Element(name, children), KindOf(lx, name);
      var value := lx.clean(AllContent(children));
      && Locs(lx, [node]) == (if kind == IsLoc && value != "" then [value] else [])
      && EntryVideos(lx, [node]) == (if kind == IsVideo then [VideoFields(lx, children, map[])] else [])
      && EntryNews(lx, [node]) == (if kind == IsNews then [NewsFields(lx, children, map[])] else [])
  {
    var node := Element(name, children);
    assert [node][1..] == [];
    assert Locs(lx, []) == [] && EntryVideos(lx, []) == [] && EntryNews(lx, []) == [];
  }

  lemma AddNothing(m: Machine)
    requires m.entry.Some?
    ensures
      var e := m.entry.value;
      e.locs + [] == e.locs && e.videos + [] == e.videos && e.news + [] == e.news && m.out.urls + [] == m.out.urls
  {
  }

  lemma RunLocChild(lx: Lexicon, m: Machine, children: seq<Node>)
    requires InUrl(m, 2) && !m.video && !m.news
    ensures Run(lx, m, Events(Element("loc", children))) == WithChildren(lx, m, [Element("loc", children)])
  {
    hide Run, Events, AllContent, Locs, EntryVideos, EntryNews;
    RunField(lx, m, "loc", children);
    Single(lx, "loc", children);
    AddNothing(m);
  }

  lemma RunVideoChildren(lx: Lexicon, m: Machine, name: string, children: seq<Node>)
    requires InUrl(m, 2) && !m.video && !m.news && KindOf(lx, name) == IsVideo
    ensures Run(lx, m, Events(Element(name, children))) == WithChildren(lx, m, [Element(name, children)])
  {
    hide Run, Events, VideoFields, NewsFields, Locs, EntryVideos, EntryNews;
    var e := m.entry.value;
    var inside := OnOpen(lx, m, name);
    RunElement(lx, m, name, children);
    RunVideo(lx, inside, children);
    assert inside.path[..2] == m.path;
    assert (e.videos + [map[]])[|e.videos| := VideoFields(lx, children, map[])] == e.videos + [VideoFields(lx, children, map[])];
    Single(lx, name, children);
    AddNothing(m);
  }

  lemma RunNewsChildren(lx: Lexicon, m: Machine, name: string, children: seq<Node>)
    requires InUrl(m, 2) && !m.video && !m.news && KindOf(lx, name) == IsNews
    ensures Run(lx, m, Events(Element(name, children))) == WithChildren(lx, m, [Element(name, children)])
  {
    hide Run, Events, VideoFields, NewsFields, Locs, EntryVideos, EntryNews;
    var e := m.entry.value;
    var inside := OnOpen(lx, m, name);
    RunElement(lx, m, name, children);
    RunNews(lx, inside, children);
    assert inside.path[..2] == m.path;
    assert (e.news + [map[]])[|e.news| := NewsFields(lx, children, map[])] == e.news + [NewsFields(lx, children, map[])];
    Single(lx, name, children);
    AddNothing(m);
  }

  lemma RunUrlChild(lx: Lexicon, m: Machine, node: Node)
    requires InUrl(m, 2) && !m.video && !m.news
    ensures Run(lx, m, Events(node)) == WithChildren(lx, m, [node])
  {
    match node {
      case Text(data) => RunOtherChild(lx, m, node);
      case Element(name, children) =>
        match KindOf(lx, name)
        case IsLoc => RunLocChild(lx, m, children);
        case IsOther => RunOtherChild(lx, m, node);
        case IsVideo => RunVideoChildren(lx, m, name, children);
        case IsNews => RunNewsChildren(lx, m, name, children);
    }
  }

  lemma RunOtherChild(lx: Lexicon, m: Machine, node: Node)
    requires InUrl(m, 2) && !m.video && !m.news && (node.Element? ==> KindOf(lx, node.name) == IsOther)
    ensures Run(lx, m, Events(node)) == WithChildren(lx, m, [node])
  {
    var e := m.entry.value;
    assert [node][1..] == [];
    if node.Text? { RunOne(lx, m, Data(node.data)); } else { RunNothing(lx, m, node.name, node.children); }
    assert Locs(lx, [node]) == [] && EntryVideos(lx, [node]) == [] && EntryNews(lx, [node]) == [];
    assert e.locs + [] == e.locs && e.videos + [] == e.videos && e.news + [] == e.news && m.out.urls + [] == m.out.urls;
  }

  lemma {:induction false} RunUrlChildren(lx: Lexicon, m: Machine, nodes: seq<Node>)
    requires InUrl(m, 2) && !m.video && !m.news
    ensures Run(lx, m, AllEvents(nodes)) == WithChildren(lx, m, nodes)
    decreases |nodes|
  {
    if nodes != [] {
      RunSplit(lx, m, Events(nodes[0]), AllEvents(nodes[1..]));
      RunUrlChild(lx, m, nodes[0]);
      RunUrlChildren(lx, WithChildren(lx, m, [nodes[0]]), nodes[1..]);
      WithOneThenRest(lx, m, nodes);
    } else {
      var e := m.entry.value;
      assert e.locs + [] == e.locs && e.videos + [] == e.videos && e.news + [] == e.news && m.out.urls + [] == m.out.urls;
    }
  }

  lemma WithOneThenRest(lx: Lexicon, m: Machine, nodes: seq<Node>)
    requires nodes != [] && m.entry.Some?
    ensures WithChildren(lx, WithChildren(lx, m, [nodes[0]]), nodes[1..]) == WithChildren(lx, m, nodes)
  {
    hide Locs, EntryVideos, EntryNews;
    var e := m.entry.value;
    OneThenRest(lx, nodes);
    var a, b := [nodes[0]], nodes[1..];
    assert e.locs + (Locs(lx, a) + Locs(lx, b)) == e.locs + Locs(lx, a) + Locs(lx, b);
    assert e.videos + (EntryVideos(lx, a) + EntryVideos(lx, b)) == e.videos + EntryVideos(lx, a) + EntryVideos(lx, b);
    assert e.news + (EntryNews(lx, a) + EntryNews(lx, b)) == e.news + EntryNews(lx, a) + EntryNews(lx, b);
    assert m.out.urls + (Locs(lx, a) + Locs(lx, b)) == m.out.urls + Locs(lx, a) + Locs(lx, b);
  }

  lemma OneThenRest(lx: Lexicon, nodes: seq<Node>)
    requires nodes != []
    ensures Locs(lx, nodes) == Locs(lx, [nodes[0]]) + Locs(lx, nodes[1..])
    ensures EntryVideos(lx, nodes) == EntryVideos(lx, [nodes[0]]) + EntryVideos(lx, nodes[1..])
    ensures EntryNews(lx, nodes) == EntryNews(lx, [nodes[0]]) + EntryNews(lx, nodes[1..])
  {
    hide Locs, EntryVideos, EntryNews;
    OneLocThenRest(lx, nodes);
    OneVideoThenRest(lx, nodes);
    OneNewsThenRest(lx, nodes);
  }

  lemma OneLocThenRest(lx: Lexicon, nodes: seq<Node>)
    requires nodes != []
    ensures Locs(lx, nodes) == Locs(lx, [nodes[0]]) + Locs(lx, nodes[1..])
  {
    assert [nodes[0]][1..] == [];
  }

  lemma OneVideoThenRest(lx: Lexicon, nodes: seq<Node>)
    requires nodes != []
    ensures EntryVideos(lx, nodes) == EntryVideos(lx, [nodes[0]]) + EntryVideos(lx, nodes[1..])
  {
    assert [nodes[0]][1..] == [];
  }

  lemma OneNewsThenRest(lx: Lexicon, nodes: seq<Node>)
    requires nodes != []
    ensures EntryNews(lx, nodes) == EntryNews(lx, [nodes[0]]) + EntryNews(lx, nodes[1..])
  {
    assert [nodes[0]][1..] == [];
  }

  // ---- The whole document ----

  /** Standing in a root's children, with nothing open and nothing being gathered. */
  predicate Between(m: Machine, depth: nat) {
    |m.path| == depth && depth >= 1 && m.entry == None && !m.video && !m.news && m.text == None
  }

  function WithOut(m: Machine, more: Parsed): Machine {
    m.(out := Plus(m.out, more))
  }

  lemma PlusNothing(a: Parsed)
    ensures Plus(a, Parsed([], [], [], [])) == a && Plus(Parsed([], [], [], []), a) == a
  {
  }

  lemma PlusPlus(a: Parsed, b: Parsed, c: Parsed)
    ensures Plus(Plus(a, b), c) == Plus(a, Plus(b, c))
  {
    assert a.urls + b.urls + c.urls == a.urls + (b.urls + c.urls);
    assert a.sitemaps + b.sitemaps + c.sitemaps == a.sitemaps + (b.sitemaps + c.sitemaps);
    assert a.videos + b.videos + c.videos == a.videos + (b.videos + c.videos);
    assert a.news + b.news + c.news == a.news + (b.news + c.news);
  }

  lemma RunUrl(lx: Lexicon, m: Machine, children: seq<Node>)
    requires Between(m, 1) && m.path == ["urlset"]
    ensures Run(lx, m, Events(Element("url", children))) == WithOut(m, ReadUrl(lx, children))
  {
    hide AllEvents, Events, Run, Locs, EntryVideos, EntryNews;
    var inside := OnOpen(lx, m, "url");
    RunElement(lx, m, "url", children);
    RunUrlChildren(lx, inside, children);
    assert inside.path[..1] == m.path;
    var locs, videos, news := Locs(lx, children), EntryVideos(lx, children), EntryNews(lx, children);
    assert [] + locs == locs && [] + videos == videos && [] + news == news;
    PlusNothing(m.out);
    assert m.out.sitemaps + [] == m.out.sitemaps;
  }

  lemma {:induction false} RunIndexChildren(lx: Lexicon, m: Machine, nodes: seq<Node>)
    requires Between(m, 2) && m.path == ["sitemapindex", "sitemap"]
    ensures Run(lx, m, AllEvents(nodes)) == WithOut(m, Parsed([], Locs(lx, nodes), [], []))
    decreases |nodes|
  {
    if nodes == [] { PlusNothing(m.out); }
    else {
      RunSplit(lx, m, Events(nodes[0]), AllEvents(nodes[1..]));
      RunIndexChild(lx, m, nodes[0]);
      var one, rest := Parsed([], Locs(lx, [nodes[0]]), [], []), Parsed([], Locs(lx, nodes[1..]), [], []);
      RunIndexChildren(lx, WithOut(m, one), nodes[1..]);
      PlusPlus(m.out, one, rest);
      OneThenRest(lx, nodes);
    }
  }

  lemma RunIndexChild(lx: Lexicon, m: Machine, node: Node)
    requires Between(m, 2) && m.path == ["sitemapindex", "sitemap"]
    ensures Run(lx, m, Events(node)) == WithOut(m, Parsed([], Locs(lx, [node]), [], []))
  {
    hide Run, Events, AllContent;
    assert [node][1..] == [];
    PlusNothing(m.out);
    match node {
      case Text(data) =>
        assert Events(node) == [Data(data)] by { TextEvents(data); }
        RunOne(lx, m, Data(data));
        assert Locs(lx, [node]) == [];
      case Element(name, children) =>
        if name == "loc" {
          var value := lx.clean(AllContent(children));
          RunField(lx, m, name, children);
          assert Locs(lx, [node]) == if value == "" then [] else [value];
        } else {
          RunNothing(lx, m, name, children);
          assert Locs(lx, [node]) == [];
        }
    }
  }

  lemma TextEvents(data: string)
    ensures Events(Text(data)) == [Data(data)]
  {
  }

  lemma RunIndexEntry(lx: Lexicon, m: Machine, children: seq<Node>)
    requires Between(m, 1) && m.path == ["sitemapindex"]
    ensures Run(lx, m, Events(Element("sitemap", children))) == WithOut(m, Parsed([], Locs(lx, children), [], []))
  {
    hide AllEvents, Events, Run;
    var inside := OnOpen(lx, m, "sitemap");
    assert inside.path == ["sitemapindex", "sitemap"] && inside.path[..1] == m.path;
    RunElement(lx, m, "sitemap", children);
    RunIndexChildren(lx, inside, children);
  }

  /** What one child of the root comes to. */
  function ReadChild(lx: Lexicon, root: string, node: Node): Parsed {
    if root == "urlset" && node.Element? && node.name == "url" then ReadUrl(lx, node.children)
    else if root == "sitemapindex" && node.Element? && node.name == "sitemap" then Parsed([], Locs(lx, node.children), [], [])
    else Parsed([], [], [], [])
  }

  lemma RunRootChild(lx: Lexicon, m: Machine, root: string, node: Node)
    requires Between(m, 1) && m.path == [root]
    ensures Run(lx, m, Events(node)) == WithOut(m, ReadChild(lx, root, node))
  {
    hide Run, ReadUrl, Locs, AllEvents;
    PlusNothing(m.out);
    match node {
      case Text(data) => RunOne(lx, m, Data(data));
      case Element(name, children) =>
        if root == "urlset" && name == "url" { RunUrl(lx, m, children); }
        else if root == "sitemapindex" && name == "sitemap" { RunIndexEntry(lx, m, children); }
        else { RunNothing(lx, m, name, children); }
    }
  }

  lemma {:induction false} RunRootChildren(lx: Lexicon, m: Machine, root: string, nodes: seq<Node>)
    requires Between(m, 1) && m.path == [root]
    ensures Run(lx, m, AllEvents(nodes)) == WithOut(m, ReadChildren(lx, root, nodes))
    decreases |nodes|
  {
    hide ReadUrl, Locs, Events;
    if nodes == [] { PlusNothing(m.out); }
    else {
      RunSplit(lx, m, Events(nodes[0]), AllEvents(nodes[1..]));
      RunRootChild(lx, m, root, nodes[0]);
      var one, rest := ReadChild(lx, root, nodes[0]), ReadChildren(lx, root, nodes[1..]);
      RunRootChildren(lx, WithOut(m, one), root, nodes[1..]);
      PlusPlus(m.out, one, rest);
      PlusNothing(rest);
    }
  }

  /** The event machine reads every document as its tree reads, and ends as it began. */
  lemma StreamReadsTree(lx: Lexicon, root: Node)
    ensures Run(lx, Start(), Events(root)) == Start().(out := Read(lx, root))
  {
    hide ReadChildren;
    match root {
      case Text(data) => RunOne(lx, Start(), Data(data));
      case Element(name, children) =>
        var inside := OnOpen(lx, Start(), name);
        assert inside == Start().(path := [name]);
        RunElement(lx, Start(), name, children);
        RunRootChildren(lx, inside, name, children);
        PlusNothing(ReadChildren(lx, name, children));
        assert [name][..0] == [];
    }
  }

  /** A cut anywhere in the document gives prefixes of what the tree reads. */
  lemma CutReadsPrefix(lx: Lexicon, root: Node, before: seq<Event>, after: seq<Event>)
    requires before + after == Events(root)
    ensures Extends(Run(lx, Start(), before).out, Read(lx, root))
  {
    StreamReadsTree(lx, root);
    RunSplit(lx, Start(), before, after);
    CutIsPrefix(lx, Run(lx, Start(), before), after);
  }

  // ---- The entry a cut severs ----

  /** How many more elements these events open than they close. */
  function Rise(evs: seq<Event>): int {
    if evs == [] then 0
    else Rise(evs[..|evs| - 1]) + match evs[|evs| - 1] case Open(_) => 1 case Data(_) => 0 case Close(_) => -1
  }

  /** They never close an element they did not open. */
  ghost predicate NeverBelow(evs: seq<Event>) {
    forall k :: 0 <= k <= |evs| ==> Rise(evs[..k]) >= 0
  }

  lemma {:induction false} RiseAdds(a: seq<Event>, b: seq<Event>)
    ensures Rise(a + b) == Rise(a) + Rise(b)
    decreases |b|
  {
    if b == [] { assert a + b == a; }
    else {
      assert (a + b)[..|a + b| - 1] == a + b[..|b| - 1];
      RiseAdds(a, b[..|b| - 1]);
    }
  }

  lemma NeverBelowJoins(a: seq<Event>, b: seq<Event>)
    requires NeverBelow(a) && NeverBelow(b)
    ensures NeverBelow(a + b)
  {
    assert a[..|a|] == a;
    forall k | 0 <= k <= |a + b| ensures Rise((a + b)[..k]) >= 0 {
      if k <= |a| { assert (a + b)[..k] == a[..k]; }
      else {
        assert (a + b)[..k] == a + b[..k - |a|];
        RiseAdds(a, b[..k - |a|]);
      }
    }
  }

  lemma {:induction false} NodeLevel(node: Node)
    ensures Rise(Events(node)) == 0 && NeverBelow(Events(node))
    decreases node, 1
  {
    match node {
      case Text(data) => OneLevel(Data(data));
      case Element(name, children) =>
        NodesLevel(children);
        var inside := AllEvents(children);
        OneLevel(Open(name));
        OneLevel(Close(name));
        NeverBelowJoins([Open(name)], inside);
        RiseAdds([Open(name)], inside);
        RiseAdds([Open(name)] + inside, [Close(name)]);
        forall k | 0 <= k <= |Events(node)| ensures Rise(Events(node)[..k]) >= 0 {
          if k < |Events(node)| { assert Events(node)[..k] == ([Open(name)] + inside)[..k]; }
          else { assert Events(node)[..k] == Events(node); }
        }
    }
  }

  lemma OneLevel(ev: Event)
    ensures Rise([ev]) == match ev case Open(_) => 1 case Data(_) => 0 case Close(_) => -1
    ensures !ev.Close? ==> NeverBelow([ev])
  {
    assert [ev][..0] == [] && [ev][..1] == [ev];
  }

  lemma {:induction false} NodesLevel(nodes: seq<Node>)
    ensures Rise(AllEvents(nodes)) == 0 && NeverBelow(AllEvents(nodes))
    decreases nodes, 0
  {
    if nodes != [] {
      NodeLevel(nodes[0]);
      NodesLevel(nodes[1..]);
      RiseAdds(Events(nodes[0]), AllEvents(nodes[1..]));
      NeverBelowJoins(Events(nodes[0]), AllEvents(nodes[1..]));
    }
  }

  lemma StepInside(lx: Lexicon, m: Machine, ev: Event)
    requires |m.path| >= 2 && (ev.Close? ==> |m.path| >= 3)
    ensures
      var r := Step(lx, m, ev);
      && r.out.videos == m.out.videos && r.out.news == m.out.news
      && |r.path| == |m.path| + match ev case Open(_) => 1 case Data(_) => 0 case Close(_) => -1
  {
  }

  /** Until an entry closes, nothing of it is written but its locs. */
  lemma {:induction false} OpenEntryUnwritten(lx: Lexicon, m: Machine, evs: seq<Event>)
    requires |m.path| >= 2 && NeverBelow(evs)
    ensures
      var r := Run(lx, m, evs);
      r.out.videos == m.out.videos && r.out.news == m.out.news && |r.path| == |m.path| + Rise(evs)
    decreases |evs|
  {
    if evs != [] {
      var most, last := evs[..|evs| - 1], evs[|evs| - 1];
      assert evs == most + [last] && evs[..|evs|] == evs;
      assert Rise(evs[..|evs|]) >= 0;
      PrefixNeverBelow(evs, |evs| - 1);
      OpenEntryUnwritten(lx, m, most);
      RunSplit(lx, m, most, [last]);
      RunOne(lx, Run(lx, m, most), last);
      StepInside(lx, Run(lx, m, most), last);
    }
  }

  /**
   * Every entry that closed before a cut is kept whole, and the one the cut severs is dropped: its videos and
   * its news are those of the entries before it, and no more.
   */
  lemma SeveredEntryDropped(lx: Lexicon, children: seq<Node>, k: nat, part: seq<Event>, rest: seq<Event>)
    requires k < |children| && Events(children[k]) == part + rest && rest != []
    ensures
      var cut := Run(lx, Start(), [Open("urlset")] + AllEvents(children[..k]) + part).out;
      var whole := ReadChildren(lx, "urlset", children[..k]);
      cut.videos == whole.videos && cut.news == whole.news
  {
    hide ReadChildren, OnClose, Rise, Deep;
    var root := Start().(path := ["urlset"]);
    RunSplit(lx, Start(), [Open("urlset")] + AllEvents(children[..k]), part);
    RunSplit(lx, Start(), [Open("urlset")], AllEvents(children[..k]));
    RunOne(lx, Start(), Open("urlset"));
    assert [] + ["urlset"] == ["urlset"];
    RunRootChildren(lx, root, "urlset", children[..k]);
    var m := WithOut(root, ReadChildren(lx, "urlset", children[..k]));
    PlusNothing(ReadChildren(lx, "urlset", children[..k]));
    if part != [] && children[k].Element? {
      var name, inside := children[k].name, AllEvents(children[k].children);
      var within := OnOpen(lx, m, name);
      PartOfElement(name, inside, part, rest);
      NodesLevel(children[k].children);
      PrefixNeverBelow(inside, |part| - 1);
      RunSplit(lx, m, [Open(name)], part[1..]);
      RunOne(lx, m, Open(name));
      OpenEntryUnwritten(lx, within, part[1..]);
    }
  }

  lemma StepDeeper(lx: Lexicon, m: Machine, ev: Event)
    requires |m.path| >= 3 && m.path[0] == "urlset" && (ev.Close? ==> |m.path| >= 4)
    ensures
      var r := Step(lx, m, ev);
      && r.out.urls == m.out.urls && r.out.sitemaps == m.out.sitemaps && r.path != [] && r.path[0] == "urlset"
      && |r.path| == |m.path| + match ev case Open(_) => 1 case Data(_) => 0 case Close(_) => -1
  {
  }

  /** Inside a child of a `url` that has not closed, no loc is written. */
  lemma {:induction false} OpenChildUnwritten(lx: Lexicon, m: Machine, evs: seq<Event>)
    requires |m.path| >= 3 && m.path[0] == "urlset" && NeverBelow(evs)
    ensures
      var r := Run(lx, m, evs);
      && r.out.urls == m.out.urls && r.out.sitemaps == m.out.sitemaps && r.path != [] && r.path[0] == "urlset"
      && |r.path| == |m.path| + Rise(evs)
    decreases |evs|
  {
    if evs != [] {
      var most, last := evs[..|evs| - 1], evs[|evs| - 1];
      assert evs == most + [last] && evs[..|evs|] == evs;
      assert Rise(evs[..|evs|]) >= 0;
      PrefixNeverBelow(evs, |evs| - 1);
      OpenChildUnwritten(lx, m, most);
      RunSplit(lx, m, most, [last]);
      RunOne(lx, Run(lx, m, most), last);
      StepDeeper(lx, Run(lx, m, most), last);
    }
  }

  /**
   * What is kept of a severed entry. Cut inside its child number `j`, or after its last, it leaves in the list of
   * urls the locs that had closed, every one and no other, though its videos and its news are dropped.
   */
  lemma SeveredLocsStay(lx: Lexicon, children: seq<Node>, k: nat, j: nat, part: seq<Event>, rest: seq<Event>)
    requires k < |children| && children[k].Element? && children[k].name == "url" && j <= |children[k].children|
    requires if j < |children[k].children| then Events(children[k].children[j]) == part + rest && rest != [] else part == []
    ensures
      var kids := children[k].children;
      var cut := Run(lx, Start(), [Open("urlset")] + AllEvents(children[..k]) + ([Open("url")] + AllEvents(kids[..j]) + part)).out;
      var whole := ReadChildren(lx, "urlset", children[..k]);
      && cut.urls == whole.urls + Locs(lx, kids[..j]) && cut.sitemaps == whole.sitemaps
      && cut.videos == whole.videos && cut.news == whole.news
  {
    hide ReadChildren, OnClose, Rise, Locs, EntryVideos, EntryNews;
    var kids := children[k].children;
    var root := Start().(path := ["urlset"]);
    var before := [Open("urlset")] + AllEvents(children[..k]);
    var whole := ReadChildren(lx, "urlset", children[..k]);
    RunSplit(lx, Start(), before, [Open("url")] + AllEvents(kids[..j]) + part);
    RunSplit(lx, Start(), [Open("urlset")], AllEvents(children[..k]));
    RunOne(lx, Start(), Open("urlset"));
    assert [] + ["urlset"] == ["urlset"];
    RunRootChildren(lx, root, "urlset", children[..k]);
    PlusNothing(whole);
    var m := WithOut(root, whole);
    RunSplit(lx, m, [Open("url")] + AllEvents(kids[..j]), part);
    RunSplit(lx, m, [Open("url")], AllEvents(kids[..j]));
    RunOne(lx, m, Open("url"));
    var within := OnOpen(lx, m, "url");
    assert within == m.(path := ["urlset", "url"], entry := Some(OpenEntry([], [], [])));
    RunUrlChildren(lx, within, kids[..j]);
    var there := WithChildren(lx, within, kids[..j]);
    assert there.out.videos == whole.videos && there.out.news == whole.news && there.out.urls == whole.urls + Locs(lx, kids[..j]);
    if part != [] {
      if kids[j].Text? { TextPart(kids[j].data, part, rest); }
      else { SeveredChild(lx, there, kids[j].name, kids[j].children, part, rest); }
    }
  }

  lemma TextPart(data: string, part: seq<Event>, rest: seq<Event>)
    requires [Data(data)] == part + rest && rest != []
    ensures part == []
  {
    assert |part| + |rest| == 1;
  }

  lemma SeveredChild(lx: Lexicon, m: Machine, name: string, children: seq<Node>, part: seq<Event>, rest: seq<Event>)
    requires m.path == ["urlset", "url"] && Events(Element(name, children)) == part + rest && part != [] && rest != []
    ensures
      var r := Run(lx, m, part).out;
      r.urls == m.out.urls && r.sitemaps == m.out.sitemaps && r.videos == m.out.videos && r.news == m.out.news
  {
    hide OnClose, Rise;
    var inside := AllEvents(children);
    PartOfElement(name, inside, part, rest);
    NodesLevel(children);
    PrefixNeverBelow(inside, |part| - 1);
    RunSplit(lx, m, [Open(name)], part[1..]);
    RunOne(lx, m, Open(name));
    var within := OnOpen(lx, m, name);
    assert |within.path| == 3 && within.path[0] == "urlset" && within.out == m.out;
    OpenChildUnwritten(lx, within, part[1..]);
    OpenEntryUnwritten(lx, within, part[1..]);
  }

  lemma PartOfElement(name: string, inside: seq<Event>, part: seq<Event>, rest: seq<Event>)
    requires [Open(name)] + inside + [Close(name)] == part + rest && part != [] && rest != []
    ensures part == [Open(name)] + part[1..] && |part| - 1 <= |inside| && part[1..] == inside[..|part| - 1]
  {
    var all := part + rest;
    assert all[0] == Open(name) && part[0] == all[0];
    forall i | 0 <= i < |part| - 1 ensures part[1..][i] == inside[i] { assert part[i + 1] == all[i + 1] == inside[i]; }
  }

  lemma PrefixNeverBelow(evs: seq<Event>, n: nat)
    requires NeverBelow(evs) && n <= |evs|
    ensures NeverBelow(evs[..n])
  {
    forall k | 0 <= k <= n ensures Rise(evs[..n][..k]) >= 0 { assert evs[..n][..k] == evs[..k]; }
  }

  // ---- Flat fields read plainly ----

  /** The reading one would write down first: every news field, in the entry or in a container in it, by its content. */
  function PlainNews(lx: Lexicon, nodes: seq<Node>, fields: Fields): Fields
    decreases |nodes|
  {
    if nodes == [] then fields
    else if IsField(lx, nodes[0]) then
      PlainNews(lx, nodes[1..], Named(fields, lx.local(nodes[0].name), lx.clean(AllContent(nodes[0].children))))
    else if nodes[0].Element? then PlainNews(lx, nodes[1..], InnerFields(lx, nodes[0].children, fields))
    else PlainNews(lx, nodes[1..], fields)
  }

  /** None of the news fields among these nodes directly holds another. */
  predicate FlatFields(lx: Lexicon, nodes: seq<Node>) {
    forall k :: 0 <= k < |nodes| && IsField(lx, nodes[k]) ==> !HoldsField(lx, nodes[k].children)
  }

  /** Where no news field directly holds another, as in the extension's own schema, the two readings are one. */
  lemma {:induction false} FlatReadsPlainly(lx: Lexicon, nodes: seq<Node>, fields: Fields)
    requires FlatFields(lx, nodes)
    ensures NewsFields(lx, nodes, fields) == PlainNews(lx, nodes, fields)
    decreases |nodes|
  {
    if nodes != [] {
      assert FlatFields(lx, nodes[1..]) by { assert forall k :: 0 <= k < |nodes[1..]| ==> nodes[1..][k] == nodes[k + 1]; }
      var rest := nodes[1..];
      if nodes[0].Element? {
        var children := nodes[0].children;
        FlatReadsPlainly(lx, rest, NewsChild(lx, nodes[0].name, children, fields));
      } else {
        FlatReadsPlainly(lx, rest, fields);
      }
    }
  }

  function PlainEntryNews(lx: Lexicon, nodes: seq<Node>): seq<Fields> {
    if nodes == [] then []
    else
      var rest := PlainEntryNews(lx, nodes[1..]);
      if nodes[0].Element? && KindOf(lx, nodes[0].name) == IsNews then [PlainNews(lx, nodes[0].children, map[])] + rest
      else rest
  }

  /** A whole document with each news item read plainly: the entries' locs, and their videos and news under the first. */
  function PlainChildren(lx: Lexicon, root: string, nodes: seq<Node>): Parsed
    decreases |nodes|
  {
    if nodes == [] then Parsed([], [], [], [])
    else
      var rest := PlainChildren(lx, root, nodes[1..]);
      match nodes[0]
      case Text(_) => rest
      case Element(name, kids) =>
        var locs := Locs(lx, kids);
        if root == "urlset" && name == "url" then
          if locs == [] then rest
          else
            Plus(Parsed(locs, [], VideosOf(locs[0], EntryVideos(lx, kids)), NewsesOf(locs[0], PlainEntryNews(lx, kids))), rest)
        else if root == "sitemapindex" && name == "sitemap" then Plus(Parsed([], locs, [], []), rest)
        else rest
  }

  /** No news field of the entry's news items directly holds another. */
  ghost predicate FlatEntry(lx: Lexicon, nodes: seq<Node>) {
    forall k :: 0 <= k < |nodes| && nodes[k].Element? && KindOf(lx, nodes[k].name) == IsNews ==> FlatFields(lx, nodes[k].children)
  }

  ghost predicate FlatDocument(lx: Lexicon, nodes: seq<Node>) {
    forall k :: 0 <= k < |nodes| && nodes[k].Element? && nodes[k].name == "url" ==> FlatEntry(lx, nodes[k].children)
  }

  lemma {:induction false} EntryReadsPlainly(lx: Lexicon, nodes: seq<Node>)
    requires FlatEntry(lx, nodes)
    ensures EntryNews(lx, nodes) == PlainEntryNews(lx, nodes)
  {
    if nodes != [] {
      assert FlatEntry(lx, nodes[1..]) by { assert forall k :: 0 <= k < |nodes[1..]| ==> nodes[1..][k] == nodes[k + 1]; }
      EntryReadsPlainly(lx, nodes[1..]);
      if nodes[0].Element? && KindOf(lx, nodes[0].name) == IsNews { FlatReadsPlainly(lx, nodes[0].children, map[]); }
    }
  }

  lemma {:induction false} ChildrenReadPlainly(lx: Lexicon, root: string, nodes: seq<Node>)
    requires FlatDocument(lx, nodes)
    ensures ReadChildren(lx, root, nodes) == PlainChildren(lx, root, nodes)
    decreases |nodes|
  {
    if nodes != [] {
      assert FlatDocument(lx, nodes[1..]) by { assert forall k :: 0 <= k < |nodes[1..]| ==> nodes[1..][k] == nodes[k + 1]; }
      ChildrenReadPlainly(lx, root, nodes[1..]);
      PlusNothing(ReadChildren(lx, root, nodes[1..]));
      if nodes[0].Element? && nodes[0].name == "url" { EntryReadsPlainly(lx, nodes[0].children); }
    }
  }

  /** Where no news field of a document directly holds another, the event machine reads the whole document plainly. */
  lemma DocumentReadsPlainly(lx: Lexicon, name: string, children: seq<Node>)
    requires FlatDocument(lx, children)
    ensures Run(lx, Start(), Events(Element(name, children))).out == PlainChildren(lx, name, children)
  {
    hide ReadChildren, PlainChildren, FlatDocument, Run;
    StreamReadsTree(lx, Element(name, children));
    ChildrenReadPlainly(lx, name, children);
  }

  /** Why that matters: a field that holds another is read as a container, and its own text is lost. */
  lemma NestedFieldLosesItsText(lx: Lexicon, outer: string, text: string)
    requires lx.local("name") == "name" && lx.local("title") == "title"
    requires lx.clean(outer) != "" && lx.clean(text) != "" && lx.clean(outer + text) != ""
    ensures
      var nested := [Element("title", [Text(outer), Element("name", [Text(text)])])];
      && NewsFields(lx, nested, map[]) == map["name" := lx.clean(text)]
      && PlainNews(lx, nested, map[]) == map["title" := lx.clean(outer + text)]
  {
    var inner := Element("name", [Text(text)]);
    var children := [Text(outer), inner];
    var nested := [Element("title", children)];
    assert children[1] == inner && IsField(lx, inner) && HoldsField(lx, children);
    assert AllContent([Text(text)]) == text + AllContent([]) == text;
    assert [inner][1..] == [] && children[1..] == [inner] && nested[1..] == [];
    assert Content(inner) == text;
    assert AllContent([inner]) == text + "" == text;
    assert AllContent(children) == outer + AllContent([inner]);
    assert InnerFields(lx, children, map[]) == InnerFields(lx, [inner], map[]);
    assert InnerFields(lx, [inner], map[]) == InnerFields(lx, [], Named(map[], "name", lx.clean(text)));
    assert NewsFields(lx, nested, map[]) == NewsFields(lx, [], NewsChild(lx, "title", children, map[]));
  }
}
