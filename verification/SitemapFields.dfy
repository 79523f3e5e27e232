/** Which element of a sitemap each field of what was read comes from. */
module SitemapFields {
  import opened Jobs
  import opened Sitemap
  import opened SitemapTree

  // ---- What an element says ----

  /** An element of this local name. */
  predicate Bears(lx: Lexicon, node: Node, name: string) {
    node.Element? && lx.local(node.name) == name
  }

  function TextOf(lx: Lexicon, node: Node): string {
    lx.clean(Content(node))
  }

  /** The last text, not empty once tidied, of an element of this local name; nothing where there is none. */
  ghost predicate LastOf(lx: Lexicon, nodes: seq<Node>, name: string, value: Option<string>) {
    match value
    case None => forall j :: 0 <= j < |nodes| && Bears(lx, nodes[j], name) ==> TextOf(lx, nodes[j]) == ""
    case Some(text) =>
      && text != ""
      && exists j ::
           && 0 <= j < |nodes| && Bears(lx, nodes[j], name) && TextOf(lx, nodes[j]) == text
           && forall i :: j < i < |nodes| && Bears(lx, nodes[i], name) ==> TextOf(lx, nodes[i]) == ""
  }

  predicate IsLocElement(node: Node) {
    node.Element? && node.name == "loc"
  }

  predicate HasLoc(lx: Lexicon, entry: seq<Node>) {
    exists j :: 0 <= j < |entry| && IsLocElement(entry[j]) && TextOf(lx, entry[j]) != ""
  }

  /** The first `loc` of an entry with something in it. */
  ghost predicate FirstLoc(lx: Lexicon, entry: seq<Node>, loc: string) {
    && loc != ""
    && exists j ::
         && 0 <= j < |entry| && IsLocElement(entry[j]) && TextOf(lx, entry[j]) == loc
         && forall i :: 0 <= i < j && IsLocElement(entry[i]) ==> TextOf(lx, entry[i]) == ""
  }

  // ---- Which items a document holds ----

  /** A video or a news item: the children of the `url` it stands in, and its own. */
  datatype Item = Item(entry: seq<Node>, children: seq<Node>)

  function ItemsAmong(lx: Lexicon, kind: string, entry: seq<Node>, nodes: seq<Node>): seq<Item> {
    if nodes == [] then []
    else
      var rest := ItemsAmong(lx, kind, entry, nodes[1..]);
      if Bears(lx, nodes[0], kind) && nodes[0].name != "loc" then [Item(entry, nodes[0].children)] + rest else rest
  }

  /** The items of one kind in a whole document, as they stand: those of each `url` of a `urlset` that names a page. */
  function Items(lx: Lexicon, kind: string, root: string, nodes: seq<Node>): seq<Item> {
    if nodes == [] || root != "urlset" then []
    else
      var rest := Items(lx, kind, root, nodes[1..]);
      if nodes[0].Element? && nodes[0].name == "url" && HasLoc(lx, nodes[0].children)
      then ItemsAmong(lx, kind, nodes[0].children, nodes[0].children) + rest
      else rest
  }

  /** One of the four things said of a news item. */
  predicate IsNewsField(lx: Lexicon, node: Node) {
    Bears(lx, node, "name") || Bears(lx, node, "language") || Bears(lx, node, "publication_date") || Bears(lx, node, "title")
  }

  function ToldBy(lx: Lexicon, node: Node): seq<Node> {
    if node.Text? then []
    else if IsNewsField(lx, node) && (forall k :: 0 <= k < |node.children| ==> !IsNewsField(lx, node.children[k])) then [node]
    else node.children
  }

  /** What a news item is read from: each field of its own that holds no other, and the children of anything else in it. */
  function Told(lx: Lexicon, nodes: seq<Node>): seq<Node> {
    if nodes == [] then []
    else ToldBy(lx, nodes[0]) + Told(lx, nodes[1..])
  }

  ghost predicate VideoAsWritten(lx: Lexicon, item: Item, video: Video) {
    var ok :=
      && FirstLoc(lx, item.entry, video.loc)
      && LastOf(lx, item.children, "title", video.title)
      && LastOf(lx, item.children, "description", video.description)
      && LastOf(lx, item.children, "thumbnail_loc", video.thumbnailUrl)
      && LastOf(lx, item.children, "content_loc", video.contentUrl)
      && LastOf(lx, item.children, "player_loc", video.playerUrl);
    ok
  }

  ghost predicate NewsAsWritten(lx: Lexicon, item: Item, news: News) {
    var ok :=
      && FirstLoc(lx, item.entry, news.loc)
      && LastOf(lx, Told(lx, item.children), "name", news.publicationName)
      && LastOf(lx, Told(lx, item.children), "language", news.language)
      && LastOf(lx, Told(lx, item.children), "publication_date", news.publicationDate)
      && LastOf(lx, Told(lx, item.children), "title", news.title);
    ok
  }

  /** Each video and each news item of a document, in order, field by field. */
  ghost predicate AsWritten(lx: Lexicon, root: string, nodes: seq<Node>, parsed: Parsed) {
    var videos, news := Items(lx, "video", root, nodes), Items(lx, "news", root, nodes);
    && |parsed.videos| == |videos| && (forall k :: 0 <= k < |videos| ==> VideoAsWritten(lx, videos[k], parsed.videos[k]))
    && |parsed.news| == |news| && (forall k :: 0 <= k < |news| ==> NewsAsWritten(lx, news[k], parsed.news[k]))
  }

  // ---- Field by field ----

  function Last(lx: Lexicon, nodes: seq<Node>, name: string): Option<string> {
    if nodes == [] then None
    else
      var rest := Last(lx, nodes[1..], name);
      if rest.Some? then rest
      else if Bears(lx, nodes[0], name) && TextOf(lx, nodes[0]) != "" then Some(TextOf(lx, nodes[0]))
      else None
  }

  function Else(a: Option<string>, b: Option<string>): Option<string> {
    if a.Some? then a else b
  }

  lemma {:induction false} LastIs(lx: Lexicon, nodes: seq<Node>, name: string)
    ensures LastOf(lx, nodes, name, Last(lx, nodes, name))
  {
    hide TextOf, Bears;
    if nodes != [] {
      var rest := nodes[1..];
      LastIs(lx, rest, name);
      assert forall i :: 0 < i < |nodes| ==> nodes[i] == rest[i - 1];
      match Last(lx, rest, name) {
        case Some(text) =>
          var j :| 0 <= j < |rest| && Bears(lx, rest[j], name) && TextOf(lx, rest[j]) == text
            && forall i :: j < i < |rest| && Bears(lx, rest[i], name) ==> TextOf(lx, rest[i]) == "";
          assert Bears(lx, nodes[j + 1], name);
        case None =>
      }
    }
  }

  lemma {:induction false} LastOfBoth(lx: Lexicon, a: seq<Node>, b: seq<Node>, name: string)
    ensures Last(lx, a + b, name) == Else(Last(lx, b, name), Last(lx, a, name))
  {
    if a == [] { assert a + b == b; }
    else {
      assert (a + b)[1..] == a[1..] + b;
      LastOfBoth(lx, a[1..], b, name);
    }
  }

  lemma NamedGet(fields: Fields, key: string, value: string, name: string)
    ensures Get(Named(fields, key, value), name) == if key == name && value != "" then Some(value) else Get(fields, name)
  {
  }

  lemma {:induction false} VideoGets(lx: Lexicon, nodes: seq<Node>, fields: Fields, name: string)
    ensures Get(VideoFields(lx, nodes, fields), name) == Else(Last(lx, nodes, name), Get(fields, name))
    decreases |nodes|
  {
    hide Get, Named;
    if nodes != [] {
      match nodes[0]
      case Text(_) => VideoGets(lx, nodes[1..], fields, name);
      case Element(tag, children) =>
        var value := lx.clean(AllContent(children));
        VideoGets(lx, nodes[1..], Named(fields, lx.local(tag), value), name);
        NamedGet(fields, lx.local(tag), value, name);
    }
  }

  lemma FieldNames(lx: Lexicon, node: Node)
    ensures IsField(lx, node) <==> IsNewsField(lx, node)
  {
  }

  lemma {:induction false} InnerGets(lx: Lexicon, nodes: seq<Node>, fields: Fields, name: string)
    requires name == "name" || name == "language" || name == "publication_date" || name == "title"
    ensures Get(InnerFields(lx, nodes, fields), name) == Else(Last(lx, nodes, name), Get(fields, name))
    decreases |nodes|
  {
    hide Get, Named, IsField;
    if nodes != [] {
      FieldNames(lx, nodes[0]);
      if IsField(lx, nodes[0]) {
        var value := lx.clean(AllContent(nodes[0].children));
        InnerGets(lx, nodes[1..], Named(fields, lx.local(nodes[0].name), value), name);
        NamedGet(fields, lx.local(nodes[0].name), value, name);
      } else {
        assert !Bears(lx, nodes[0], name);
        InnerGets(lx, nodes[1..], fields, name);
      }
    }
  }

  lemma HoldsNewsField(lx: Lexicon, nodes: seq<Node>)
    ensures HoldsField(lx, nodes) <==> !forall k :: 0 <= k < |nodes| ==> !IsNewsField(lx, nodes[k])
  {
    hide IsField, IsNewsField;
    forall k | 0 <= k < |nodes| ensures IsField(lx, nodes[k]) <==> IsNewsField(lx, nodes[k]) { FieldNames(lx, nodes[k]); }
  }

  lemma {:induction false} NewsGets(lx: Lexicon, nodes: seq<Node>, fields: Fields, name: string)
    requires name == "name" || name == "language" || name == "publication_date" || name == "title"
    ensures Get(NewsFields(lx, nodes, fields), name) == Else(Last(lx, Told(lx, nodes), name), Get(fields, name))
    decreases |nodes|
  {
    hide Get, Named, HoldsField, InnerFields;
    if nodes != [] {
      match nodes[0]
      case Text(_) =>
        assert Told(lx, nodes) == Told(lx, nodes[1..]);
        NewsGets(lx, nodes[1..], fields, name);
      case Element(tag, children) =>
        NewsGets(lx, nodes[1..], NewsChild(lx, tag, children, fields), name);
        ChildGets(lx, nodes[0], fields, name);
        LastOfBoth(lx, ToldBy(lx, nodes[0]), Told(lx, nodes[1..]), name);
    }
  }

  lemma ChildGets(lx: Lexicon, node: Node, fields: Fields, name: string)
    requires node.Element? && (name == "name" || name == "language" || name == "publication_date" || name == "title")
    ensures Get(NewsChild(lx, node.name, node.children, fields), name) == Else(Last(lx, ToldBy(lx, node), name), Get(fields, name))
  {
    hide Get, Named, HoldsField, InnerFields, IsNewsField;
    FieldNames(lx, node);
    HoldsNewsField(lx, node.children);
    if IsNewsField(lx, node) && !HoldsField(lx, node.children) {
      var value := lx.clean(AllContent(node.children));
      NamedGet(fields, lx.local(node.name), value, name);
      assert [node][1..] == [];
      assert Last(lx, [node][1..], name) == None;
    } else {
      InnerGets(lx, node.children, fields, name);
    }
  }

  // ---- Item by item ----

  lemma NothingGot(name: string)
    ensures Get(map[], name) == None
  {
  }

  lemma VideoWritten(lx: Lexicon, item: Item, loc: string)
    requires FirstLoc(lx, item.entry, loc)
    ensures VideoAsWritten(lx, item, VideoOf(loc, VideoFields(lx, item.children, map[])))
  {
    hide FirstLoc, LastOf, Get, VideoFields, Last;
    forall name ensures LastOf(lx, item.children, name, Get(VideoFields(lx, item.children, map[]), name)) {
      VideoGets(lx, item.children, map[], name);
      NothingGot(name);
      LastIs(lx, item.children, name);
    }
  }

  lemma NewsWritten(lx: Lexicon, item: Item, loc: string)
    requires FirstLoc(lx, item.entry, loc)
    ensures NewsAsWritten(lx, item, NewsOf(loc, NewsFields(lx, item.children, map[])))
  {
    hide FirstLoc, LastOf, Get, NewsFields, Last, Told;
    forall name | name == "name" || name == "language" || name == "publication_date" || name == "title"
      ensures LastOf(lx, Told(lx, item.children), name, Get(NewsFields(lx, item.children, map[]), name)) {
      NewsGets(lx, item.children, map[], name);
      NothingGot(name);
      LastIs(lx, Told(lx, item.children), name);
    }
  }

  ghost predicate VideosWritten(lx: Lexicon, items: seq<Item>, videos: seq<Video>) {
    |videos| == |items| && forall k :: 0 <= k < |items| ==> VideoAsWritten(lx, items[k], videos[k])
  }

  ghost predicate NewsesWritten(lx: Lexicon, items: seq<Item>, news: seq<News>) {
    |news| == |items| && forall k :: 0 <= k < |items| ==> NewsAsWritten(lx, items[k], news[k])
  }

  lemma {:induction false} EntryWritten(lx: Lexicon, entry: seq<Node>, nodes: seq<Node>, loc: string)
    requires FirstLoc(lx, entry, loc)
    ensures VideosWritten(lx, ItemsAmong(lx, "video", entry, nodes), VideosOf(loc, EntryVideos(lx, nodes)))
    ensures NewsesWritten(lx, ItemsAmong(lx, "news", entry, nodes), NewsesOf(loc, EntryNews(lx, nodes)))
    decreases |nodes|
  {
    hide FirstLoc, VideoAsWritten, NewsAsWritten, VideoOf, NewsOf, VideoFields, NewsFields;
    if nodes != [] {
      EntryWritten(lx, entry, nodes[1..], loc);
      if nodes[0].Element? {
        var item := Item(entry, nodes[0].children);
        VideoWritten(lx, item, loc);
        NewsWritten(lx, item, loc);
        OneKind();
      }
    }
  }

  lemma OneKind()
    ensures "video" != "news"
  {
    assert "video"[0] != "news"[0];
  }

  lemma {:induction false} LocsFirst(lx: Lexicon, nodes: seq<Node>)
    ensures Locs(lx, nodes) == [] <==> !HasLoc(lx, nodes)
    ensures Locs(lx, nodes) != [] ==> FirstLoc(lx, nodes, Locs(lx, nodes)[0])
  {
    if nodes != [] {
      var rest := nodes[1..];
      LocsFirst(lx, rest);
      assert forall i :: 0 < i < |nodes| ==> nodes[i] == rest[i - 1];
      assert forall i :: 0 <= i < |rest| ==> rest[i] == nodes[i + 1];
      if IsLocElement(nodes[0]) && TextOf(lx, nodes[0]) != "" { assert FirstLoc(lx, nodes, TextOf(lx, nodes[0])); }
      else if Locs(lx, rest) != [] { FirstLater(lx, nodes, Locs(lx, rest)[0]); }
    }
  }

  lemma FirstLater(lx: Lexicon, nodes: seq<Node>, loc: string)
    requires nodes != [] && !(IsLocElement(nodes[0]) && TextOf(lx, nodes[0]) != "") && FirstLoc(lx, nodes[1..], loc)
    ensures FirstLoc(lx, nodes, loc)
  {
    var rest := nodes[1..];
    var j :| 0 <= j < |rest| && IsLocElement(rest[j]) && TextOf(lx, rest[j]) == loc
      && forall i :: 0 <= i < j && IsLocElement(rest[i]) ==> TextOf(lx, rest[i]) == "";
    assert nodes[j + 1] == rest[j];
    forall i | 0 <= i < j + 1 && IsLocElement(nodes[i]) ensures TextOf(lx, nodes[i]) == "" {
      if i > 0 { assert nodes[i] == rest[i - 1]; }
    }
  }

  lemma {:induction false} ChildrenWritten(lx: Lexicon, root: string, nodes: seq<Node>)
    ensures VideosWritten(lx, Items(lx, "video", root, nodes), ReadChildren(lx, root, nodes).videos)
    ensures NewsesWritten(lx, Items(lx, "news", root, nodes), ReadChildren(lx, root, nodes).news)
    decreases |nodes|
  {
    hide VideoAsWritten, NewsAsWritten, Locs, HasLoc, FirstLoc, EntryVideos, EntryNews, VideosOf, NewsesOf, ItemsAmong;
    if nodes != [] {
      ChildrenWritten(lx, root, nodes[1..]);
      if nodes[0].Element? {
        var kids := nodes[0].children;
        LocsFirst(lx, kids);
        if Locs(lx, kids) != [] { EntryWritten(lx, kids, kids, Locs(lx, kids)[0]); }
      }
    }
  }

  /**
   * Every document's videos and news come out in the order they stand, under the first loc of their entry, each
   * field the last text of the element it is named after.
   */
  lemma DocumentReadsAsWritten(lx: Lexicon, root: string, nodes: seq<Node>)
    ensures AsWritten(lx, root, nodes, Run(lx, Start(), Events(Element(root, nodes))).out)
  {
    hide ReadChildren, Items, VideoAsWritten, NewsAsWritten, Run;
    StreamReadsTree(lx, Element(root, nodes));
    ChildrenWritten(lx, root, nodes);
  }

  /** A whole sitemap, parsed at one go. */
  method ExtractSitemapUrls(lx: Lexicon, root: Node) returns (parsed: Parsed)
    ensures parsed == Read(lx, root)
    ensures root.Element? ==> AsWritten(lx, root.name, root.children, parsed)
  {
    hide AsWritten;
    var parser := new SitemapParser(lx);
    parser.Write(Events(root));
    StreamReadsTree(lx, root);
    if root.Element? { DocumentReadsAsWritten(lx, root.name, root.children); }
    parsed := parser.End(true);
  }
}
