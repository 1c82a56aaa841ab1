/**
  The page the generator renders: a fixed skeleton (doctype, head with title,
  meta tags, stylesheet and script, a mobile navigation bar, and a two-pane
  layout) whose sidebar lists the summary's sections and links and whose
  content pane holds the placeholder text `TODO`.

  The tree built here stands for what rendering the view and parsing the
  resulting markup yields; the hydration comments and `data-hk` attributes
  the rendering framework adds on the way are the sanitizer's business.
 */
module Page {
  import opened Dom
  import opened Summary
  import opened Seqs
  import Sanitizer

  datatype Option<T> = None | Some(value: T)

  /** A `div` element with a single `class` attribute. */
  function Div(cls: string, children: seq<Node>): Node
  {
    Element("div", [Attr("class", cls)], children)
  }

  // ----- Builder -----

  /** What a piece of dynamic text becomes in the parsed page: one text node,
      or no node at all when the text is empty (the markup then holds
      nothing between the element's tags). */
  function TextNodes(t: string): seq<Node>
  {
    if t == "" then [] else [Text(t)]
  }

  /** One sidebar entry: `<li><a href=url>title</a></li>`. */
  function LinkEntry(l: Link): Node
  {
    Element("li", [], [Element("a", [Attr("href", l.url)], TextNodes(l.title))])
  }

  /** One entry per link, in the given order. */
  function LinkList(links: seq<Link>): seq<Node>
    decreases links
  {
    if links == [] then []
    else [LinkEntry(links[0])] + LinkList(links[1..])
  }

  /** The block of one section: its name, then a list of all its items' links. */
  function SectionBlock(s: Section): Node
  {
    Div("sidebar-section", [
      Div("section-name", TextNodes(s.title)),
      Element("ul", [], LinkList(FlatLinks(s.content)))
    ])
  }

  /** The sidebar's contents: one block per section, in order. */
  function Sidebar(summary: seq<Section>): seq<Node>
    decreases summary
  {
    if summary == [] then []
    else [SectionBlock(summary[0])] + Sidebar(summary[1..])
  }

  function Head(): Node
  {
    Element("head", [], [
      Element("title", [], [Text("Hello world")]),
      Element("meta", [Attr("charset", "utf-8")], []),
      Element("meta", [Attr("name", "viewport"), Attr("content", "width=device-width, initial-scale=1.0")], []),
      Element("link", [Attr("rel", "stylesheet"), Attr("href", "style.css")], []),
      Element("script", [Attr("src", "script.js")], [])
    ])
  }

  function MobileNav(): Node
  {
    Div("mobile-nav", [
      Div("hamburger", [Div("line", []), Div("line", []), Div("line", [])]),
      Element("h1", [], [Text("uiua-essentials")])
    ])
  }

  /** The two panes: the sidebar with the given contents, and the content pane. */
  function Container(sidebar: seq<Node>): Node
  {
    Div("container", [
      Div("sidebar", sidebar),
      Div("content", [Text("TODO")])
    ])
  }

  /** The fixed frame of the page around the head, the navigation bar and
      the two panes: the doctype, then `html` holding the head and a body
      whose single `mobile-container` holds the bar and the panes. */
  function Frame(head: Node, nav: Node, panes: Node): seq<Node>
  {
    [ Doctype("html"),
      Element("html", [Attr("lang", "en")], [
        head,
        Element("body", [], [Div("mobile-container", [nav, panes])])
      ]) ]
  }

  /** The whole page for a summary. */
  function GeneratePage(summary: seq<Section>): Document
  {
    Document(Frame(Head(), MobileNav(), Container(Sidebar(summary))))
  }

  // ----- Reading a page back -----

  /** A section as a reader of the sidebar sees it: a title and a flat list
      of links, with item boundaries no longer visible. */
  datatype Group = Group(title: string, links: seq<Link>)

  /** What the sidebar should show for a summary. */
  function Outline(summary: seq<Section>): seq<Group>
    decreases summary
  {
    if summary == [] then []
    else [Group(summary[0].title, FlatLinks(summary[0].content))] + Outline(summary[1..])
  }

  /** The children of the first element, in document order, whose class is
      `cls`: what a `.cls` selector finds first. */
  function FindClass(ns: seq<Node>, cls: string): Option<seq<Node>>
    decreases ns
  {
    if ns == [] then None
    else
      match ns[0]
      case Element(_, attrs, children) =>
        if Attr("class", cls) in attrs then Some(children)
        else
          (match FindClass(children, cls)
           case Some(found) => Some(found)
           case None => FindClass(ns[1..], cls))
      case _ => FindClass(ns[1..], cls)
  }

  /** Reads the children of an element that holds plain text: no child is
      the empty text, a single text node is its text. */
  function ReadText(ns: seq<Node>): Option<string>
  {
    if ns == [] then Some("")
    else if |ns| == 1 && ns[0].Text? then Some(ns[0].text)
    else None
  }

  /** Reads `<li><a href=url>title</a></li>` back as a link. */
  function ReadLink(n: Node): Option<Link>
  {
    if n.Element? && n.tag == "li" && n.attrs == [] && |n.children| == 1 then
      var a := n.children[0];
      if a.Element? && a.tag == "a" && |a.attrs| == 1 && a.attrs[0].name == "href" then
        match ReadText(a.children)
        case Some(title) => Some(Link(a.attrs[0].value, title))
        case None => None
      else None
    else None
  }

  /** Reads a list of entries back; fails if any entry is not a link entry. */
  function ReadLinks(ns: seq<Node>): Option<seq<Link>>
    decreases ns
  {
    if ns == [] then Some([])
    else
      match (ReadLink(ns[0]), ReadLinks(ns[1..]))
      case (Some(l), Some(ls)) => Some([l] + ls)
      case _ => None
  }

  /** Reads a section block back: its name and the links of its list. */
  function ReadGroup(n: Node): Option<Group>
  {
    if n.Element? && n.tag == "div" && n.attrs == [Attr("class", "sidebar-section")] && |n.children| == 2 then
      var name := n.children[0];
      var list := n.children[1];
      if name.Element? && name.tag == "div" && name.attrs == [Attr("class", "section-name")]
         && list.Element? && list.tag == "ul" && list.attrs == []
      then
        match (ReadText(name.children), ReadLinks(list.children))
        case (Some(title), Some(links)) => Some(Group(title, links))
        case _ => None
      else None
    else None
  }

  function ReadGroups(ns: seq<Node>): Option<seq<Group>>
    decreases ns
  {
    if ns == [] then Some([])
    else
      match (ReadGroup(ns[0]), ReadGroups(ns[1..]))
      case (Some(g), Some(gs)) => Some([g] + gs)
      case _ => None
  }

  /** The navigation a reader finds in a document: the groups inside the
      first `.sidebar` element. */
  function ReadNavigation(d: Document): Option<seq<Group>>
  {
    match FindClass(d.children, "sidebar")
    case Some(ns) => ReadGroups(ns)
    case None => None
  }

  /** The concatenated text of every text node under the forest. */
  function TextContent(ns: seq<Node>): string
    decreases ns
  {
    if ns == [] then ""
    else
      (match ns[0]
       case Element(_, _, children) => TextContent(children)
       case Text(t) => t
       case _ => "")
      + TextContent(ns[1..])
  }

  /** The value of the first attribute called `name`, or the empty string. */
  function AttrValue(attrs: seq<Attr>, name: string): string
    decreases attrs
  {
    if attrs == [] then ""
    else if attrs[0].name == name then attrs[0].value
    else AttrValue(attrs[1..], name)
  }

  /** Every anchor of the forest in document order, as the link it shows. */
  function Anchors(ns: seq<Node>): seq<Link>
    decreases ns
  {
    if ns == [] then []
    else
      (match ns[0]
       case Element(tag, attrs, children) =>
         if tag == "a" then [Link(AttrValue(attrs, "href"), TextContent(children))]
         else Anchors(children)
       case _ => [])
      + Anchors(ns[1..])
  }

  // ----- Properties -----

  /** The entries of a link list read back as exactly the links they were
      built from: one per link, same order, same url and title. */
  lemma {:induction false} ReadLinksOfList(links: seq<Link>)
    ensures ReadLinks(LinkList(links)) == Some(links)
    decreases links
  {
    if links != [] {
      ReadLinksOfList(links[1..]);
      assert LinkList(links)[1..] == LinkList(links[1..]);
      assert [links[0]] + links[1..] == links;
    }
  }

  /** The sidebar's blocks read back as the summary's outline: one group per
      section in input order, titled by the section, holding its items' links
      flattened in order. */
  lemma {:induction false} ReadGroupsOfSidebar(summary: seq<Section>)
    ensures ReadGroups(Sidebar(summary)) == Some(Outline(summary))
    decreases summary
  {
    if summary != [] {
      ReadGroupsOfSidebar(summary[1..]);
      ReadLinksOfList(FlatLinks(summary[0].content));
      assert Sidebar(summary)[1..] == Sidebar(summary[1..]);
    }
  }

  /** A lookup over two forests side by side finds the first forest's match
      if it has one, and otherwise the second's. */
  lemma {:induction false} FindClassAppend(a: seq<Node>, b: seq<Node>, cls: string)
    ensures FindClass(a + b, cls) == if FindClass(a, cls).Some? then FindClass(a, cls) else FindClass(b, cls)
    decreases a
  {
    if a == [] {
      assert a + b == b;
    } else {
      assert (a + b)[0] == a[0];
      assert (a + b)[1..] == a[1..] + b;
      FindClassAppend(a[1..], b, cls);
    }
  }

  /** A lone element without class `cls` passes a lookup on to its children. */
  lemma FindClassOfElement(tag: string, attrs: seq<Attr>, children: seq<Node>, cls: string)
    requires Attr("class", cls) !in attrs
    ensures FindClass([Element(tag, attrs, children)], cls) == FindClass(children, cls)
  {
    assert [Element(tag, attrs, children)][1..] == [];
  }

  /** The frame itself only carries the class `mobile-container`; any other
      lookup that the head and the bar do not answer lands in the panes. */
  lemma FrameClasses(head: Node, nav: Node, panes: Node, cls: string)
    requires cls != "mobile-container"
    requires FindClass([head], cls) == None && FindClass([nav], cls) == None
    ensures FindClass(Frame(head, nav, panes), cls) == FindClass([panes], cls)
  {
    FindClassAppend([nav], [panes], cls);
    assert [nav] + [panes] == [nav, panes];
    FindClassOfElement("div", [Attr("class", "mobile-container")], [nav, panes], cls);
    var body := Element("body", [], [Div("mobile-container", [nav, panes])]);
    FindClassOfElement("body", [], body.children, cls);
    FindClassAppend([head], [body], cls);
    assert [head] + [body] == [head, body];
    FindClassOfElement("html", [Attr("lang", "en")], [head, body], cls);
    assert Frame(head, nav, panes)[1..] == [Element("html", [Attr("lang", "en")], [head, body])];
  }

  /** The head carries no class at all. */
  lemma HeadClasses(cls: string)
    ensures FindClass([Head()], cls) == None
  {
    var head := Head().children;
    assert FindClass(head[4..], cls) == None;
    assert FindClass(head[3..], cls) == None;
    assert FindClass(head[2..], cls) == None;
    assert FindClass(head[1..], cls) == None;
    assert FindClass(head, cls) == None;
    FindClassOfElement("head", [], head, cls);
  }

  /** The navigation bar carries only its own three classes. */
  lemma NavClasses(cls: string)
    requires cls != "mobile-nav" && cls != "hamburger" && cls != "line"
    ensures FindClass([MobileNav()], cls) == None
  {
    var lines := [Div("line", []), Div("line", []), Div("line", [])];
    assert FindClass(lines[2..], cls) == None;
    assert FindClass(lines[1..], cls) == None;
    assert FindClass(lines, cls) == None;
    var nav := MobileNav().children;
    assert FindClass(nav[1..], cls) == None;
    assert FindClass(nav, cls) == None;
    FindClassOfElement("div", [Attr("class", "mobile-nav")], nav, cls);
  }

  /** Outside the two panes the skeleton uses only its own five classes, so
      a lookup of any other class goes straight to the panes. */
  lemma SkeletonLookup(summary: seq<Section>, cls: string)
    requires cls != "mobile-container" && cls != "mobile-nav" && cls != "hamburger"
    requires cls != "line" && cls != "container"
    ensures FindClass(GeneratePage(summary).children, cls) == FindClass(Container(Sidebar(summary)).children, cls)
  {
    HeadClasses(cls);
    NavClasses(cls);
    var panes := Container(Sidebar(summary));
    FrameClasses(Head(), MobileNav(), panes, cls);
    FindClassOfElement("div", [Attr("class", "container")], panes.children, cls);
  }

  /** Link entries carry no class at all. */
  lemma {:induction false} LinkListHasNoClass(links: seq<Link>, cls: string)
    ensures FindClass(LinkList(links), cls) == None
    decreases links
  {
    if links != [] {
      LinkListHasNoClass(links[1..], cls);
      var entry := LinkEntry(links[0]);
      var anchor := entry.children[0];
      assert Attr("class", cls) !in anchor.attrs;
      assert FindClass(anchor.children, cls) == None;
      assert FindClass(entry.children, cls) == None;
      assert FindClass([entry], cls) == None;
      assert LinkList(links)[1..] == LinkList(links[1..]);
    }
  }

  /** Inside the sidebar only the two section classes occur. */
  lemma {:induction false} SidebarClasses(summary: seq<Section>, cls: string)
    requires cls != "sidebar-section" && cls != "section-name"
    ensures FindClass(Sidebar(summary), cls) == None
    decreases summary
  {
    if summary != [] {
      SidebarClasses(summary[1..], cls);
      LinkListHasNoClass(FlatLinks(summary[0].content), cls);
      var block := SectionBlock(summary[0]);
      assert FindClass(block.children[0].children, cls) == None;
      assert FindClass(block.children[1].children, cls) == None;
      assert FindClass(block.children[1..], cls) == None;
      assert FindClass(block.children, cls) == None;
      assert FindClass([block], cls) == None;
      assert Sidebar(summary)[1..] == Sidebar(summary[1..]);
    }
  }

  /** A `.sidebar` lookup on the page lands on the sidebar pane, whatever the
      summary holds. */
  lemma FindSidebar(summary: seq<Section>)
    ensures FindClass(GeneratePage(summary).children, "sidebar") == Some(Sidebar(summary))
  {
    SkeletonLookup(summary, "sidebar");
  }

  /** The content pane holds the placeholder text and nothing else, whatever
      the summary holds. */
  lemma ContentPane(summary: seq<Section>)
    ensures FindClass(GeneratePage(summary).children, "content") == Some([Text("TODO")])
  {
    SkeletonLookup(summary, "content");
    SidebarClasses(summary, "content");
    var panes := Container(Sidebar(summary)).children;
    assert FindClass(panes[1..], "content") == Some([Text("TODO")]);
  }

  /** The navigation read off a generated page is the summary's outline. */
  lemma ReadNavigationOfPage(summary: seq<Section>)
    ensures ReadNavigation(GeneratePage(summary)) == Some(Outline(summary))
  {
    FindSidebar(summary);
    ReadGroupsOfSidebar(summary);
  }

  /** An empty summary gives an empty sidebar pane and no navigation, the
      content pane still in place. */
  lemma EmptySummary()
    ensures FindClass(GeneratePage([]).children, "sidebar") == Some([])
    ensures ReadNavigation(GeneratePage([])) == Some([])
    ensures FindClass(GeneratePage([]).children, "content") == Some([Text("TODO")])
  {
    FindSidebar([]);
    ContentPane([]);
  }

  /** Equal outlines give equal sidebars. */
  lemma {:induction false} SidebarOfOutline(s1: seq<Section>, s2: seq<Section>)
    requires Outline(s1) == Outline(s2)
    ensures Sidebar(s1) == Sidebar(s2)
    decreases s1
  {
    if s1 != [] {
      assert Outline(s1)[0] == Outline(s2)[0];
      assert Outline(s1)[1..] == Outline(s1[1..]);
      assert Outline(s2)[1..] == Outline(s2[1..]);
      SidebarOfOutline(s1[1..], s2[1..]);
    }
  }

  /** The page depends on the summary only through its outline: section
      titles and each section's flattened links. Two summaries give the same
      page exactly when those agree; how links are split into items never
      shows. */
  lemma PageDeterminedByOutline(s1: seq<Section>, s2: seq<Section>)
    ensures GeneratePage(s1) == GeneratePage(s2) <==> Outline(s1) == Outline(s2)
  {
    ReadNavigationOfPage(s1);
    ReadNavigationOfPage(s2);
    if Outline(s1) == Outline(s2) {
      SidebarOfOutline(s1, s2);
    }
  }

  lemma {:induction false} LinkListIndex(links: seq<Link>)
    ensures |LinkList(links)| == |links|
    ensures forall k :: 0 <= k < |links| ==> LinkList(links)[k] == LinkEntry(links[k])
    decreases links
  {
    if links != [] {
      LinkListIndex(links[1..]);
      assert forall k :: 1 <= k < |links| ==> links[k] == links[1..][k - 1];
    }
  }

  /** A section's list holds one entry per link of its items, no more and no
      fewer, and link `j` of item `i` is the entry at that link's position in
      item-then-link order. */
  lemma SectionBlockShape(s: Section)
    ensures |SectionBlock(s).children[1].children| == LinkCount(s.content)
    ensures forall i, j :: 0 <= i < |s.content| && 0 <= j < |s.content[i].links| ==>
      Position(s.content, i, j) < LinkCount(s.content) &&
      SectionBlock(s).children[1].children[Position(s.content, i, j)] == LinkEntry(s.content[i].links[j])
  {
    var flat := FlatLinks(s.content);
    assert SectionBlock(s).children[1].children == LinkList(flat);
    LinkListIndex(flat);
    FlatLinksLength(s.content);
    forall i: nat, j: nat | i < |s.content| && j < |s.content[i].links|
      ensures Position(s.content, i, j) < LinkCount(s.content) &&
        SectionBlock(s).children[1].children[Position(s.content, i, j)] == LinkEntry(s.content[i].links[j])
    {
      FlatLinksIndex(s.content, i, j);
    }
  }

  /** The nodes a piece of text becomes read back as that text, by either
      reader; being at most one leaf, they hold no anchor, no class and
      nothing to sanitize. */
  lemma TextNodesReadBack(t: string, cls: string)
    ensures ReadText(TextNodes(t)) == Some(t)
    ensures TextContent(TextNodes(t)) == t
    ensures Anchors(TextNodes(t)) == []
    ensures FindClass(TextNodes(t), cls) == None
    ensures Sanitizer.Clean(Document(TextNodes(t)))
  {
    assert [Text(t)][1..] == [];
  }

  /** A link entry shows exactly its link: url as `href`, title as text. */
  lemma AnchorsOfEntry(l: Link)
    ensures Anchors([LinkEntry(l)]) == [l]
  {
    var anchor := Element("a", [Attr("href", l.url)], TextNodes(l.title));
    TextNodesReadBack(l.title, "");
    assert AttrValue([Attr("href", l.url)], "href") == l.url;
    assert Anchors([anchor]) == [l] by {
      assert [anchor][1..] == [];
    }
    AnchorsOfElement("li", [], [anchor]);
  }

  /** The anchors of a link list are exactly its links, url as `href` and
      title as text. */
  lemma {:induction false} AnchorsOfList(links: seq<Link>)
    ensures Anchors(LinkList(links)) == links
    decreases links
  {
    if links != [] {
      AnchorsOfList(links[1..]);
      AnchorsOfEntry(links[0]);
      AnchorsAppend([LinkEntry(links[0])], LinkList(links[1..]));
      assert [links[0]] + links[1..] == links;
    }
  }

  lemma {:induction false} AnchorsOfSidebar(summary: seq<Section>)
    ensures Anchors(Sidebar(summary)) == AllLinks(summary)
    decreases summary
  {
    if summary != [] {
      AnchorsOfSidebar(summary[1..]);
      AnchorsOfList(FlatLinks(summary[0].content));
      var block := SectionBlock(summary[0]);
      assert Anchors(block.children[0].children) == [];
      assert Anchors(block.children[1].children) == FlatLinks(summary[0].content);
      assert Anchors(block.children[1..]) == FlatLinks(summary[0].content);
      assert Anchors(block.children) == FlatLinks(summary[0].content);
      assert Anchors([block]) == FlatLinks(summary[0].content);
      assert Sidebar(summary)[1..] == Sidebar(summary[1..]);
    }
  }

  /** The anchors of two forests side by side: the first's, then the
      second's. */
  lemma {:induction false} AnchorsAppend(a: seq<Node>, b: seq<Node>)
    ensures Anchors(a + b) == Anchors(a) + Anchors(b)
    decreases a
  {
    if a == [] {
      assert a + b == b;
    } else {
      assert (a + b)[0] == a[0];
      assert (a + b)[1..] == a[1..] + b;
      AnchorsAppend(a[1..], b);
    }
  }

  /** A lone element that is not an anchor has its children's anchors. */
  lemma AnchorsOfElement(tag: string, attrs: seq<Attr>, children: seq<Node>)
    requires tag != "a"
    ensures Anchors([Element(tag, attrs, children)]) == Anchors(children)
  {
    assert [Element(tag, attrs, children)][1..] == [];
  }

  lemma PairAnchors(x: Node, y: Node)
    ensures Anchors([x, y]) == Anchors([x]) + Anchors([y])
  {
    AnchorsAppend([x], [y]);
    assert [x] + [y] == [x, y];
  }

  /** The frame adds no anchor of its own. */
  lemma FrameAnchors(head: Node, nav: Node, panes: Node)
    ensures Anchors(Frame(head, nav, panes)) == Anchors([head]) + Anchors([nav]) + Anchors([panes])
  {
    var mc := Div("mobile-container", [nav, panes]);
    var body := Element("body", [], [mc]);
    var root := Element("html", [Attr("lang", "en")], [head, body]);
    var ah, an, ap := Anchors([head]), Anchors([nav]), Anchors([panes]);
    assert Anchors([body]) == an + ap by {
      PairAnchors(nav, panes);
      AnchorsOfElement("div", [Attr("class", "mobile-container")], [nav, panes]);
      AnchorsOfElement("body", [], [mc]);
    }
    assert Anchors([root]) == ah + (an + ap) by {
      PairAnchors(head, body);
      AnchorsOfElement("html", [Attr("lang", "en")], [head, body]);
    }
    assert Anchors(Frame(head, nav, panes)) == Anchors([root]) by {
      PairAnchors(Doctype("html"), root);
      assert [Doctype("html"), root] == Frame(head, nav, panes);
      assert Anchors([Doctype("html")]) == [] by {
        assert [Doctype("html")][1..] == [];
      }
    }
    Associate(ah, an, ap);
  }

  lemma HeadAnchors()
    ensures Anchors([Head()]) == []
  {
    var head := Head().children;
    assert Anchors(head[4..]) == [];
    assert Anchors(head[3..]) == [];
    assert Anchors(head[2..]) == [];
    assert Anchors(head[1..]) == [];
    assert Anchors(head) == [];
    AnchorsOfElement("head", [], head);
  }

  lemma NavAnchors()
    ensures Anchors([MobileNav()]) == []
  {
    var lines := [Div("line", []), Div("line", []), Div("line", [])];
    assert Anchors(lines[2..]) == [];
    assert Anchors(lines[1..]) == [];
    assert Anchors(lines) == [];
    var nav := MobileNav().children;
    assert Anchors(nav[1..]) == [];
    assert Anchors(nav) == [];
    AnchorsOfElement("div", [Attr("class", "mobile-nav")], nav);
  }

  /** The panes add no anchor of their own. */
  lemma ContainerAnchors(sidebar: seq<Node>)
    ensures Anchors([Container(sidebar)]) == Anchors(sidebar)
  {
    var side := Div("sidebar", sidebar);
    var content := Div("content", [Text("TODO")]);
    AnchorsAppend([side], [content]);
    assert [side] + [content] == [side, content];
    AnchorsOfElement("div", [Attr("class", "sidebar")], sidebar);
    AnchorsOfElement("div", [Attr("class", "content")], [Text("TODO")]);
    assert Anchors([Text("TODO")]) == [] by {
      assert [Text("TODO")][1..] == [];
    }
    AnchorsOfElement("div", [Attr("class", "container")], [side, content]);
  }

  /** Every anchor on the page is a sidebar link: all links of all sections,
      section by section, item by item, link by link, with no sorting and no
      de-duplication. */
  lemma AnchorsOfPage(summary: seq<Section>)
    ensures Anchors(GeneratePage(summary).children) == AllLinks(summary)
  {
    var sidebar := Sidebar(summary);
    AnchorsOfSidebar(summary);
    HeadAnchors();
    NavAnchors();
    ContainerAnchors(sidebar);
    FrameAnchors(Head(), MobileNav(), Container(sidebar));
  }

  lemma EntryClean(l: Link)
    ensures Sanitizer.Clean(Document([LinkEntry(l)]))
  {
    var key := Sanitizer.HydrationKey;
    assert !HasAttr([Attr("href", l.url)], key);
    TextNodesReadBack(l.title, "");
    CleanOfElement("a", [Attr("href", l.url)], TextNodes(l.title));
    CleanOfElement("li", [], [Element("a", [Attr("href", l.url)], TextNodes(l.title))]);
  }

  lemma {:induction false} LinkListClean(links: seq<Link>)
    ensures CommentFree(LinkList(links))
    ensures AttrFree(LinkList(links), Sanitizer.HydrationKey)
    decreases links
  {
    if links != [] {
      LinkListClean(links[1..]);
      EntryClean(links[0]);
      CommentFreeAppend([LinkEntry(links[0])], LinkList(links[1..]));
      AttrFreeAppend([LinkEntry(links[0])], LinkList(links[1..]), Sanitizer.HydrationKey);
    }
  }

  lemma {:induction false} SidebarClean(summary: seq<Section>)
    ensures CommentFree(Sidebar(summary))
    ensures AttrFree(Sidebar(summary), Sanitizer.HydrationKey)
    decreases summary
  {
    if summary != [] {
      SidebarClean(summary[1..]);
      LinkListClean(FlatLinks(summary[0].content));
      assert Sidebar(summary)[1..] == Sidebar(summary[1..]);
      var block := SectionBlock(summary[0]);
      var key := Sanitizer.HydrationKey;
      assert !HasAttr(block.attrs, key);
      assert !HasAttr(block.children[0].attrs, key);
      assert AttrFree(block.children[0].children, key);
      assert AttrFree(block.children[1..], key);
      assert AttrFree(block.children, key);
      assert AttrFree([block], key);
      assert CommentFree(block.children[1..]);
      assert CommentFree(block.children);
    }
  }

  lemma HeadClean()
    ensures CommentFree([Head()]) && AttrFree([Head()], Sanitizer.HydrationKey)
  {
    var key := Sanitizer.HydrationKey;
    var head := Head().children;
    assert !HasAttr(head[4].attrs, key);
    assert !HasAttr(head[3].attrs, key);
    assert !HasAttr(head[2].attrs, key);
    assert !HasAttr(head[1].attrs, key);
    assert AttrFree(head[4..], key) && CommentFree(head[4..]);
    assert AttrFree(head[3..], key) && CommentFree(head[3..]);
    assert AttrFree(head[2..], key) && CommentFree(head[2..]);
    assert AttrFree(head[1..], key) && CommentFree(head[1..]);
    assert AttrFree(head, key) && CommentFree(head);
  }

  lemma MobileNavClean()
    ensures CommentFree([MobileNav()]) && AttrFree([MobileNav()], Sanitizer.HydrationKey)
  {
    var key := Sanitizer.HydrationKey;
    var lines := [Div("line", []), Div("line", []), Div("line", [])];
    assert !HasAttr(lines[0].attrs, key);
    assert lines[2..][1..] == [];
    assert AttrFree(lines[2..], key) && CommentFree(lines[2..]);
    assert AttrFree(lines[1..], key) && CommentFree(lines[1..]);
    assert AttrFree(lines, key) && CommentFree(lines);
    var nav := MobileNav().children;
    assert !HasAttr(nav[0].attrs, key);
    assert nav[1..][1..] == [];
    assert AttrFree(nav[1..], key) && CommentFree(nav[1..]);
    assert AttrFree(nav, key) && CommentFree(nav);
    assert !HasAttr(MobileNav().attrs, key);
  }

  lemma ContainerClean(sidebar: seq<Node>)
    requires CommentFree(sidebar) && AttrFree(sidebar, Sanitizer.HydrationKey)
    ensures CommentFree([Container(sidebar)]) && AttrFree([Container(sidebar)], Sanitizer.HydrationKey)
  {
    var key := Sanitizer.HydrationKey;
    var container := Container(sidebar);
    assert !HasAttr(container.attrs, key);
    assert !HasAttr(container.children[0].attrs, key);
    assert !HasAttr(container.children[1].attrs, key);
    var content := container.children[1];
    assert container.children[1..] == [content];
    assert [content][1..] == [];
    assert AttrFree(content.children, key) && CommentFree(content.children);
    assert AttrFree([content], key) && CommentFree([content]);
    assert AttrFree(container.children[1..], key) && CommentFree(container.children[1..]);
    assert AttrFree(container.children, key) && CommentFree(container.children);
  }

  /** A lone element without the marker is clean exactly when its children
      are. */
  lemma CleanOfElement(tag: string, attrs: seq<Attr>, children: seq<Node>)
    requires !HasAttr(attrs, Sanitizer.HydrationKey)
    ensures Sanitizer.Clean(Document([Element(tag, attrs, children)])) <==> Sanitizer.Clean(Document(children))
  {
    var e := [Element(tag, attrs, children)];
    assert e[1..] == [];
    assert CommentFree(e) <==> CommentFree(children);
    assert AttrFree(e, Sanitizer.HydrationKey) <==> AttrFree(children, Sanitizer.HydrationKey);
  }

  /** The frame adds neither a comment nor a marker of its own: the page is
      clean exactly when the head, the bar and the panes are. */
  lemma FrameClean(head: Node, nav: Node, panes: Node)
    ensures Sanitizer.Clean(Document(Frame(head, nav, panes))) <==>
      Sanitizer.Clean(Document([head])) && Sanitizer.Clean(Document([nav])) && Sanitizer.Clean(Document([panes]))
  {
    var key := Sanitizer.HydrationKey;
    CommentFreeAppend([nav], [panes]);
    AttrFreeAppend([nav], [panes], key);
    assert [nav] + [panes] == [nav, panes];
    assert !HasAttr([Attr("class", "mobile-container")], key);
    CleanOfElement("div", [Attr("class", "mobile-container")], [nav, panes]);
    var body := Element("body", [], [Div("mobile-container", [nav, panes])]);
    CleanOfElement("body", [], body.children);
    CommentFreeAppend([head], [body]);
    AttrFreeAppend([head], [body], key);
    assert [head] + [body] == [head, body];
    assert !HasAttr([Attr("lang", "en")], key);
    CleanOfElement("html", [Attr("lang", "en")], [head, body]);
    assert Frame(head, nav, panes)[1..] == [Element("html", [Attr("lang", "en")], [head, body])];
  }

  /** A generated page holds no comment and no hydration marker, so the
      sanitizer hands it back unchanged: what is written is the page as
      built. */
  lemma PageIsClean(summary: seq<Section>)
    ensures Sanitizer.Clean(GeneratePage(summary))
    ensures Sanitizer.Sanitize(GeneratePage(summary)) == GeneratePage(summary)
  {
    SidebarClean(summary);
    HeadClean();
    MobileNavClean();
    ContainerClean(Sidebar(summary));
    FrameClean(Head(), MobileNav(), Container(Sidebar(summary)));
  }

  /** The walk of the head element: title, the two meta tags, the
      stylesheet link and the script, one after the other. */
  function HeadWalk(): seq<Token>
  {
    [Open("head", [])]
    + [Open("title", []), TextToken("Hello world"), Close("title")]
    + [Open("meta", [Attr("charset", "utf-8")]), Close("meta")]
    + [Open("meta", [Attr("name", "viewport"), Attr("content", "width=device-width, initial-scale=1.0")]), Close("meta")]
    + [Open("link", [Attr("rel", "stylesheet"), Attr("href", "style.css")]), Close("link")]
    + [Open("script", [Attr("src", "script.js")]), Close("script")]
    + [Close("head")]
  }

  /** The walk of the mobile navigation bar: the hamburger with its three
      lines, then the heading. */
  function NavWalk(): seq<Token>
  {
    [Open("div", [Attr("class", "mobile-nav")])]
    + [Open("div", [Attr("class", "hamburger")])]
    + [Open("div", [Attr("class", "line")]), Close("div")]
    + [Open("div", [Attr("class", "line")]), Close("div")]
    + [Open("div", [Attr("class", "line")]), Close("div")]
    + [Close("div")]
    + [Open("h1", []), TextToken("uiua-essentials"), Close("h1")]
    + [Close("div")]
  }

  /** The walk of the two panes after the sidebar's contents: the sidebar
      pane closes, the content pane holds its placeholder, and the container
      closes. */
  function PanesAfter(): seq<Token>
  {
    [Close("div"), Open("div", [Attr("class", "content")]), TextToken("TODO"), Close("div"), Close("div")]
  }

  /** The walk of the page up to the inside of the sidebar pane: doctype,
      head, mobile navigation bar, and the opening of the two panes. */
  function SkeletonBefore(): seq<Token>
  {
    [DoctypeToken("html")] + [Open("html", [Attr("lang", "en")])] + HeadWalk()
    + [Open("body", [])] + [Open("div", [Attr("class", "mobile-container")])] + NavWalk()
    + [Open("div", [Attr("class", "container")])] + [Open("div", [Attr("class", "sidebar")])]
  }

  /** The walk of the page after the sidebar pane's contents: the rest of the
      panes, then the mobile container, the body and the document closed. */
  function SkeletonAfter(): seq<Token>
  {
    PanesAfter() + [Close("div")] + [Close("body")] + [Close("html")]
  }

  lemma EmptyElementTokens(tag: string, attrs: seq<Attr>)
    ensures Tokens([Element(tag, attrs, [])]) == [Open(tag, attrs), Close(tag)]
  {
    TokensOfElement(tag, attrs, []);
  }

  lemma TextElementTokens(tag: string, attrs: seq<Attr>, t: string)
    ensures Tokens([Element(tag, attrs, [Text(t)])]) == [Open(tag, attrs), TextToken(t), Close(tag)]
  {
    TokensOfElement(tag, attrs, [Text(t)]);
    assert [Text(t)][1..] == [];
  }

  lemma TripleTokens(x: Node, y: Node, z: Node)
    ensures Tokens([x, y, z]) == Tokens([x]) + Tokens([y]) + Tokens([z])
  {
    PairTokens(y, z);
    TokensAppend([x], [y, z]);
    assert [x] + [y, z] == [x, y, z];
  }

  lemma HeadTokens()
    ensures Tokens([Head()]) == HeadWalk()
  {
    var h := Head().children;
    TextElementTokens("title", [], "Hello world");
    EmptyElementTokens("meta", [Attr("charset", "utf-8")]);
    EmptyElementTokens("meta", [Attr("name", "viewport"), Attr("content", "width=device-width, initial-scale=1.0")]);
    EmptyElementTokens("link", [Attr("rel", "stylesheet"), Attr("href", "style.css")]);
    EmptyElementTokens("script", [Attr("src", "script.js")]);
    TokensAppend([h[0]], h[1..]);
    TokensAppend([h[1]], h[2..]);
    TokensAppend([h[2]], h[3..]);
    TokensAppend([h[3]], h[4..]);
    assert [h[0]] + h[1..] == h;
    assert [h[1]] + h[2..] == h[1..];
    assert [h[2]] + h[3..] == h[2..];
    assert [h[3]] + h[4..] == h[3..];
    assert h[4..] == [h[4]];
    TokensOfElement("head", [], h);
    Flatten5([Open("head", [])], Tokens([h[0]]), Tokens([h[1]]), Tokens([h[2]]),
      Tokens([h[3]]), Tokens([h[4]]), [Close("head")]);
  }

  lemma NavTokens()
    ensures Tokens([MobileNav()]) == NavWalk()
  {
    var line := Div("line", []);
    var hamburger := Div("hamburger", [line, line, line]);
    var heading := Element("h1", [], [Text("uiua-essentials")]);
    EmptyElementTokens("div", [Attr("class", "line")]);
    TripleTokens(line, line, line);
    TokensOfElement("div", [Attr("class", "hamburger")], [line, line, line]);
    TextElementTokens("h1", [], "uiua-essentials");
    PairTokens(hamburger, heading);
    TokensOfElement("div", [Attr("class", "mobile-nav")], [hamburger, heading]);
    FlattenNav([Open("div", [Attr("class", "mobile-nav")])], [Open("div", [Attr("class", "hamburger")])],
      Tokens([line]), [Close("div")], Tokens([heading]));
  }

  lemma ContainerTokens(sidebar: seq<Node>)
    ensures Tokens([Container(sidebar)]) ==
      [Open("div", [Attr("class", "container")])] + [Open("div", [Attr("class", "sidebar")])]
      + Tokens(sidebar) + PanesAfter()
  {
    var side := Div("sidebar", sidebar);
    var content := Div("content", [Text("TODO")]);
    PairTokens(side, content);
    TokensOfElement("div", [Attr("class", "sidebar")], sidebar);
    TextElementTokens("div", [Attr("class", "content")], "TODO");
    TokensOfElement("div", [Attr("class", "container")], [side, content]);
    FlattenPanes(Open("div", [Attr("class", "container")]), Open("div", [Attr("class", "sidebar")]),
      Tokens(sidebar), Close("div"), Open("div", [Attr("class", "content")]), TextToken("TODO"));
  }

  lemma PairTokens(x: Node, y: Node)
    ensures Tokens([x, y]) == Tokens([x]) + Tokens([y])
  {
    TokensAppend([x], [y]);
    assert [x] + [y] == [x, y];
  }

  lemma LeadingDoctype(name: string, rest: seq<Node>)
    ensures Tokens([Doctype(name)] + rest) == [DoctypeToken(name)] + Tokens(rest)
  {
    TokensAppend([Doctype(name)], rest);
    assert [Doctype(name)][1..] == [];
  }

  lemma FrameTokens(head: Node, nav: Node, panes: Node)
    ensures Tokens(Frame(head, nav, panes)) ==
      [DoctypeToken("html")] + [Open("html", [Attr("lang", "en")])] + Tokens([head])
      + [Open("body", [])] + [Open("div", [Attr("class", "mobile-container")])]
      + Tokens([nav]) + Tokens([panes])
      + [Close("div")] + [Close("body")] + [Close("html")]
  {
    var mc := Div("mobile-container", [nav, panes]);
    var body := Element("body", [], [mc]);
    var root := Element("html", [Attr("lang", "en")], [head, body]);
    PairTokens(nav, panes);
    TokensOfElement("div", [Attr("class", "mobile-container")], [nav, panes]);
    TokensOfElement("body", [], [mc]);
    PairTokens(head, body);
    TokensOfElement("html", [Attr("lang", "en")], [head, body]);
    LeadingDoctype("html", [root]);
    assert [Doctype("html")] + [root] == Frame(head, nav, panes);
    Regroup([DoctypeToken("html")], [Open("html", [Attr("lang", "en")])], Tokens([head]),
      [Open("body", [])], [Open("div", [Attr("class", "mobile-container")])], Tokens([nav]), Tokens([panes]),
      [Close("div")], [Close("body")], [Close("html")]);
  }

  /** The page's document-order walk is the fixed skeleton with the walk of
      the sidebar's contents spliced in: nothing outside the sidebar pane
      depends on the summary, and an empty summary leaves the bare skeleton. */
  lemma PageTokens(summary: seq<Section>)
    ensures Tokens(GeneratePage(summary).children) == SkeletonBefore() + Tokens(Sidebar(summary)) + SkeletonAfter()
  {
    var sidebar := Sidebar(summary);
    FrameTokens(Head(), MobileNav(), Container(sidebar));
    HeadTokens();
    NavTokens();
    ContainerTokens(sidebar);
    Splice([DoctypeToken("html")] + [Open("html", [Attr("lang", "en")])] + HeadWalk()
        + [Open("body", [])] + [Open("div", [Attr("class", "mobile-container")])] + NavWalk(),
      [Open("div", [Attr("class", "container")])], [Open("div", [Attr("class", "sidebar")])],
      Tokens(sidebar), PanesAfter(), [Close("div")], [Close("body")], [Close("html")]);
  }
}
