/**
  The part of the documentation summary the generator reads: sections with a
  title and a list of documentation items, each item carrying its links.
  Items carry more than their links upstream; only `links` is used here.
 */
module Summary {

  /** A navigable link: where it points and what it is labelled. */
  datatype Link = Link(url: string, title: string)

  /** A documentation item, seen only through its links. */
  datatype Item = Item(links: seq<Link>)

  /** One sidebar group: a title and the items under it. */
  datatype Section = Section(title: string, content: seq<Item>)

  /** The links of every item, item by item and link by link within an item:
      the `flat_map` over a section's content. */
  function FlatLinks(content: seq<Item>): seq<Link>
    decreases content
  {
    if content == [] then []
    else content[0].links + FlatLinks(content[1..])
  }

  /** How many links the items hold between them. */
  function LinkCount(content: seq<Item>): nat
    decreases content
  {
    if content == [] then 0
    else |content[0].links| + LinkCount(content[1..])
  }

  lemma {:induction false} FlatLinksAppend(a: seq<Item>, b: seq<Item>)
    ensures FlatLinks(a + b) == FlatLinks(a) + FlatLinks(b)
    decreases a
  {
    if a == [] {
      assert a + b == b;
    } else {
      assert (a + b)[0] == a[0];
      assert (a + b)[1..] == a[1..] + b;
      FlatLinksAppend(a[1..], b);
    }
  }

  /** Flattening neither drops nor merges links: there are exactly as many
      as the items hold. */
  lemma {:induction false} FlatLinksLength(content: seq<Item>)
    ensures |FlatLinks(content)| == LinkCount(content)
    decreases content
  {
    if content != [] {
      FlatLinksLength(content[1..]);
    }
  }

  /** Where link `j` of item `i` belongs in a flat list that keeps item order
      and link order: right after all the links of the items before `i`. */
  function Position(content: seq<Item>, i: nat, j: nat): nat
    requires i <= |content|
  {
    LinkCount(content[..i]) + j
  }

  /** Flattening keeps the order: link `j` of item `i` is found at its
      position. */
  lemma FlatLinksIndex(content: seq<Item>, i: nat, j: nat)
    requires i < |content| && j < |content[i].links|
    ensures Position(content, i, j) < |FlatLinks(content)|
    ensures FlatLinks(content)[Position(content, i, j)] == content[i].links[j]
  {
    assert content == content[..i] + ([content[i]] + content[i + 1..]);
    FlatLinksAppend(content[..i], [content[i]] + content[i + 1..]);
    FlatLinksAppend([content[i]], content[i + 1..]);
    assert [content[i]][1..] == [];
    FlatLinksLength(content[..i]);
  }

  /** Every flattened link is a link of some item, and every link of every
      item is among the flattened ones. */
  lemma {:induction false} FlatLinksMembers(content: seq<Item>, l: Link)
    ensures l in FlatLinks(content) <==> exists i :: 0 <= i < |content| && l in content[i].links
    decreases content
  {
    if content != [] {
      FlatLinksMembers(content[1..], l);
      if l in FlatLinks(content[1..]) {
        var i :| 0 <= i < |content[1..]| && l in content[1..][i].links;
        assert l in content[i + 1].links;
      }
      if exists i :: 0 <= i < |content| && l in content[i].links {
        var i :| 0 <= i < |content| && l in content[i].links;
        if i > 0 {
          assert l in content[1..][i - 1].links;
        }
      }
    }
  }

  /** The links of a whole summary, section after section. */
  function AllLinks(summary: seq<Section>): seq<Link>
    decreases summary
  {
    if summary == [] then []
    else FlatLinks(summary[0].content) + AllLinks(summary[1..])
  }

  /** Two sections, the first holding one item with two links, the second one
      item with one link. Their links come out as one list in input order,
      never grouped by item. */
  lemma ExampleOrder(l1: Link, l2: Link, l3: Link)
    ensures AllLinks([Section("A", [Item([l1, l2])]), Section("B", [Item([l3])])]) == [l1, l2, l3]
  {
    var a := [Section("A", [Item([l1, l2])]), Section("B", [Item([l3])])];
    assert a[1..] == [Section("B", [Item([l3])])];
    assert [Item([l1, l2])][1..] == [];
    assert [Item([l3])][1..] == [];
    assert FlatLinks([Item([l1, l2])]) == [l1, l2];
    assert FlatLinks([Item([l3])]) == [l3];
    assert a[1..][1..] == [];
    assert AllLinks(a[1..]) == [l3];
  }
}
