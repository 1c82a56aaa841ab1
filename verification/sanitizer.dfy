/**
  The clean-up pass that runs over the parsed page before it is written out:
  every comment node is detached, at any depth, and the hydration marker
  attribute `data-hk` is removed from every element that carries it. Nothing
  else in the tree changes.
 */
module Sanitizer {
  import opened Dom
  import Seqs

  /** The attribute the rendering framework stamps on elements for hydration. */
  const HydrationKey: string := "data-hk"

  /** `attrs` without the attributes called `name`, the others kept in order. */
  function DropAttr(attrs: seq<Attr>, name: string): (r: seq<Attr>)
    ensures !HasAttr(r, name)
    ensures forall a :: a in r <==> a in attrs && a.name != name
    ensures !HasAttr(attrs, name) ==> r == attrs
    ensures |r| <= |attrs|
    decreases attrs
  {
    if attrs == [] then []
    else if attrs[0].name == name then DropAttr(attrs[1..], name)
    else [attrs[0]] + DropAttr(attrs[1..], name)
  }

  /** Dropping works piece by piece, so the attributes that stay keep their
      order. */
  lemma {:induction false} DropAttrAppend(a: seq<Attr>, b: seq<Attr>, name: string)
    ensures DropAttr(a + b, name) == DropAttr(a, name) + DropAttr(b, name)
    decreases a
  {
    if a == [] {
      assert a + b == b;
    } else {
      assert (a + b)[0] == a[0];
      assert (a + b)[1..] == a[1..] + b;
      DropAttrAppend(a[1..], b, name);
    }
  }

  /** The comment-removal pass: every comment node is detached together with
      nothing else; elements keep their tag and attributes and have their own
      children cleaned the same way. */
  function StripComments(ns: seq<Node>): (r: seq<Node>)
    ensures CommentFree(r)
    ensures CommentFree(ns) ==> r == ns
    ensures AttrFree(r, HydrationKey) <==> AttrFree(ns, HydrationKey)
    ensures |r| <= |ns|
    decreases ns
  {
    if ns == [] then []
    else
      var rest := StripComments(ns[1..]);
      match ns[0]
      case Comment(_) => rest
      case Element(tag, attrs, children) => [Element(tag, attrs, StripComments(children))] + rest
      case _ => [ns[0]] + rest
  }

  /** The marker-removal pass: every element loses its `data-hk` attribute;
      no node is added, removed or moved. */
  function StripMarker(ns: seq<Node>): (r: seq<Node>)
    ensures AttrFree(r, HydrationKey)
    ensures AttrFree(ns, HydrationKey) ==> r == ns
    ensures CommentFree(r) <==> CommentFree(ns)
    ensures |r| == |ns|
    decreases ns
  {
    if ns == [] then []
    else
      var rest := StripMarker(ns[1..]);
      match ns[0]
      case Element(tag, attrs, children) =>
        [Element(tag, DropAttr(attrs, HydrationKey), StripMarker(children))] + rest
      case _ => [ns[0]] + rest
  }

  /** A document the sanitizer has nothing left to do on. */
  predicate Clean(d: Document)
  {
    CommentFree(d.children) && AttrFree(d.children, HydrationKey)
  }

  /** The tree rewrite of `generate_html`: comments first, then markers, both
      over the whole document including its top level. The result is clean,
      and a document is left untouched exactly when it was already clean. */
  function Sanitize(d: Document): (r: Document)
    ensures Clean(r)
    ensures r == d <==> Clean(d)
  {
    Document(StripMarker(StripComments(d.children)))
  }

  /** Running the sanitizer a second time changes nothing. */
  lemma SanitizeIdempotent(d: Document)
    ensures Sanitize(Sanitize(d)) == Sanitize(d)
  {
  }

  /** The walk with every comment step left out. */
  function DropCommentTokens(ts: seq<Token>): (r: seq<Token>)
    decreases ts
  {
    if ts == [] then []
    else if ts[0].CommentToken? then DropCommentTokens(ts[1..])
    else [ts[0]] + DropCommentTokens(ts[1..])
  }

  /** The walk with the marker attribute left out of every element step. */
  function DropMarkerTokens(ts: seq<Token>): (r: seq<Token>)
    decreases ts
  {
    if ts == [] then []
    else if ts[0].Open? then [Open(ts[0].tag, DropAttr(ts[0].attrs, HydrationKey))] + DropMarkerTokens(ts[1..])
    else [ts[0]] + DropMarkerTokens(ts[1..])
  }

  lemma {:induction false} DropCommentTokensAppend(a: seq<Token>, b: seq<Token>)
    ensures DropCommentTokens(a + b) == DropCommentTokens(a) + DropCommentTokens(b)
    decreases a
  {
    if a == [] {
      assert a + b == b;
    } else {
      assert (a + b)[0] == a[0];
      assert (a + b)[1..] == a[1..] + b;
      DropCommentTokensAppend(a[1..], b);
    }
  }

  lemma {:induction false} DropMarkerTokensAppend(a: seq<Token>, b: seq<Token>)
    ensures DropMarkerTokens(a + b) == DropMarkerTokens(a) + DropMarkerTokens(b)
    decreases a
  {
    if a == [] {
      assert a + b == b;
    } else {
      assert (a + b)[0] == a[0];
      assert (a + b)[1..] == a[1..] + b;
      DropMarkerTokensAppend(a[1..], b);
    }
  }

  /** Comment removal changes the document-order walk in exactly one way: the
      comment steps disappear. Every other element, attribute list and text
      stays, in the same order and nesting. */
  lemma {:induction false} StripCommentsTokens(ns: seq<Node>)
    ensures Tokens(StripComments(ns)) == DropCommentTokens(Tokens(ns))
    decreases ns
  {
    if ns != [] {
      StripCommentsTokens(ns[1..]);
      var rest := StripComments(ns[1..]);
      match ns[0]
      case Comment(t) =>
        DropCommentTokensAppend([CommentToken(t)], Tokens(ns[1..]));
      case Element(tag, attrs, children) =>
        StripCommentsTokens(children);
        var e := Element(tag, attrs, StripComments(children));
        TokensAppend([e], rest);
        assert [e][1..] == [];
        DropCommentTokensAppend([Open(tag, attrs)] + Tokens(children) + [Close(tag)], Tokens(ns[1..]));
        DropCommentTokensAppend([Open(tag, attrs)] + Tokens(children), [Close(tag)]);
        DropCommentTokensAppend([Open(tag, attrs)], Tokens(children));
      case Text(t) =>
        TokensAppend([ns[0]], rest);
        assert [ns[0]][1..] == [];
        DropCommentTokensAppend([TextToken(t)], Tokens(ns[1..]));
      case Doctype(n) =>
        TokensAppend([ns[0]], rest);
        assert [ns[0]][1..] == [];
        DropCommentTokensAppend([DoctypeToken(n)], Tokens(ns[1..]));
    }
  }

  /** Marker removal changes the document-order walk in exactly one way:
      every element step loses its `data-hk` attribute. */
  lemma {:induction false} StripMarkerTokens(ns: seq<Node>)
    ensures Tokens(StripMarker(ns)) == DropMarkerTokens(Tokens(ns))
    decreases ns
  {
    if ns != [] {
      StripMarkerTokens(ns[1..]);
      var rest := StripMarker(ns[1..]);
      match ns[0]
      case Element(tag, attrs, children) =>
        StripMarkerTokens(children);
        var e := Element(tag, DropAttr(attrs, HydrationKey), StripMarker(children));
        TokensAppend([e], rest);
        assert [e][1..] == [];
        DropMarkerTokensAppend([Open(tag, attrs)] + Tokens(children) + [Close(tag)], Tokens(ns[1..]));
        DropMarkerTokensAppend([Open(tag, attrs)] + Tokens(children), [Close(tag)]);
        DropMarkerTokensAppend([Open(tag, attrs)], Tokens(children));
      case Text(t) =>
        TokensAppend([ns[0]], rest);
        assert [ns[0]][1..] == [];
        DropMarkerTokensAppend([TextToken(t)], Tokens(ns[1..]));
      case Comment(t) =>
        TokensAppend([ns[0]], rest);
        assert [ns[0]][1..] == [];
        DropMarkerTokensAppend([CommentToken(t)], Tokens(ns[1..]));
      case Doctype(n) =>
        TokensAppend([ns[0]], rest);
        assert [ns[0]][1..] == [];
        DropMarkerTokensAppend([DoctypeToken(n)], Tokens(ns[1..]));
    }
  }

  /** What the sanitizer does to the whole document, seen as its walk: comment
      steps are gone and element steps have lost the marker; nothing else
      differs. */
  lemma SanitizeTokens(d: Document)
    ensures Tokens(Sanitize(d).children) == DropMarkerTokens(DropCommentTokens(Tokens(d.children)))
  {
    StripCommentsTokens(d.children);
    StripMarkerTokens(StripComments(d.children));
  }

  /** The two passes can run in either order. */
  lemma {:induction false} PassesCommute(ns: seq<Node>)
    ensures StripMarker(StripComments(ns)) == StripComments(StripMarker(ns))
    decreases ns
  {
    if ns != [] {
      PassesCommute(ns[1..]);
      match ns[0]
      case Element(tag, attrs, children) =>
        PassesCommute(children);
      case _ =>
    }
  }

  // ----- What the renderer adds -----

  /** `attrs` is `plain` with hydration markers slipped in: the attributes of
      `plain` in their order, with any number of `data-hk` attributes
      anywhere among them. */
  predicate Marked(plain: seq<Attr>, attrs: seq<Attr>)
    decreases attrs
  {
    if attrs == [] then plain == []
    else if attrs[0].name == HydrationKey then Marked(plain, attrs[1..])
    else plain != [] && plain[0] == attrs[0] && Marked(plain[1..], attrs[1..])
  }

  /** `rendered` is the forest `page` as the rendering framework hands it
      over: comment nodes inserted anywhere, at any depth, and markers added
      to elements, with the page's own nodes otherwise kept as they are and
      in order. */
  predicate Decorates(page: seq<Node>, rendered: seq<Node>)
    decreases rendered
  {
    if rendered == [] then page == []
    else
      match rendered[0]
      case Comment(_) => Decorates(page, rendered[1..])
      case Element(tag, attrs, children) =>
        page != [] && page[0].Element? && page[0].tag == tag
        && Marked(page[0].attrs, attrs) && Decorates(page[0].children, children)
        && Decorates(page[1..], rendered[1..])
      case _ => page != [] && page[0] == rendered[0] && Decorates(page[1..], rendered[1..])
  }

  /** Marked attributes are exactly those that dropping the marker maps back
      to the plain ones. */
  lemma {:induction false} MarkedIffDropped(plain: seq<Attr>, attrs: seq<Attr>)
    ensures Marked(plain, attrs) <==> DropAttr(attrs, HydrationKey) == plain
    decreases attrs
  {
    if attrs == [] {
    } else if attrs[0].name == HydrationKey {
      MarkedIffDropped(plain, attrs[1..]);
    } else {
      var rest := DropAttr(attrs[1..], HydrationKey);
      assert DropAttr(attrs, HydrationKey) == [attrs[0]] + rest;
      if plain != [] {
        MarkedIffDropped(plain[1..], attrs[1..]);
        Seqs.Cons(attrs[0], rest, plain);
      }
    }
  }

  /** Sanitizing takes out exactly what the renderer put in: every forest
      decorates its sanitized form. */
  lemma {:induction false} DecoratesSanitized(rendered: seq<Node>)
    ensures Decorates(StripMarker(StripComments(rendered)), rendered)
    decreases rendered
  {
    if rendered != [] {
      DecoratesSanitized(rendered[1..]);
      var rest := StripMarker(StripComments(rendered[1..]));
      match rendered[0]
      case Comment(_) =>
      case Element(tag, attrs, children) =>
        DecoratesSanitized(children);
        MarkedIffDropped(DropAttr(attrs, HydrationKey), attrs);
        var e := Element(tag, attrs, StripComments(children));
        assert StripComments(rendered) == [e] + StripComments(rendered[1..]);
        assert ([e] + StripComments(rendered[1..]))[1..] == StripComments(rendered[1..]);
      case Text(_) =>
        assert StripComments(rendered) == [rendered[0]] + StripComments(rendered[1..]);
        assert ([rendered[0]] + StripComments(rendered[1..]))[1..] == StripComments(rendered[1..]);
      case Doctype(_) =>
        assert StripComments(rendered) == [rendered[0]] + StripComments(rendered[1..]);
        assert ([rendered[0]] + StripComments(rendered[1..]))[1..] == StripComments(rendered[1..]);
    }
  }

  /** A decorated forest sanitizes back to the page it decorates. */
  lemma {:induction false} SanitizesDecorated(page: seq<Node>, rendered: seq<Node>)
    requires Decorates(page, rendered)
    ensures StripMarker(StripComments(rendered)) == page
    decreases rendered
  {
    if rendered != [] {
      match rendered[0]
      case Comment(_) =>
        SanitizesDecorated(page, rendered[1..]);
      case Element(tag, attrs, children) =>
        SanitizesDecorated(page[0].children, children);
        SanitizesDecorated(page[1..], rendered[1..]);
        MarkedIffDropped(page[0].attrs, attrs);
        var e := Element(tag, attrs, StripComments(children));
        assert StripComments(rendered) == [e] + StripComments(rendered[1..]);
        assert ([e] + StripComments(rendered[1..]))[1..] == StripComments(rendered[1..]);
        assert page == [page[0]] + page[1..];
      case Text(_) =>
        SanitizesDecorated(page[1..], rendered[1..]);
        assert StripComments(rendered) == [rendered[0]] + StripComments(rendered[1..]);
        assert ([rendered[0]] + StripComments(rendered[1..]))[1..] == StripComments(rendered[1..]);
        assert page == [page[0]] + page[1..];
      case Doctype(_) =>
        SanitizesDecorated(page[1..], rendered[1..]);
        assert StripComments(rendered) == [rendered[0]] + StripComments(rendered[1..]);
        assert ([rendered[0]] + StripComments(rendered[1..]))[1..] == StripComments(rendered[1..]);
        assert page == [page[0]] + page[1..];
    }
  }

  /** A rendered document decorates a page exactly when sanitizing it gives
      that page back: the sanitizer undoes the renderer's additions and
      nothing else. */
  lemma DecoratesIffSanitizes(page: Document, rendered: Document)
    ensures Decorates(page.children, rendered.children) <==> Sanitize(rendered) == page
  {
    DecoratesSanitized(rendered.children);
    if Decorates(page.children, rendered.children) {
      SanitizesDecorated(page.children, rendered.children);
    }
  }

  /** A clean page rendered without any additions is a decoration of
      itself. */
  lemma DecoratesClean(page: Document)
    requires Clean(page)
    ensures Decorates(page.children, page.children)
  {
    DecoratesIffSanitizes(page, page);
  }
}
