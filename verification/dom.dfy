/**
  The abstract document tree that the generator builds its page as and that
  the sanitizer rewrites: a parsed HTML document reduced to the node kinds the
  generator can meet (elements, text, comments and the doctype).
 */
module Dom {

  /** One attribute of an element, written `name="value"` in markup. */
  datatype Attr = Attr(name: string, value: string)

  /** A node of the tree. Elements keep their attributes and their children in
      document order. */
  datatype Node =
    | Element(tag: string, attrs: seq<Attr>, children: seq<Node>)
    | Text(text: string)
    | Comment(text: string)
    | Doctype(name: string)

  /** The document node a parse yields. Its children are the top level of the
      page: the doctype, the `html` element and whatever else sits beside them
      (a comment, say). */
  datatype Document = Document(children: seq<Node>)

  /** True when some attribute in `attrs` is called `name`. */
  predicate HasAttr(attrs: seq<Attr>, name: string)
  {
    exists i :: 0 <= i < |attrs| && attrs[i].name == name
  }

  /** No comment node anywhere in the forest, at any depth. */
  predicate CommentFree(ns: seq<Node>)
    decreases ns
  {
    if ns == [] then true
    else
      (match ns[0]
       case Comment(_) => false
       case Element(_, _, children) => CommentFree(children)
       case _ => true)
      && CommentFree(ns[1..])
  }

  /** No element anywhere in the forest carries an attribute called `name`. */
  predicate AttrFree(ns: seq<Node>, name: string)
    decreases ns
  {
    if ns == [] then true
    else
      (match ns[0]
       case Element(_, attrs, children) => !HasAttr(attrs, name) && AttrFree(children, name)
       case _ => true)
      && AttrFree(ns[1..], name)
  }

  /** One step of a document-order walk over a tree: entering an element,
      leaving it again, or visiting a leaf. The walk is what a serializer
      writes out, without any escaping. */
  datatype Token =
    | Open(tag: string, attrs: seq<Attr>)
    | Close(tag: string)
    | TextToken(text: string)
    | CommentToken(text: string)
    | DoctypeToken(name: string)

  /** The document-order walk of a forest. */
  function Tokens(ns: seq<Node>): seq<Token>
    decreases ns
  {
    if ns == [] then []
    else
      (match ns[0]
       case Element(tag, attrs, children) => [Open(tag, attrs)] + Tokens(children) + [Close(tag)]
       case Text(t) => [TextToken(t)]
       case Comment(t) => [CommentToken(t)]
       case Doctype(n) => [DoctypeToken(n)])
      + Tokens(ns[1..])
  }

  /** The walk of two forests side by side is the walk of the first followed
      by the walk of the second. */
  lemma {:induction false} TokensAppend(a: seq<Node>, b: seq<Node>)
    ensures Tokens(a + b) == Tokens(a) + Tokens(b)
    decreases a
  {
    if a == [] {
      assert a + b == b;
    } else {
      assert (a + b)[0] == a[0];
      assert (a + b)[1..] == a[1..] + b;
      TokensAppend(a[1..], b);
    }
  }

  /** The walk of a lone element: open, its children's walk, close. */
  lemma TokensOfElement(tag: string, attrs: seq<Attr>, children: seq<Node>)
    ensures Tokens([Element(tag, attrs, children)]) == [Open(tag, attrs)] + Tokens(children) + [Close(tag)]
  {
    assert [Element(tag, attrs, children)][1..] == [];
  }

  /** Two forests side by side are comment-free exactly when both are. */
  lemma {:induction false} CommentFreeAppend(a: seq<Node>, b: seq<Node>)
    ensures CommentFree(a + b) <==> CommentFree(a) && CommentFree(b)
    decreases a
  {
    if a == [] {
      assert a + b == b;
    } else {
      assert (a + b)[0] == a[0];
      assert (a + b)[1..] == a[1..] + b;
      CommentFreeAppend(a[1..], b);
    }
  }

  /** Two forests side by side are free of attribute `name` exactly when both
      are. */
  lemma {:induction false} AttrFreeAppend(a: seq<Node>, b: seq<Node>, name: string)
    ensures AttrFree(a + b, name) <==> AttrFree(a, name) && AttrFree(b, name)
    decreases a
  {
    if a == [] {
      assert a + b == b;
    } else {
      assert (a + b)[0] == a[0];
      assert (a + b)[1..] == a[1..] + b;
      AttrFreeAppend(a[1..], b, name);
    }
  }
}
