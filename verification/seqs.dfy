/**
  Regroupings of sequence concatenations used by the page proofs. Each one is
  a plain associativity fact that Dafny proves unaided; they are stated as
  lemmas of their own over abstract pieces so that the proofs about the page,
  which concatenate many literal pieces, only have to match terms instead of
  reasoning about sequence contents, which keeps those proofs cheap and
  stable.
 */
module Seqs {

  /** A sequence is one element followed by a rest exactly when its head and
      tail are those. */
  lemma Cons<T>(x: T, rest: seq<T>, s: seq<T>)
    requires s != []
    ensures [x] + rest == s <==> s[0] == x && rest == s[1..]
  {
    if s[0] == x && rest == s[1..] {
      assert [x] + rest == [s[0]] + s[1..];
    }
  }

  lemma Associate<T>(a: seq<T>, b: seq<T>, c: seq<T>)
    ensures a + (b + c) == a + b + c
  {
  }

  /** An element around five children. */
  lemma Flatten5<T>(o: seq<T>, w0: seq<T>, w1: seq<T>, w2: seq<T>, w3: seq<T>, w4: seq<T>, c: seq<T>)
    ensures o + (w0 + (w1 + (w2 + (w3 + w4)))) + c == o + w0 + w1 + w2 + w3 + w4 + c
  {
  }

  /** An element around a three-child element and one more child. */
  lemma FlattenNav<T>(o: seq<T>, oh: seq<T>, l: seq<T>, cd: seq<T>, h: seq<T>)
    ensures o + (oh + (l + l + l) + cd + h) + cd == o + oh + l + l + l + cd + h + cd
  {
  }

  /** An element around an element with contents and a three-step element. */
  lemma FlattenPanes<T>(oc: T, os: T, t: seq<T>, cd: T, ocon: T, tt: T)
    ensures [oc] + (([os] + t + [cd]) + [ocon, tt, cd]) + [cd] == [oc] + [os] + t + [cd, ocon, tt, cd, cd]
  {
  }

  /** Four nested levels around a pair of pieces. */
  lemma Regroup<T>(d: seq<T>, oh: seq<T>, th: seq<T>, ob: seq<T>, omc: seq<T>,
                   tn: seq<T>, tp: seq<T>, cd: seq<T>, cb: seq<T>, ch: seq<T>)
    ensures d + (oh + (th + (ob + (omc + (tn + tp) + cd) + cb)) + ch)
      == d + oh + th + ob + omc + tn + tp + cd + cb + ch
  {
  }

  /** Moving a middle piece out of a nested group. */
  lemma Splice<T>(x: seq<T>, oc: seq<T>, os: seq<T>, t: seq<T>, pa: seq<T>, cd: seq<T>, cb: seq<T>, ch: seq<T>)
    ensures x + (oc + os + t + pa) + cd + cb + ch == (x + oc + os) + t + (pa + cd + cb + ch)
  {
  }
}
