/** Lists of environment names and Ruby's array difference over them. */
module Names {

  /** An environment or host name; Ruby compares them by content. */
  type Name = string

  /** Ruby's `Array#-`: the elements of `a` that do not occur in `b`, in the
      order of `a` and with their repetitions; every occurrence of an element
      of `b` is dropped. */
  function SeqMinus(a: seq<Name>, b: seq<Name>): (r: seq<Name>)
    ensures |r| <= |a|
    ensures forall x :: x in r <==> x in a && x !in b
    decreases |a|
  {
    if a == [] then []
    else
      assert a == [a[0]] + a[1..];
      if a[0] in b then SeqMinus(a[1..], b)
      else [a[0]] + SeqMinus(a[1..], b)
  }

  /** Each surviving element keeps all its occurrences. */
  lemma {:induction false} SeqMinusCount(a: seq<Name>, b: seq<Name>)
    ensures forall x :: multiset(SeqMinus(a, b))[x] == if x in b then 0 else multiset(a)[x]
    decreases |a|
  {
    if a != [] {
      assert a == [a[0]] + a[1..];
      SeqMinusCount(a[1..], b);
    }
  }

  /** The difference is a filter: it distributes over concatenation, so the
      relative order of the surviving elements is that of `a`. */
  lemma {:induction false} SeqMinusAppend(a1: seq<Name>, a2: seq<Name>, b: seq<Name>)
    ensures SeqMinus(a1 + a2, b) == SeqMinus(a1, b) + SeqMinus(a2, b)
    decreases |a1|
  {
    if a1 == [] {
      assert a1 + a2 == a2;
    } else {
      assert (a1 + a2)[1..] == a1[1..] + a2;
      assert (a1 + a2)[0] == a1[0];
      SeqMinusAppend(a1[1..], a2, b);
    }
  }

  /** Subtracting twice is subtracting the concatenation once. */
  lemma {:induction false} SeqMinusTwice(a: seq<Name>, b: seq<Name>, c: seq<Name>)
    ensures SeqMinus(SeqMinus(a, b), c) == SeqMinus(a, b + c)
    decreases |a|
  {
    if a != [] {
      SeqMinusTwice(a[1..], b, c);
      if a[0] !in b {
        assert SeqMinus(a, b) == [a[0]] + SeqMinus(a[1..], b);
        assert SeqMinus(a, b)[1..] == SeqMinus(a[1..], b);
      }
    }
  }

  /** Nothing is removed when no element of `a` occurs in `b`. */
  lemma {:induction false} SeqMinusKeepsAll(a: seq<Name>, b: seq<Name>)
    requires forall x :: x in a ==> x !in b
    ensures SeqMinus(a, b) == a
    decreases |a|
  {
    if a != [] {
      assert a == [a[0]] + a[1..];
      SeqMinusKeepsAll(a[1..], b);
    }
  }

  /** The difference is empty exactly when every element of `a` occurs in `b`. */
  lemma SeqMinusEmpty(a: seq<Name>, b: seq<Name>)
    ensures SeqMinus(a, b) == [] <==> forall x :: x in a ==> x in b
  {
    var r := SeqMinus(a, b);
    if r != [] {
      assert r[0] in r;
    }
  }
}
