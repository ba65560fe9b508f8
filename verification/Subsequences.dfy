/** Order-preserving sub-lists, read from the end because histories grow there. */
module Subsequences {

  function Last<T>(s: seq<T>): T
    requires s != []
  {
    s[|s| - 1]
  }

  function Init<T>(s: seq<T>): seq<T>
    requires s != []
  {
    s[..|s| - 1]
  }

  /** `a` is `b` with some elements left out, in the same order. */
  ghost predicate IsSubseq<T>(a: seq<T>, b: seq<T>)
    decreases |b|
  {
    || a == []
    || (b != [] && IsSubseq(a, Init(b)))
    || (b != [] && a != [] && Last(a) == Last(b) && IsSubseq(Init(a), Init(b)))
  }

  lemma {:induction false} SubseqSkip<T>(a: seq<T>, b: seq<T>, x: T)
    requires IsSubseq(a, b)
    ensures IsSubseq(a, b + [x])
  {
    assert Init(b + [x]) == b;
  }

  lemma {:induction false} SubseqTake<T>(a: seq<T>, b: seq<T>, x: T)
    requires IsSubseq(a, b)
    ensures IsSubseq(a + [x], b + [x])
  {
    assert Init(b + [x]) == b && Init(a + [x]) == a;
  }

  lemma {:induction false} SubseqInit<T>(a: seq<T>, b: seq<T>)
    requires a != [] && IsSubseq(a, b)
    ensures IsSubseq(Init(a), b)
    decreases |b|
  {
    if !IsSubseq(a, Init(b)) {
      assert IsSubseq(Init(a), Init(b));
    } else {
      SubseqInit(a, Init(b));
    }
  }

  lemma {:induction false} SubseqPrefix<T>(a: seq<T>, c: seq<T>, b: seq<T>)
    requires IsSubseq(a + c, b)
    ensures IsSubseq(a, b)
    decreases |c|
  {
    if c == [] {
      assert a + c == a;
    } else {
      SubseqInit(a + c, b);
      assert Init(a + c) == a + Init(c);
      SubseqPrefix(a, Init(c), b);
    }
  }
}
