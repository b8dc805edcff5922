/** Sequences, mostly seen from their end: loops that append build them that way. */
module Sequences {
  function Init<T>(s: seq<T>): (r: seq<T>)
    requires s != []
  {
    s[..|s| - 1]
  }

  function Last<T>(s: seq<T>): T
    requires s != []
  {
    s[|s| - 1]
  }

  function Min(a: nat, b: nat): nat {
    if a < b then a else b
  }

  lemma Assoc<T>(a: seq<T>, b: seq<T>, c: seq<T>)
    ensures (a + b) + c == a + (b + c)
  {
  }

  lemma WithEmpty<T>(a: seq<T>)
    ensures a + [] == a == [] + a
  {
  }

  lemma ConcatEmpty<T>(a: seq<T>, b: seq<T>)
    ensures a + b == [] <==> a == [] && b == []
  {
    assert |a + b| == |a| + |b|;
  }

  lemma SplitLast<T>(s: seq<T>)
    requires s != []
    ensures s == Init(s) + [Last(s)]
  {
  }

  lemma InitOfConcat<T>(a: seq<T>, b: seq<T>)
    requires b != []
    ensures Init(a + b) == a + Init(b) && Last(a + b) == Last(b)
  {
  }

  lemma LastOfConcat<T>(a: seq<T>, b: seq<T>)
    ensures b != [] ==> Last(a + b) == Last(b) && Last(b) in b
  {
  }

  lemma TakeNext<T>(s: seq<T>, i: nat)
    requires i < |s|
    ensures Init(s[..i + 1]) == s[..i] && Last(s[..i + 1]) == s[i]
  {
  }

  /** What remains without the elements at the given indices. */
  function Without<T>(s: seq<T>, indices: seq<nat>): seq<T> {
    if s == [] then []
    else Without(Init(s), indices) + if |s| - 1 in indices then [] else [Last(s)]
  }

  predicate Below(indices: seq<nat>, n: nat) {
    forall i :: i in indices ==> i < n
  }

  lemma {:induction false} WithoutSame<T>(s: seq<T>, a: seq<nat>, b: seq<nat>)
    requires forall i :: 0 <= i < |s| ==> (i in a <==> i in b)
    ensures Without(s, a) == Without(s, b)
  {
    if s != [] {
      WithoutSame(Init(s), a, b);
    }
  }

  lemma {:induction false} WithoutNone<T>(s: seq<T>)
    ensures Without(s, []) == s
  {
    if s != [] {
      WithoutNone(Init(s));
      SplitLast(s);
    }
  }
}
