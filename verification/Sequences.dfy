/** Mapping and concatenating sequences. */
module Sequences {
  /** The concatenation of f over the elements of s. */
  function FlatMap<A, B>(f: A -> seq<B>, s: seq<A>): seq<B> {
    if s == [] then [] else FlatMap(f, s[..|s| - 1]) + f(s[|s| - 1])
  }

  lemma UpdateLast<T>(s: seq<T>, x: T, y: T)
    ensures (s + [x])[|s| := y] == s + [y]
  {
  }

  lemma FlatMapAppend<A, B>(f: A -> seq<B>, s: seq<A>, x: A)
    ensures FlatMap(f, s + [x]) == FlatMap(f, s) + f(x)
  {
    assert (s + [x])[..|s|] == s;
  }

  lemma FlatMapOne<A, B>(f: A -> seq<B>, x: A)
    ensures FlatMap(f, [x]) == f(x)
  {
    FlatMapAppend(f, [], x);
    assert [] + [x] == [x];
  }

  lemma {:induction false} FlatMapConcat<A, B>(f: A -> seq<B>, s: seq<A>, t: seq<A>)
    ensures FlatMap(f, s + t) == FlatMap(f, s) + FlatMap(f, t)
  {
    if t == [] {
      assert s + t == s;
    } else {
      var front, last := t[..|t| - 1], t[|t| - 1];
      FlatMapConcat(f, s, front);
      FlatMapAppend(f, front, last);
      FlatMapAppend(f, s + front, last);
      assert s + t == s + front + [last] && t == front + [last];
    }
  }

  /** `at` says where the elements of t stand in s: t is a subsequence of s. */
  predicate Selects<T(==)>(s: seq<T>, t: seq<T>, at: seq<nat>) {
    && |at| == |t| <= |s|
    && (forall i :: 0 <= i < |at| ==> at[i] < |s| && t[i] == s[at[i]])
    && (forall i, j :: 0 <= i < j < |at| ==> at[i] < at[j])
  }

  lemma SelectsMore<T>(s: seq<T>, t: seq<T>, at: seq<nat>, x: T)
    requires Selects(s, t, at)
    ensures Selects(s + [x], t, at) && Selects(s + [x], t + [x], at + [|s|])
  {
  }
}
