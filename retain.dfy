/// `Vec::retain(|&b| a != b)`, the removal every id list of the engine uses: all
/// occurrences of one value go, the rest keep their order.
module Retain {

  function RemoveAll<T(==,!new)>(s: seq<T>, x: T): (r: seq<T>)
    ensures x !in r && |r| <= |s|
    ensures forall y :: y != x ==> (y in r <==> y in s)
    ensures x !in s ==> r == s
  {
    if s == [] then []
    else if s[|s| - 1] == x then RemoveAll(s[..|s| - 1], x)
    else RemoveAll(s[..|s| - 1], x) + [s[|s| - 1]]
  }

  /// Removal works piecewise, so the kept elements stay in their order.
  lemma {:induction false} RemoveAllAppend<T(!new)>(a: seq<T>, b: seq<T>, x: T)
    ensures RemoveAll(a + b, x) == RemoveAll(a, x) + RemoveAll(b, x)
    decreases |b|
  {
    if b != [] {
      var b' := b[..|b| - 1];
      assert (a + b)[..|a + b| - 1] == a + b';
      RemoveAllAppend(a, b', x);
    } else {
      assert a + b == a;
    }
  }
}
