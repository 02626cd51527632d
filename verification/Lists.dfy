/** Lists without repetition. */
module Lists {

  ghost predicate NoDup<T>(s: seq<T>)
  {
    forall i, j :: 0 <= i < j < |s| ==> s[i] != s[j]
  }

  /** The list after `x` was taken off. */
  function Without<T(==,!new)>(s: seq<T>, x: T): (r: seq<T>)
    ensures forall y :: y in r <==> y in s && y != x
    ensures |r| <= |s|
  {
    if s == [] then []
    else if s[0] == x then Without(s[1..], x)
    else [s[0]] + Without(s[1..], x)
  }

  lemma {:induction false} WithoutIs<T(!new)>(s: seq<T>, x: T)
    requires NoDup(s)
    ensures NoDup(Without(s, x))
  {
    if s != [] {
      var first, rest := s[0], s[1..];
      WithoutIs(rest, x);
      assert first !in rest;
      assert first !in Without(rest, x);
    }
  }

  /** Taking off an entry keeps the others in their order. */
  lemma {:induction false} WithoutAt<T(!new)>(s: seq<T>, x: T, k: nat)
    requires NoDup(s) && k <= |s| && (if k < |s| then s[k] == x else x !in s)
    ensures Without(s, x) == s[..k] + (if k < |s| then s[k + 1..] else [])
  {
    if s != [] {
      if k > 0 {
        WithoutAt(s[1..], x, k - 1);
        assert s[..k] == [s[0]] + s[1..][..k - 1];
      } else {
        WithoutAt(s[1..], x, |s[1..]|);
      }
    }
  }
}
