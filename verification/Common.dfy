/** Small vocabulary shared by the whole model: nullable columns and lists. */
module Common {

  /** A nullable column, or Python's `x | None`. */
  datatype Option<+T> = None | Some(value: T) {
    function GetOr(default: T): T {
      match this
      case Some(v) => v
      case None => default
    }
  }

  predicate Distinct<T(==)>(s: seq<T>) {
    forall i, j :: 0 <= i < j < |s| ==> s[i] != s[j]
  }

  /** The list comprehension `[x for x in s if p(x)]`. */
  function Filter<T(!new)>(s: seq<T>, p: T -> bool): (r: seq<T>)
    ensures |r| <= |s|
    ensures forall x :: x in r <==> x in s && p(x)
  {
    if s == [] then []
    else
      var n := |s| - 1;
      Filter(s[..n], p) + (if p(s[n]) then [s[n]] else [])
  }

  lemma FilterSnoc<T(!new)>(s: seq<T>, x: T, p: T -> bool)
    ensures Filter(s + [x], p) == Filter(s, p) + (if p(x) then [x] else [])
  {
    assert (s + [x])[..|s|] == s;
  }

  lemma {:induction false} FilterConcat<T(!new)>(a: seq<T>, b: seq<T>, p: T -> bool)
    ensures Filter(a + b, p) == Filter(a, p) + Filter(b, p)
  {
    if b == [] {
      assert a + b == a;
    } else {
      var n := |b| - 1;
      assert (a + b)[..|a + b| - 1] == a + b[..n];
      FilterConcat(a, b[..n], p);
    }
  }

  /** Filtering twice is filtering by the conjunction. */
  lemma {:induction false} FilterFilter<T(!new)>(s: seq<T>, p: T -> bool, q: T -> bool, both: T -> bool)
    requires forall x :: both(x) == (p(x) && q(x))
    ensures Filter(Filter(s, p), q) == Filter(s, both)
  {
    if s != [] {
      var n := |s| - 1;
      FilterFilter(s[..n], p, q, both);
      if p(s[n]) {
        FilterSnoc(Filter(s[..n], p), s[n], q);
      } else {
        assert Filter(s, p) == Filter(s[..n], p);
      }
    }
  }

  lemma {:induction false} FilterCongruent<T(!new)>(s: seq<T>, p: T -> bool, q: T -> bool)
    requires forall x :: x in s ==> p(x) == q(x)
    ensures Filter(s, p) == Filter(s, q)
  {
    if s != [] {
      FilterCongruent(s[..|s| - 1], p, q);
    }
  }

  lemma {:induction false} FilterAll<T(!new)>(s: seq<T>, p: T -> bool)
    requires forall x :: x in s ==> p(x)
    ensures Filter(s, p) == s
  {
    if s != [] {
      var n := |s| - 1;
      var front := s[..n];
      FilterAll(front, p);
      assert s[n] in s;
      assert Filter(s, p) == Filter(front, p) + [s[n]];
      assert s == front + [s[n]];
    }
  }

  /** The values that `f` makes of the elements, skipping those it makes nothing of. */
  function Collect<T(!new), R>(s: seq<T>, f: T -> Option<R>): seq<R> {
    if s == [] then []
    else
      var n := |s| - 1;
      Collect(s[..n], f) + (match f(s[n]) case Some(v) => [v] case None => [])
  }

  lemma CollectSnoc<T(!new), R>(s: seq<T>, x: T, f: T -> Option<R>)
    ensures Collect(s + [x], f) == Collect(s, f) + (match f(x) case Some(v) => [v] case None => [])
  {
    assert (s + [x])[..|s|] == s;
  }

  lemma {:induction false} CollectConcat<T(!new), R>(a: seq<T>, b: seq<T>, f: T -> Option<R>)
    ensures Collect(a + b, f) == Collect(a, f) + Collect(b, f)
  {
    if b == [] {
      assert a + b == a;
    } else {
      var n := |b| - 1;
      assert (a + b)[..|a + b| - 1] == a + b[..n];
      CollectConcat(a, b[..n], f);
    }
  }

  /** A page: up to `size` elements from `offset` on. */
  function Window<T>(s: seq<T>, offset: nat, size: nat): seq<T> {
    var lo := if offset <= |s| then offset else |s|;
    var hi := if offset + size <= |s| then offset + size else |s|;
    s[lo..hi]
  }

  function UpTo<T>(s: seq<T>, n: int): seq<T> {
    s[..if n < 0 then 0 else if n <= |s| then n else |s|]
  }

  lemma UpToAll<T>(s: seq<T>, n: int)
    requires |s| <= n
    ensures UpTo(s, n) == s
  {
  }

  lemma NextWindow<T>(s: seq<T>, offset: nat, size: nat)
    ensures UpTo(s, offset) + Window(s, offset, size) == UpTo(s, offset + size)
  {
  }

  lemma SameSizes<T>(a: multiset<T>, b: multiset<T>)
    requires a <= b && |a| == |b|
    ensures a == b
  {
    assert b == a + (b - a);
    assert |b - a| == 0;
  }
}
