/** `Array.prototype.filter` as the screens use it, and the order-preserving
    sublist relation its result stands in to its input. */
module Arrays {

  /** `s.filter(p)`: the elements of `s` that satisfy `p`, each copy kept,
      in their original order. */
  function Filter<T(!new)>(p: T -> bool, s: seq<T>): (r: seq<T>)
    ensures |r| <= |s|
    ensures forall x :: x in r <==> x in s && p(x)
    ensures forall i :: 0 <= i < |r| ==> p(r[i])
    ensures forall x :: multiset(r)[x] == if p(x) then multiset(s)[x] else 0
    decreases s
  {
    if s == [] then []
    else
      assert s == [s[0]] + s[1..];
      if p(s[0]) then [s[0]] + Filter(p, s[1..]) else Filter(p, s[1..])
  }

  /** `r` is obtained from `s` by deleting elements: every element of `r`
      comes from `s`, and in the same relative order. */
  ghost predicate IsSublist<T(!new)>(r: seq<T>, s: seq<T>)
    decreases |s|
  {
    if r == [] then true
    else if s == [] then false
    else (r[0] == s[0] && IsSublist(r[1..], s[1..])) || IsSublist(r, s[1..])
  }

  lemma {:induction false} SublistLength<T(!new)>(r: seq<T>, s: seq<T>)
    requires IsSublist(r, s)
    ensures |r| <= |s|
    decreases |s|
  {
    if r != [] {
      if r[0] == s[0] && IsSublist(r[1..], s[1..]) {
        SublistLength(r[1..], s[1..]);
      } else {
        SublistLength(r, s[1..]);
      }
    }
  }

  /** A weaker predicate keeps a sublist of what a stronger one keeps. */
  lemma {:induction false} FilterMonotone<T(!new)>(p: T -> bool, q: T -> bool, s: seq<T>)
    requires forall x :: x in s && p(x) ==> q(x)
    ensures IsSublist(Filter(p, s), Filter(q, s))
    decreases s
  {
    if s != [] {
      var t := s[1..];
      assert forall x :: x in t ==> x in s;
      FilterMonotone(p, q, t);
      var fp, fq := Filter(p, t), Filter(q, t);
      if p(s[0]) {
        assert Filter(p, s) == [s[0]] + fp;
        assert Filter(q, s) == [s[0]] + fq;
        assert ([s[0]] + fp)[1..] == fp;
        assert ([s[0]] + fq)[1..] == fq;
      } else if q(s[0]) {
        assert Filter(p, s) == fp;
        assert Filter(q, s) == [s[0]] + fq;
        assert ([s[0]] + fq)[1..] == fq;
      } else {
        assert Filter(p, s) == fp;
        assert Filter(q, s) == fq;
      }
    }
  }

  /** A filter that rejects nothing returns its input unchanged. */
  lemma {:induction false} FilterKeepsAll<T(!new)>(p: T -> bool, s: seq<T>)
    requires forall x :: x in s ==> p(x)
    ensures Filter(p, s) == s
    decreases s
  {
    if s != [] {
      assert forall x :: x in s[1..] ==> x in s;
      FilterKeepsAll(p, s[1..]);
      assert s == [s[0]] + s[1..];
    }
  }

  /** Predicates that agree on the elements of `s` filter it alike. */
  lemma {:induction false} FilterCongruent<T(!new)>(p: T -> bool, q: T -> bool, s: seq<T>)
    requires forall x :: x in s ==> p(x) == q(x)
    ensures Filter(p, s) == Filter(q, s)
    decreases s
  {
    if s != [] {
      assert forall x :: x in s[1..] ==> x in s;
      FilterCongruent(p, q, s[1..]);
    }
  }

  /** The result of a filter is an order-preserving sublist of its input. */
  lemma FilterIsSublist<T(!new)>(p: T -> bool, s: seq<T>)
    ensures IsSublist(Filter(p, s), s)
  {
    var all := (x: T) => true;
    FilterMonotone(p, all, s);
    FilterKeepsAll(all, s);
  }
}
