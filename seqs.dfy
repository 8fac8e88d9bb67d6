/** Order-preserving filtering of sequences and the sublist relation it produces. */
module Seqs {

  /** `a` can be obtained from `b` by deleting elements (an order-preserving sublist). */
  ghost predicate Sublist<T>(a: seq<T>, b: seq<T>)
    decreases |b|
  {
    if a == [] then true
    else if b == [] then false
    else if a[0] == b[0] then Sublist(a[1..], b[1..])
    else Sublist(a, b[1..])
  }

  /** `[x for x in s if p(x)]`. */
  function Filter<T>(s: seq<T>, p: T -> bool): (r: seq<T>)
    ensures |r| <= |s|
    ensures forall i :: 0 <= i < |r| ==> r[i] in s && p(r[i])
    ensures forall i :: 0 <= i < |s| && p(s[i]) ==> s[i] in r
    ensures Sublist(r, s)
  {
    if s == [] then []
    else if p(s[0]) then [s[0]] + Filter(s[1..], p)
    else Filter(s[1..], p)
  }

  /** Filtering keeps every element that passes as often as it occurs, and no other. */
  lemma {:induction false} FilterCount<T>(s: seq<T>, p: T -> bool)
    ensures forall x :: multiset(Filter(s, p))[x] == if p(x) then multiset(s)[x] else 0
  {
    if s != [] {
      FilterCount(s[1..], p);
      FilterCountStep(s, p, Filter(s[1..], p), Filter(s, p));
    }
  }

  /** The occurrence counts of one filtering step, from those of the filtered tail. */
  lemma FilterCountStep<T>(s: seq<T>, p: T -> bool, t: seq<T>, r: seq<T>)
    requires s != [] && r == if p(s[0]) then [s[0]] + t else t
    requires forall i :: 0 <= i < |t| ==> t[i] in s[1..]
    requires forall x :: x in s[1..] ==> multiset(t)[x] == if p(x) then multiset(s[1..])[x] else 0
    ensures forall x :: multiset(r)[x] == if p(x) then multiset(s)[x] else 0
  {
    assert s == [s[0]] + s[1..];
    forall x
      ensures multiset(r)[x] == if p(x) then multiset(s)[x] else 0
    {
      if x !in s[1..] {
        assert x !in t;
      }
    }
  }

  /** The sublist relation is transitive. */
  lemma {:induction false} SublistTrans<T>(a: seq<T>, b: seq<T>, c: seq<T>)
    requires Sublist(a, b) && Sublist(b, c)
    ensures Sublist(a, c)
    decreases |c|
  {
    if a != [] && b != [] && c != [] {
      if a[0] == b[0] && b[0] == c[0] {
        SublistTrans(a[1..], b[1..], c[1..]);
      } else if b[0] == c[0] {
        SublistTrans(a, b[1..], c[1..]);
        SublistDropHead(a, c);
      } else {
        SublistTrans(a, b, c[1..]);
        SublistDropHead(a, c);
      }
    }
  }

  /** A sublist of `b` with its head dropped is still a sublist of `b`. */
  lemma {:induction false} SublistCons<T>(a: seq<T>, b: seq<T>)
    requires a != [] && Sublist(a, b)
    ensures Sublist(a[1..], b)
    decreases |b|
  {
    if a[0] == b[0] {
      SublistDropHead(a[1..], b);
    } else {
      SublistCons(a, b[1..]);
      SublistDropHead(a[1..], b);
    }
  }

  /** Anything that is a sublist of `b`'s tail is a sublist of `b`. */
  lemma SublistDropHead<T>(a: seq<T>, b: seq<T>)
    requires b != [] && Sublist(a, b[1..])
    ensures Sublist(a, b)
    decreases |b|, 0
  {
    if a != [] && a[0] == b[0] {
      SublistCons(a, b[1..]);
    }
  }
}
