/** Sequence operations shared by the ledger queries, the reminder job and the
    dashboard: an order-keeping filter, concatenation of text pieces and a
    sort for ORDER BY. */
module Seqs {

  /** `r` is `s` with some elements left out and the rest kept in order
      (greedy matching decides it). */
  predicate Subseq<T(==)>(r: seq<T>, s: seq<T>)
  {
    if r == [] then true
    else if s == [] then false
    else if r[0] == s[0] then Subseq(r[1..], s[1..])
    else Subseq(r, s[1..])
  }

  /** The elements of `s` that satisfy `p`, in their original order. */
  function Filter<T>(s: seq<T>, p: T -> bool): seq<T>
  {
    if s == [] then []
    else if p(s[0]) then [s[0]] + Filter(s[1..], p)
    else Filter(s[1..], p)
  }

  /** What Filter keeps: exactly the elements satisfying `p`, as often as
      they occur, in their original order. */
  lemma {:induction false} FilterSpec<T(!new)>(s: seq<T>, p: T -> bool)
    ensures forall i :: 0 <= i < |Filter(s, p)| ==> p(Filter(s, p)[i])
    ensures forall x :: x in Filter(s, p) <==> x in s && p(x)
    ensures forall x :: multiset(Filter(s, p))[x] == if p(x) then multiset(s)[x] else 0
    ensures Subseq(Filter(s, p), s)
  {
    if s != [] {
      FilterSpec(s[1..], p);
      assert s == [s[0]] + s[1..];
    }
  }

  lemma {:induction false} FilterAppend<T(!new)>(a: seq<T>, b: seq<T>, p: T -> bool)
    ensures Filter(a + b, p) == Filter(a, p) + Filter(b, p)
  {
    if a == [] {
      assert a + b == b;
    } else {
      assert (a + b)[0] == a[0];
      assert (a + b)[1..] == a[1..] + b;
      FilterAppend(a[1..], b, p);
    }
  }

  /** Filter keeps a sequence whose every element satisfies `p`. */
  lemma {:induction false} FilterKeepsAll<T>(s: seq<T>, p: T -> bool)
    requires forall i :: 0 <= i < |s| ==> p(s[i])
    ensures Filter(s, p) == s
  {
    if s != [] {
      FilterKeepsAll(s[1..], p);
    }
  }

  /** Filter empties a sequence none of whose elements satisfies `p`. */
  lemma {:induction false} FilterDropsAll<T>(s: seq<T>, p: T -> bool)
    requires forall i :: 0 <= i < |s| ==> !p(s[i])
    ensures Filter(s, p) == []
  {
    if s != [] {
      FilterDropsAll(s[1..], p);
    }
  }

  /** The pieces of text joined in order. */
  function Concat(parts: seq<string>): string
  {
    if parts == [] then "" else parts[0] + Concat(parts[1..])
  }

  lemma {:induction false} ConcatAppend(a: seq<string>, b: seq<string>)
    ensures Concat(a + b) == Concat(a) + Concat(b)
  {
    if a == [] {
      assert a + b == b;
    } else {
      assert (a + b)[1..] == a[1..] + b;
      ConcatAppend(a[1..], b);
    }
  }

  /** `le` orders every pair of values and is transitive. */
  ghost predicate TotalPreorder<T(!new)>(le: (T, T) -> bool)
  {
    && (forall a, b :: le(a, b) || le(b, a))
    && (forall a, b, c :: le(a, b) && le(b, c) ==> le(a, c))
  }

  predicate Sorted<T>(s: seq<T>, le: (T, T) -> bool)
  {
    forall i, j :: 0 <= i < j < |s| ==> le(s[i], s[j])
  }

  lemma LowerBoundOfPermutation<T>(y: T, r: seq<T>, s: seq<T>, x: T, le: (T, T) -> bool)
    requires multiset(r) == multiset(s) + multiset{x}
    requires le(y, x) && forall k :: 0 <= k < |s| ==> le(y, s[k])
    ensures forall k :: 0 <= k < |r| ==> le(y, r[k])
  {
    forall k | 0 <= k < |r| ensures le(y, r[k]) {
      assert r[k] in multiset(r);
      if r[k] != x {
        assert r[k] in multiset(s);
        var m :| 0 <= m < |s| && s[m] == r[k];
      }
    }
  }

  /** `x` put into the sorted `s` before the first element it does not follow. */
  function Insert<T(==,!new)>(x: T, s: seq<T>, le: (T, T) -> bool): (r: seq<T>)
    requires TotalPreorder(le) && Sorted(s, le)
    ensures Sorted(r, le)
    ensures multiset(r) == multiset(s) + multiset{x}
  {
    if s == [] then [x]
    else if le(x, s[0]) then [x] + s
    else
      assert s == [s[0]] + s[1..];
      var rest := Insert(x, s[1..], le);
      LowerBoundOfPermutation(s[0], rest, s[1..], x, le);
      [s[0]] + rest
  }

  /** Insertion sort: an ordering of `s` that `le` accepts. */
  function Sort<T(==,!new)>(s: seq<T>, le: (T, T) -> bool): (r: seq<T>)
    requires TotalPreorder(le)
    ensures Sorted(r, le)
    ensures multiset(r) == multiset(s)
  {
    if s == [] then []
    else
      assert s == [s[0]] + s[1..];
      Insert(s[0], Sort(s[1..], le), le)
  }
}
