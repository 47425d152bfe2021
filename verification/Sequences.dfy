/** Finite lists: images, filters, subsequences picked by index, prefixes. */
module Sequences {

  function Map<A, B>(f: A -> B, s: seq<A>): (r: seq<B>)
    ensures |r| == |s|
    ensures forall i :: 0 <= i < |s| ==> r[i] == f(s[i])
  {
    seq(|s|, i requires 0 <= i < |s| => f(s[i]))
  }

  function Filter<A(!new)>(keep: A -> bool, s: seq<A>): (r: seq<A>)
    ensures forall a :: a in r <==> a in s && keep(a)
    ensures |r| <= |s|
  {
    if s == [] then []
    else
      assert forall a :: a in s <==> a == s[0] || a in s[1..];
      (if keep(s[0]) then [s[0]] else []) + Filter(keep, s[1..])
  }

  lemma MapMembers<A, B>(f: A -> B, s: seq<A>, b: B)
    ensures b in Map(f, s) <==> exists a :: a in s && f(a) == b
  {
    if b in Map(f, s) {
      var i :| 0 <= i < |s| && Map(f, s)[i] == b;
      assert s[i] in s && f(s[i]) == b;
    }
    if a :| a in s && f(a) == b {
      var i :| 0 <= i < |s| && s[i] == a;
      assert Map(f, s)[i] == b;
    }
  }

  function FlatMap<A, B>(f: A -> seq<B>, s: seq<A>): seq<B> {
    if s == [] then [] else f(s[0]) + FlatMap(f, s[1..])
  }

  lemma {:induction false} FlatMapMembers<A, B>(f: A -> seq<B>, s: seq<A>, b: B)
    ensures b in FlatMap(f, s) <==> exists a :: a in s && b in f(a)
  {
    if s != [] {
      FlatMapMembers(f, s[1..], b);
      assert s == [s[0]] + s[1..];
      assert forall a :: a in s <==> a == s[0] || a in s[1..];
    }
  }

  lemma {:induction false} FilterConcat<A(!new)>(keep: A -> bool, s: seq<A>, t: seq<A>)
    ensures Filter(keep, s + t) == Filter(keep, s) + Filter(keep, t)
  {
    if s == [] {
      assert s + t == t;
    } else {
      assert (s + t)[1..] == s[1..] + t;
      FilterConcat(keep, s[1..], t);
    }
  }

  lemma {:induction false} FilterAll<A(!new)>(keep: A -> bool, s: seq<A>)
    requires forall a :: a in s ==> keep(a)
    ensures Filter(keep, s) == s
  {
    if s != [] {
      FilterAll(keep, s[1..]);
    }
  }

  lemma {:induction false} FilterNone<A(!new)>(keep: A -> bool, s: seq<A>)
    requires forall a :: a in s ==> !keep(a)
    ensures Filter(keep, s) == []
  {
    if s != [] {
      FilterNone(keep, s[1..]);
    }
  }

  /** Two lists that agree position by position on what is kept keep equally many. */
  lemma {:induction false} FilterPointwise<A(!new), B(!new)>(keep: A -> bool, s: seq<A>, retain: B -> bool, t: seq<B>)
    requires |s| == |t| && forall i :: 0 <= i < |s| ==> (keep(s[i]) <==> retain(t[i]))
    ensures |Filter(keep, s)| == |Filter(retain, t)|
  {
    if s != [] {
      FilterPointwise(keep, s[1..], retain, t[1..]);
    }
  }

  /** A strictly increasing list of indices below `bound`. */
  predicate Ascending(indices: seq<nat>, bound: nat) {
    && (forall i :: 0 <= i < |indices| ==> indices[i] < bound)
    && (forall i, j :: 0 <= i < j < |indices| ==> indices[i] < indices[j])
  }

  /** The elements of `s` at `indices`, in that order. */
  function Select<A>(s: seq<A>, indices: seq<nat>): (r: seq<A>)
    requires forall i :: 0 <= i < |indices| ==> indices[i] < |s|
    ensures |r| == |indices|
    ensures forall i :: 0 <= i < |indices| ==> r[i] == s[indices[i]]
  {
    seq(|indices|, i requires 0 <= i < |indices| => s[indices[i]])
  }

  /** No element occurs twice. */
  predicate Distinct<A(==)>(s: seq<A>) {
    forall i, j :: 0 <= i < j < |s| ==> s[i] != s[j]
  }

  lemma DistinctConcat<A>(s: seq<A>, t: seq<A>)
    requires Distinct(s) && Distinct(t) && forall a :: a in s ==> a !in t
    ensures Distinct(s + t)
  {
    forall i, j | 0 <= i < j < |s + t| ensures (s + t)[i] != (s + t)[j] {
      if i < |s| <= j { assert (s + t)[i] in s && (s + t)[j] in t; }
    }
  }

  lemma DistinctMap<A, B>(f: A -> B, s: seq<A>)
    requires Distinct(s) && forall a, b :: f(a) == f(b) ==> a == b
    ensures Distinct(Map(f, s))
  {
  }

  lemma {:induction false} DistinctFilter<A(!new)>(keep: A -> bool, s: seq<A>)
    requires Distinct(s)
    ensures Distinct(Filter(keep, s))
  {
    if s != [] {
      DistinctFilter(keep, s[1..]);
      DistinctConcat(if keep(s[0]) then [s[0]] else [], Filter(keep, s[1..]));
    }
  }

  lemma {:induction false} DistinctFlatMap<A(!new), B>(f: A -> seq<B>, s: seq<A>)
    requires Distinct(s) && forall a :: Distinct(f(a))
    requires forall a, b, x :: a != b && x in f(a) ==> x !in f(b)
    ensures Distinct(FlatMap(f, s))
  {
    if s != [] {
      DistinctFlatMap(f, s[1..]);
      forall x | x in f(s[0]) ensures x !in FlatMap(f, s[1..]) {
        FlatMapMembers(f, s[1..], x);
      }
      DistinctConcat(f(s[0]), FlatMap(f, s[1..]));
    }
  }

  /** A list without repeats is as long as the set of its elements. */
  lemma {:induction false} DistinctCounts<A>(s: seq<A>, all: set<A>)
    requires Distinct(s) && forall a :: a in all <==> a in s
    ensures |s| == |all|
  {
    if s == [] {
      assert all == {};
    } else {
      var n := |s| - 1;
      assert s == s[..n] + [s[n]];
      DistinctCounts(s[..n], all - {s[n]});
    }
  }
}
