/** The deterministic decision stream: one uniform draw from a sorted, deduplicated set. */
module Decision {
  import opened Wrappers

  /** A strict total order on the items of one list. */
  ghost predicate StrictOrderOn<T>(less: (T, T) -> bool, items: set<T>) {
    && (forall a :: a in items ==> !less(a, a))
    && (forall a, b, c :: a in items && b in items && c in items && less(a, b) && less(b, c) ==> less(a, c))
    && (forall a, b :: a in items && b in items && a != b ==> less(a, b) || less(b, a))
  }

  ghost predicate StrictlyIncreasing<T>(less: (T, T) -> bool, s: seq<T>) {
    forall i, j :: 0 <= i < j < |s| ==> less(s[i], s[j])
  }

  ghost function Elements<T>(s: seq<T>): (r: set<T>)
    ensures r == {} <==> s == []
  {
    var r := set x | x in s;
    assert s != [] ==> s[0] in r;
    r
  }

  datatype Chosen<T> = Chosen(selected: T, ordinal: nat, eligibleCount: nat)

  /** Inserts `x` into a strictly increasing list, dropping it when already present. */
  method Insert<T(==)>(less: (T, T) -> bool, s: seq<T>, x: T) returns (r: seq<T>)
    requires StrictOrderOn(less, Elements(s) + {x})
    requires StrictlyIncreasing(less, s)
    ensures StrictlyIncreasing(less, r)
    ensures Elements(r) == Elements(s) + {x}
  {
    var i := 0;
    while i < |s| && less(s[i], x)
      invariant 0 <= i <= |s|
      invariant forall j :: 0 <= j < i ==> less(s[j], x)
    {
      i := i + 1;
    }
    if i < |s| && s[i] == x {
      r := s;
      assert x in s;
    } else {
      r := s[..i] + [x] + s[i..];
      forall j | i <= j < |s| ensures less(x, s[j]) {
        assert s[i] in s && s[j] in s;
      }
      assert Elements(r) == Elements(s) + {x};
    }
  }

  /** Sorting and deduplicating a list. */
  method SortDedup<T(==)>(less: (T, T) -> bool, items: seq<T>) returns (r: seq<T>)
    requires StrictOrderOn(less, Elements(items))
    ensures StrictlyIncreasing(less, r)
    ensures Elements(r) == Elements(items)
  {
    r := [];
    for i := 0 to |items|
      invariant StrictlyIncreasing(less, r)
      invariant Elements(r) == Elements(items[..i])
    {
      assert Elements(items[..i + 1]) == Elements(items[..i]) + {items[i]};
      assert Elements(items[..i + 1]) <= Elements(items);
      r := Insert(less, r, items[i]);
    }
    assert items[..|items|] == items;
  }

  lemma {:induction false} IncreasingIsDistinct<T>(less: (T, T) -> bool, s: seq<T>)
    requires StrictOrderOn(less, Elements(s)) && StrictlyIncreasing(less, s)
    ensures |s| == |Elements(s)|
  {
    if s != [] {
      var t := s[..|s| - 1];
      var x := s[|s| - 1];
      assert Elements(s) == Elements(t) + {x};
      assert x !in t;
      IncreasingIsDistinct(less, t);
    }
  }

  lemma FirstIsLeast<T>(less: (T, T) -> bool, s: seq<T>, x: T)
    requires x in s && StrictlyIncreasing(less, s)
    ensures x == s[0] || less(s[0], x)
  {
    var i :| 0 <= i < |s| && s[i] == x;
  }

  /** A set has one strictly increasing listing: enumeration order and repetition are forgotten. */
  lemma {:induction false} ListingIsUnique<T>(less: (T, T) -> bool, s: seq<T>, t: seq<T>)
    requires StrictOrderOn(less, Elements(s))
    requires StrictlyIncreasing(less, s) && StrictlyIncreasing(less, t)
    requires Elements(s) == Elements(t)
    ensures s == t
  {
    hide StrictOrderOn, StrictlyIncreasing, Elements;
    assert s == [] <==> t == [];
    if s != [] {
      SameFirst(less, s, t);
      TailElements(less, s);
      TailElements(less, t);
      SmallerOrder(less, Elements(s), Elements(s[1..]));
      ListingIsUnique(less, s[1..], t[1..]);
      assert s == [s[0]] + s[1..] && t == [t[0]] + t[1..];
    }
  }

  lemma SmallerOrder<T>(less: (T, T) -> bool, items: set<T>, fewer: set<T>)
    requires StrictOrderOn(less, items) && fewer <= items
    ensures StrictOrderOn(less, fewer)
  {
  }

  lemma NotBoth<T>(less: (T, T) -> bool, items: set<T>, a: T, b: T)
    requires StrictOrderOn(less, items) && a in items && b in items
    ensures !(less(a, b) && less(b, a))
  {
  }

  lemma SameFirst<T>(less: (T, T) -> bool, s: seq<T>, t: seq<T>)
    requires s != [] && t != [] && StrictOrderOn(less, Elements(s)) && Elements(s) == Elements(t)
    requires StrictlyIncreasing(less, s) && StrictlyIncreasing(less, t)
    ensures s[0] == t[0]
  {
    hide StrictOrderOn, StrictlyIncreasing;
    assert s[0] in Elements(s) && t[0] in Elements(t);
    FirstIsLeast(less, s, t[0]);
    FirstIsLeast(less, t, s[0]);
    NotBoth(less, Elements(s), s[0], t[0]);
  }

  lemma TailElements<T>(less: (T, T) -> bool, s: seq<T>)
    requires s != [] && StrictOrderOn(less, Elements(s)) && StrictlyIncreasing(less, s)
    ensures Elements(s[1..]) == Elements(s) - {s[0]}
    ensures StrictlyIncreasing(less, s[1..])
  {
    assert s[0] in Elements(s);
    forall x | x in s[1..] ensures x != s[0] {
      var i :| 0 <= i < |s| - 1 && s[1..][i] == x;
      assert less(s[0], s[i + 1]);
    }
    forall x | x in s && x != s[0] ensures x in s[1..] {
      var i :| 0 <= i < |s| && s[i] == x;
      assert s[1..][i - 1] == x;
    }
  }

  /** The listing a call of `Choose` draws from; ListingForgetsEnumeration shows it is the only one. */
  ghost predicate IsListing<T>(less: (T, T) -> bool, items: seq<T>, listing: seq<T>) {
    StrictlyIncreasing(less, listing) && Elements(listing) == Elements(items)
  }

  /** Two enumerations of one set offer the same listing, hence the same choice for the same draw. */
  lemma ListingForgetsEnumeration<T>(
    less: (T, T) -> bool, items: seq<T>, others: seq<T>, a: seq<T>, b: seq<T>)
    requires StrictOrderOn(less, Elements(items))
    requires Elements(items) == Elements(others)
    requires IsListing(less, items, a) && IsListing(less, others, b)
    ensures a == b && |a| == |Elements(items)|
  {
    ListingIsUnique(less, a, b);
    IncreasingIsDistinct(less, a);
  }

  /** The random stream is an arbitrary function from position and range to a draw. */
  class DecisionEngine {
    const draw: (nat, nat) -> nat
    var position: nat
    var decisionNumber: nat

    constructor (draw: (nat, nat) -> nat)
      ensures this.draw == draw && position == 0 && decisionNumber == 0
    {
      this.draw := draw;
      position, decisionNumber := 0, 0;
    }

    method Choose<T(==)>(less: (T, T) -> bool, eligible: seq<T>) returns (decision: Option<Chosen<T>>)
      requires StrictOrderOn(less, Elements(eligible))
      modifies this
      ensures eligible == [] ==> decision.None? && position == old(position) && decisionNumber == old(decisionNumber)
      ensures eligible != [] ==>
        && decision.Some?
        && decision.value.ordinal == old(decisionNumber)
        && decisionNumber == old(decisionNumber) + 1
        && position == old(position) + 1
        && decision.value.eligibleCount == |Elements(eligible)| > 0
        && decision.value.selected in eligible
        && (exists listing ::
              && IsListing(less, eligible, listing)
              && |listing| == decision.value.eligibleCount
              && decision.value.selected == listing[draw(old(position), |listing|) % |listing|])
    {
      var sorted := SortDedup(less, eligible);
      IncreasingIsDistinct(less, sorted);
      if sorted == [] {
        return None;
      }
      assert sorted[0] in Elements(eligible);
      var index := draw(position, |sorted|) % |sorted|;
      var selected := sorted[index];
      assert selected in Elements(eligible);
      decision := Some(Chosen(selected, decisionNumber, |sorted|));
      position, decisionNumber := position + 1, decisionNumber + 1;
      assert IsListing(less, eligible, sorted);
    }
  }
}
