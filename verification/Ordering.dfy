/** The iteration order of a C++ std::map or std::set: every key once, in ascending order. */
module Ordering {
  predicate Ordered<T(==)>(leq: (T, T) -> bool, a: T, b: T) {
    leq(a, a) && (leq(a, b) || leq(b, a)) && (leq(a, b) && leq(b, a) ==> a == b)
  }

  predicate Transitive<T>(leq: (T, T) -> bool, a: T, b: T, c: T) { leq(a, b) && leq(b, c) ==> leq(a, c) }

  ghost predicate TotalOrder<T(!new)>(leq: (T, T) -> bool) {
    && (forall a, b :: Ordered(leq, a, b))
    && (forall a, b, c :: Transitive(leq, a, b, c))
  }

  ghost predicate Ascending<T>(xs: seq<T>, leq: (T, T) -> bool) {
    forall i, j :: 0 <= i < j < |xs| ==> leq(xs[i], xs[j]) && xs[i] != xs[j]
  }

  lemma {:induction false} LeastExists<T(!new)>(s: set<T>, leq: (T, T) -> bool)
    requires s != {} && TotalOrder(leq)
    ensures exists m :: m in s && forall x :: x in s ==> leq(m, x)
    decreases |s|
  {
    var e :| e in s;
    assert Ordered(leq, e, e);
    if s != {e} {
      var rest := s - {e};
      assert s == rest + {e};
      LeastExists(rest, leq);
      var m :| m in rest && forall x :: x in rest ==> leq(m, x);
      var least := if leq(e, m) then e else m;
      assert Ordered(leq, e, m);
      forall x | x in s
        ensures leq(least, x)
      {
        assert Transitive(leq, e, m, x);
      }
    }
  }

  /** `xs` holds each element of `s` once, in ascending order. */
  ghost predicate Lists<T(!new)>(xs: seq<T>, s: set<T>, leq: (T, T) -> bool) {
    (forall x :: x in xs <==> x in s) && Ascending(xs, leq)
  }

  lemma PrependLeast<T(!new)>(xs: seq<T>, s: set<T>, m: T, leq: (T, T) -> bool)
    requires TotalOrder(leq) && m in s && (forall x :: x in s ==> leq(m, x)) && Lists(xs, s - {m}, leq)
    ensures Lists([m] + xs, s, leq)
  {
    var ys := [m] + xs;
    forall i, j | 0 <= i < j < |ys|
      ensures leq(ys[i], ys[j]) && ys[i] != ys[j]
    {
      assert ys[j] == xs[j - 1] && xs[j - 1] in xs;
      if i > 0 { assert ys[i] == xs[i - 1]; }
    }
    forall x | x in s
      ensures x in ys
    {
      if x != m { assert x in xs; }
    }
  }

  lemma {:induction false} ListingExists<T(!new)>(s: set<T>, leq: (T, T) -> bool)
    requires TotalOrder(leq)
    ensures exists xs :: Lists(xs, s, leq)
    decreases |s|
  {
    if s == {} {
      assert Lists([], s, leq);
    } else {
      LeastExists(s, leq);
      var m :| m in s && forall x :: x in s ==> leq(m, x);
      ListingExists(s - {m}, leq);
      var xs :| Lists(xs, s - {m}, leq);
      PrependLeast(xs, s, m, leq);
    }
  }

  /** There is only one such listing, so an iteration order is a function of the key set. */
  lemma {:induction false} ListingUnique<T(!new)>(xs: seq<T>, ys: seq<T>, s: set<T>, leq: (T, T) -> bool)
    requires TotalOrder(leq) && Lists(xs, s, leq) && Lists(ys, s, leq)
    ensures xs == ys
  {
    if xs != [] {
      assert xs[0] in s;
      assert xs[0] in ys && ys[0] in s && ys[0] in xs;
      assert Ordered(leq, xs[0], ys[0]) && Ordered(leq, xs[0], xs[0]);
      var rest := s - {xs[0]};
      TailLists(xs, s, leq);
      TailLists(ys, s, leq);
      ListingUnique(xs[1..], ys[1..], rest, leq);
      assert xs == [xs[0]] + xs[1..] && ys == [ys[0]] + ys[1..];
    } else {
      EmptyListing(xs, s, leq);
      EmptyListing(ys, s, leq);
    }
  }

  lemma EmptyListing<T(!new)>(xs: seq<T>, s: set<T>, leq: (T, T) -> bool)
    requires Lists(xs, s, leq)
    ensures xs == [] <==> s == {}
  {
    assert |xs| > 0 ==> xs[0] in s;
    if s != {} { var x :| x in s; }
  }

  lemma TailLists<T(!new)>(xs: seq<T>, s: set<T>, leq: (T, T) -> bool)
    requires xs != [] && Lists(xs, s, leq)
    ensures Lists(xs[1..], s - {xs[0]}, leq)
  {
    var rest := xs[1..];
    forall x | x in s - {xs[0]}
      ensures x in rest
    {
      var k :| 0 <= k < |xs| && xs[k] == x;
      assert rest[k - 1] == x;
    }
  }

  predicate NatLeq(a: nat, b: nat) { a <= b }

  /** Byte-wise lexicographic order, as std::string compares. */
  predicate StringLeq(a: string, b: string) {
    a == [] || (b != [] && (a[0] < b[0] || (a[0] == b[0] && StringLeq(a[1..], b[1..]))))
  }

  lemma NatLeqIsTotalOrder()
    ensures TotalOrder(NatLeq)
  {
  }

  lemma {:induction false} StringLeqReflexive(a: string)
    ensures StringLeq(a, a)
  {
    if a != [] { StringLeqReflexive(a[1..]); }
  }

  lemma {:induction false} StringLeqAntisymmetric(a: string, b: string)
    requires StringLeq(a, b) && StringLeq(b, a)
    ensures a == b
  {
    if a != [] && b != [] {
      StringLeqAntisymmetric(a[1..], b[1..]);
      assert a == [a[0]] + a[1..] && b == [b[0]] + b[1..];
    }
  }

  lemma {:induction false} StringLeqTransitive(a: string, b: string, c: string)
    requires StringLeq(a, b) && StringLeq(b, c)
    ensures StringLeq(a, c)
  {
    if a != [] && a[0] == b[0] == c[0] { StringLeqTransitive(a[1..], b[1..], c[1..]); }
  }

  lemma {:induction false} StringLeqTotal(a: string, b: string)
    ensures StringLeq(a, b) || StringLeq(b, a)
  {
    if a != [] && b != [] && a[0] == b[0] { StringLeqTotal(a[1..], b[1..]); }
  }

  lemma StringLeqIsTotalOrder()
    ensures TotalOrder(StringLeq)
  {
    forall a, b
      ensures Ordered(StringLeq, a, b)
    {
      StringLeqReflexive(a);
      StringLeqTotal(a, b);
      if StringLeq(a, b) && StringLeq(b, a) { StringLeqAntisymmetric(a, b); }
    }
    forall a, b, c
      ensures Transitive(StringLeq, a, b, c)
    {
      if StringLeq(a, b) && StringLeq(b, c) { StringLeqTransitive(a, b, c); }
    }
  }

  // ---- The two key types the client iterates over -----------------------

  /** The ids of `s` in ascending order. */
  ghost function SortedIds(s: set<nat>): (xs: seq<nat>)
    ensures forall x :: x in xs <==> x in s
    ensures forall i, j :: 0 <= i < j < |xs| ==> xs[i] < xs[j]
    ensures xs == [] <==> s == {}
  {
    NatLeqIsTotalOrder();
    ListingExists(s, NatLeq);
    var xs :| Lists(xs, s, NatLeq);
    EmptyListing(xs, s, NatLeq);
    xs
  }

  /** The strings of `s` in ascending order. */
  ghost function SortedStrings(s: set<string>): (xs: seq<string>)
    ensures forall x :: x in xs <==> x in s
    ensures Ascending(xs, StringLeq)
    ensures xs == [] <==> s == {}
  {
    StringLeqIsTotalOrder();
    ListingExists(s, StringLeq);
    var xs :| Lists(xs, s, StringLeq);
    EmptyListing(xs, s, StringLeq);
    xs
  }

  lemma SortedIdsCons(s: set<nat>, m: nat)
    requires m in s && forall j :: j in s ==> m <= j
    ensures SortedIds(s) == [m] + SortedIds(s - {m})
  {
    NatLeqIsTotalOrder();
    PrependLeast(SortedIds(s - {m}), s, m, NatLeq);
    ListingUnique(SortedIds(s), [m] + SortedIds(s - {m}), s, NatLeq);
  }

  lemma SortedStringsCons(s: set<string>, m: string)
    requires m in s && forall t :: t in s ==> StringLeq(m, t)
    ensures SortedStrings(s) == [m] + SortedStrings(s - {m})
  {
    StringLeqIsTotalOrder();
    PrependLeast(SortedStrings(s - {m}), s, m, StringLeq);
    ListingUnique(SortedStrings(s), [m] + SortedStrings(s - {m}), s, StringLeq);
  }

  /** The first key of a non-empty ordered container of ids. */
  method FirstId(s: set<nat>) returns (m: nat)
    requires s != {}
    ensures m in s && forall j :: j in s ==> m <= j
  {
    NatLeqIsTotalOrder();
    LeastExists(s, NatLeq);
    m :| m in s && forall j :: j in s ==> NatLeq(m, j);
  }

  /** The first key of a non-empty ordered container of strings. */
  method FirstString(s: set<string>) returns (m: string)
    requires s != {}
    ensures m in s && forall t :: t in s ==> StringLeq(m, t)
  {
    StringLeqIsTotalOrder();
    LeastExists(s, StringLeq);
    m :| m in s && forall t :: t in s ==> StringLeq(m, t);
  }
}
