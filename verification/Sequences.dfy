/** Sequences without repetition, sorting by a given order, invariants along a sequence, and tables that differ in one row. */
module Sequences {
  ghost predicate Distinct<T>(q: seq<T>) {
    forall i, j :: 0 <= i < j < |q| ==> q[i] != q[j]
  }

  ghost predicate Ascending<T>(s: seq<T>, leq: (T, T) -> bool) {
    forall i, j :: 0 <= i < j < |s| ==> leq(s[i], s[j])
  }

  ghost predicate TotalOrder<T(!new)>(leq: (T, T) -> bool) {
    && (forall x, y :: leq(x, y) || leq(y, x))
    && (forall x, y, z :: leq(x, y) && leq(y, z) ==> leq(x, z))
  }

  function InsertBy<T>(x: T, s: seq<T>, leq: (T, T) -> bool): (r: seq<T>)
    ensures multiset(r) == multiset([x]) + multiset(s)
  {
    if s == [] || leq(x, s[0]) then [x] + s
    else
      assert s == [s[0]] + s[1..];
      [s[0]] + InsertBy(x, s[1..], leq)
  }

  /** The same elements in ascending order; equals keep their order. */
  function SortBy<T>(s: seq<T>, leq: (T, T) -> bool): (r: seq<T>)
    ensures multiset(r) == multiset(s)
  {
    if s == [] then []
    else
      assert s == [s[0]] + s[1..];
      InsertBy(s[0], SortBy(s[1..], leq), leq)
  }

  lemma {:induction false} InsertAscends<T(!new)>(x: T, s: seq<T>, leq: (T, T) -> bool)
    requires TotalOrder(leq) && Ascending(s, leq)
    ensures Ascending(InsertBy(x, s, leq), leq)
  {
    if s != [] && !leq(x, s[0]) {
      InsertAscends(x, s[1..], leq);
      var rest := InsertBy(x, s[1..], leq);
      forall i | 0 <= i < |rest| ensures leq(s[0], rest[i]) {
        assert rest[i] in multiset(rest);
        assert rest[i] == x || rest[i] in s[1..];
      }
    }
  }

  lemma {:induction false} SortByAscends<T(!new)>(s: seq<T>, leq: (T, T) -> bool)
    requires TotalOrder(leq)
    ensures Ascending(SortBy(s, leq), leq)
  {
    if s != [] {
      SortByAscends(s[1..], leq);
      InsertAscends(s[0], SortBy(s[1..], leq), leq);
    }
  }

  lemma SortByHasTheSame<T>(s: seq<T>, leq: (T, T) -> bool)
    ensures |SortBy(s, leq)| == |s| && forall x :: x in SortBy(s, leq) <==> x in s
    ensures Distinct(s) ==> Distinct(SortBy(s, leq))
  {
    assert |multiset(SortBy(s, leq))| == |multiset(s)|;
    forall x ensures x in SortBy(s, leq) <==> x in s {
      assert x in SortBy(s, leq) <==> x in multiset(SortBy(s, leq));
      assert x in s <==> x in multiset(s);
    }
    if Distinct(s) {
      DistinctByCount(s);
      CountedDistinct(SortBy(s, leq));
    }
  }

  lemma {:induction false} DistinctByCount<T>(s: seq<T>)
    requires Distinct(s)
    ensures forall x :: multiset(s)[x] <= 1
  {
    if s != [] {
      assert s == [s[0]] + s[1..];
      DistinctByCount(s[1..]);
      assert s[0] !in s[1..];
    }
  }

  lemma {:induction false} CountedDistinct<T>(s: seq<T>)
    requires forall x :: multiset(s)[x] <= 1
    ensures Distinct(s)
  {
    if s != [] {
      assert s == [s[0]] + s[1..];
      forall x ensures multiset(s[1..])[x] <= 1 {
        assert multiset(s)[x] == multiset([s[0]])[x] + multiset(s[1..])[x];
      }
      CountedDistinct(s[1..]);
      assert multiset(s)[s[0]] == 1 + multiset(s[1..])[s[0]];
      assert s[0] !in multiset(s[1..]);
      assert forall j :: 1 <= j < |s| ==> s[j] == s[1..][j - 1] && s[j] in s[1..];
    }
  }

  lemma SomeElement<T>(a: set<T>) returns (x: T)
    requires |a| > 0
    ensures x in a
  {
    x :| x in a;
  }

  /** A sequence without repetition is as long as its set of elements is large. */
  lemma {:induction false} DistinctSize<T>(s: seq<T>)
    requires Distinct(s)
    ensures |set x | x in s| == |s|
  {
    if s != [] {
      DistinctSize(s[1..]);
      assert s[0] !in s[1..];
      assert (set x | x in s) == {s[0]} + set x | x in s[1..];
    }
  }

  // ----- invariants along a sequence of states -----

  ghost predicate Carried<T>(states: seq<T>, p: T -> bool, i: nat)
    requires i + 1 < |states|
  {
    p(states[i]) ==> p(states[i + 1])
  }

  /** What holds at first and is carried over by every step holds throughout. */
  lemma {:induction false} HoldsAlong<T>(states: seq<T>, p: T -> bool, i: nat)
    requires i < |states| && p(states[0]) && forall j :: 0 <= j < |states| - 1 ==> Carried(states, p, j)
    ensures p(states[i])
  {
    if i > 0 {
      HoldsAlong(states, p, i - 1);
      assert Carried(states, p, i - 1);
    }
  }

  // ----- tables -----

  /** The tables agree in every row but that of `k`. */
  ghost predicate SameExcept<K(!new), V>(a: map<K, V>, b: map<K, V>, k: K) {
    forall x :: x != k ==> (x in a <==> x in b) && (x in a ==> a[x] == b[x])
  }
}
