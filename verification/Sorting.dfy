/** Python's sorted() with a key, as a stable insertion sort, and what it forgets. */
module Sorting {

  ghost predicate Order<T(!new)>(before: (T, T) -> bool) {
    && (forall a, b :: before(a, b) || before(b, a))
    && (forall a, b, d :: before(a, b) && before(b, d) ==> before(a, d))
  }

  function Insert<T>(x: T, xs: seq<T>, before: (T, T) -> bool): seq<T> {
    if xs == [] then [x]
    else if before(xs[|xs| - 1], x) then xs + [x]
    else Insert(x, xs[..|xs| - 1], before) + [xs[|xs| - 1]]
  }

  function Sort<T>(xs: seq<T>, before: (T, T) -> bool): seq<T> {
    if xs == [] then [] else Insert(xs[|xs| - 1], Sort(xs[..|xs| - 1], before), before)
  }

  ghost predicate Sorted<T>(xs: seq<T>, before: (T, T) -> bool) {
    forall i, j :: 0 <= i < j < |xs| ==> before(xs[i], xs[j])
  }

  lemma {:induction false} InsertSorts<T(!new)>(x: T, xs: seq<T>, before: (T, T) -> bool)
    requires Order(before) && Sorted(xs, before)
    ensures Sorted(Insert(x, xs, before), before)
    ensures multiset(Insert(x, xs, before)) == multiset(xs) + multiset{x}
  {
    if xs != [] {
      var front, last := xs[..|xs| - 1], xs[|xs| - 1];
      assert xs == front + [last];
      if !before(last, x) {
        InsertSorts(x, front, before);
        var ins := Insert(x, front, before);
        forall i | 0 <= i < |ins| ensures before(ins[i], last) {
          assert ins[i] in multiset(ins);
          assert ins[i] == x || ins[i] in front;
        }
      }
    }
  }

  lemma {:induction false} SortSorts<T(!new)>(xs: seq<T>, before: (T, T) -> bool)
    requires Order(before)
    ensures Sorted(Sort(xs, before), before)
    ensures multiset(Sort(xs, before)) == multiset(xs)
  {
    if xs != [] {
      var front, last := xs[..|xs| - 1], xs[|xs| - 1];
      assert xs == front + [last];
      SortSorts(front, before);
      InsertSorts(last, Sort(front, before), before);
    }
  }

  // ---- a sorted arrangement is unique ----------------------------------------------------

  /** No two different members tie. */
  ghost predicate Distinct<T(!new)>(m: multiset<T>, before: (T, T) -> bool) {
    forall a, b :: a in m && b in m && before(a, b) && before(b, a) ==> a == b
  }

  lemma LastIsSame<T(!new)>(a: seq<T>, b: seq<T>, before: (T, T) -> bool)
    requires Sorted(a, before) && Sorted(b, before) && a != [] && b != []
    requires multiset(a) == multiset(b) && Distinct(multiset(a), before)
    ensures a[|a| - 1] == b[|b| - 1]
  {
    var x, y := a[|a| - 1], b[|b| - 1];
    assert x in multiset(a) && y in multiset(b);
    assert x in multiset(b) && y in multiset(a);
    var i :| 0 <= i < |b| && b[i] == x;
    var j :| 0 <= j < |a| && a[j] == y;
    if i < |b| - 1 && j < |a| - 1 {
      assert before(x, y) && before(y, x);
    }
  }

  lemma DropLast<T(!new)>(a: seq<T>, before: (T, T) -> bool)
    requires a != [] && Sorted(a, before) && Distinct(multiset(a), before)
    ensures Sorted(a[..|a| - 1], before) && Distinct(multiset(a[..|a| - 1]), before)
    ensures multiset(a) == multiset(a[..|a| - 1]) + multiset{a[|a| - 1]}
  {
    assert a == a[..|a| - 1] + [a[|a| - 1]];
  }

  lemma MultisetCancel<T>(m: multiset<T>, n: multiset<T>, x: T)
    requires m + multiset{x} == n + multiset{x}
    ensures m == n
  {
    assert m == (m + multiset{x}) - multiset{x};
    assert n == (n + multiset{x}) - multiset{x};
  }

  lemma SameFrontSameLast<T>(a: seq<T>, b: seq<T>)
    requires |a| == |b| > 0 && a[..|a| - 1] == b[..|b| - 1] && a[|a| - 1] == b[|b| - 1]
    ensures a == b
  {
    assert a == a[..|a| - 1] + [a[|a| - 1]];
    assert b == b[..|b| - 1] + [b[|b| - 1]];
  }

  lemma {:induction false} SortedOnce<T(!new)>(a: seq<T>, b: seq<T>, before: (T, T) -> bool)
    requires Sorted(a, before) && Sorted(b, before)
    requires multiset(a) == multiset(b) && Distinct(multiset(a), before)
    ensures a == b
    decreases |a|
  {
    assert |a| == |multiset(a)| == |multiset(b)| == |b|;
    if a != [] {
      LastIsSame(a, b, before);
      DropLast(a, before);
      DropLast(b, before);
      MultisetCancel(multiset(a[..|a| - 1]), multiset(b[..|b| - 1]), a[|a| - 1]);
      SortedOnce(a[..|a| - 1], b[..|b| - 1], before);
      SameFrontSameLast(a, b);
    }
  }

  // ---- sorting commutes with mapping -----------------------------------------------------

  function Map<T, U>(f: T -> U, xs: seq<T>): seq<U> {
    seq(|xs|, i requires 0 <= i < |xs| => f(xs[i]))
  }

  lemma {:induction false} InsertMap<T, U>(f: T -> U, x: T, xs: seq<T>, before: (T, T) -> bool, after: (U, U) -> bool)
    requires forall i :: 0 <= i < |xs| ==> after(f(xs[i]), f(x)) == before(xs[i], x)
    ensures Map(f, Insert(x, xs, before)) == Insert(f(x), Map(f, xs), after)
  {
    if xs == [] {
      assert Map(f, [x]) == [f(x)];
    } else {
      var front, last := xs[..|xs| - 1], xs[|xs| - 1];
      assert Map(f, xs)[|xs| - 1] == f(last);
      assert Map(f, xs)[..|xs| - 1] == Map(f, front);
      InsertMap(f, x, front, before, after);
      assert Map(f, xs + [x]) == Map(f, xs) + [f(x)];
      assert Map(f, Insert(x, front, before) + [last]) == Map(f, Insert(x, front, before)) + [f(last)];
    }
  }

  lemma {:induction false} InsertMember<T>(x: T, xs: seq<T>, before: (T, T) -> bool, y: T)
    ensures y in Insert(x, xs, before) <==> y == x || y in xs
  {
    if xs != [] {
      assert xs == xs[..|xs| - 1] + [xs[|xs| - 1]];
      InsertMember(x, xs[..|xs| - 1], before, y);
    }
  }

  lemma {:induction false} SortMember<T>(xs: seq<T>, before: (T, T) -> bool, y: T)
    ensures y in Sort(xs, before) <==> y in xs
  {
    if xs != [] {
      assert xs == xs[..|xs| - 1] + [xs[|xs| - 1]];
      SortMember(xs[..|xs| - 1], before, y);
      InsertMember(xs[|xs| - 1], Sort(xs[..|xs| - 1], before), before, y);
    }
  }

  lemma {:induction false} SortMap<T, U>(f: T -> U, xs: seq<T>, before: (T, T) -> bool, after: (U, U) -> bool)
    requires forall x, y :: x in xs && y in xs ==> after(f(x), f(y)) == before(x, y)
    ensures Map(f, Sort(xs, before)) == Sort(Map(f, xs), after)
  {
    if xs == [] {
      assert Map(f, xs) == [];
    } else {
      var front, last := xs[..|xs| - 1], xs[|xs| - 1];
      assert Map(f, xs)[..|xs| - 1] == Map(f, front);
      SortMap(f, front, before, after);
      var sorted := Sort(front, before);
      forall i | 0 <= i < |sorted| ensures after(f(sorted[i]), f(last)) == before(sorted[i], last) {
        SortMember(front, before, sorted[i]);
        assert sorted[i] in xs && last in xs;
      }
      InsertMap(f, last, sorted, before, after);
    }
  }
}
