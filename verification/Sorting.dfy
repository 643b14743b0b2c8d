/** Stable insertion sort, as Python's `sorted`, and the laws the recovery proof needs. */
module Sorting {

  ghost predicate IsWeakOrder<T(!new)>(less: (T, T) -> bool) {
    && (forall x :: !less(x, x))
    && (forall x, y, z :: less(x, y) && less(y, z) ==> less(x, z))
    && (forall x, y, z :: less(x, z) ==> less(x, y) || less(y, z))
  }

  /** Elements that compare equal keep their order: `x` goes behind them. */
  function Insert<T>(less: (T, T) -> bool, s: seq<T>, x: T): seq<T> {
    if s == [] then [x]
    else if less(x, s[0]) then [x] + s
    else [s[0]] + Insert(less, s[1..], x)
  }

  function InsertAll<T>(less: (T, T) -> bool, s: seq<T>, xs: seq<T>): seq<T>
    decreases |xs|
  {
    if xs == [] then s else InsertAll(less, Insert(less, s, xs[0]), xs[1..])
  }

  function Sort<T>(less: (T, T) -> bool, xs: seq<T>): seq<T> {
    InsertAll(less, [], xs)
  }

  ghost predicate Sorted<T>(less: (T, T) -> bool, s: seq<T>) {
    forall i, j :: 0 <= i < j < |s| ==> !less(s[j], s[i])
  }

  function Filter<T>(keep: T -> bool, xs: seq<T>): seq<T> {
    if xs == [] then []
    else if keep(xs[0]) then [xs[0]] + Filter(keep, xs[1..])
    else Filter(keep, xs[1..])
  }

  lemma {:induction false} FilterMembers<T>(keep: T -> bool, xs: seq<T>)
    ensures forall x :: x in Filter(keep, xs) <==> x in xs && keep(x)
  {
    if xs != [] {
      FilterMembers(keep, xs[1..]);
      assert xs == [xs[0]] + xs[1..];
    }
  }

  lemma {:induction false} FilterConcat<T>(keep: T -> bool, xs: seq<T>, ys: seq<T>)
    ensures Filter(keep, xs + ys) == Filter(keep, xs) + Filter(keep, ys)
  {
    if xs == [] {
      assert xs + ys == ys;
    } else {
      assert (xs + ys)[1..] == xs[1..] + ys;
      FilterConcat(keep, xs[1..], ys);
    }
  }

  lemma {:induction false} FilterAll<T>(keep: T -> bool, xs: seq<T>)
    ensures (forall x <- xs :: keep(x)) ==> Filter(keep, xs) == xs
    ensures (forall x <- xs :: !keep(x)) ==> Filter(keep, xs) == []
  {
    if xs != [] {
      FilterAll(keep, xs[1..]);
    }
  }

  lemma {:induction false} InsertPermutes<T>(less: (T, T) -> bool, s: seq<T>, x: T)
    ensures multiset(Insert(less, s, x)) == multiset(s) + multiset{x}
    ensures |Insert(less, s, x)| == |s| + 1
    ensures forall y :: y in Insert(less, s, x) <==> y in s || y == x
  {
    if s != [] && !less(x, s[0]) {
      InsertPermutes(less, s[1..], x);
      assert s == [s[0]] + s[1..];
    }
  }

  lemma {:induction false} InsertSorts<T(!new)>(less: (T, T) -> bool, s: seq<T>, x: T)
    requires IsWeakOrder(less) && Sorted(less, s)
    ensures Sorted(less, Insert(less, s, x))
  {
    if s != [] && !less(x, s[0]) {
      InsertSorts(less, s[1..], x);
      InsertPermutes(less, s[1..], x);
      var rest := Insert(less, s[1..], x);
      forall j | 0 <= j < |rest| ensures !less(rest[j], s[0]) {
        assert rest[j] in rest;
      }
    } else if s != [] {
      forall j | 0 <= j < |s| ensures !less(s[j], x) {
      }
    }
  }

  lemma {:induction false} InsertAllSorts<T(!new)>(less: (T, T) -> bool, s: seq<T>, xs: seq<T>)
    requires IsWeakOrder(less) && Sorted(less, s)
    ensures Sorted(less, InsertAll(less, s, xs))
    ensures multiset(InsertAll(less, s, xs)) == multiset(s) + multiset(xs)
    ensures forall y :: y in InsertAll(less, s, xs) <==> y in s || y in xs
    decreases |xs|
  {
    if xs != [] {
      InsertSorts(less, s, xs[0]);
      InsertPermutes(less, s, xs[0]);
      InsertAllSorts(less, Insert(less, s, xs[0]), xs[1..]);
      assert xs == [xs[0]] + xs[1..];
    }
  }

  lemma {:induction false} InsertAllConcat<T>(less: (T, T) -> bool, s: seq<T>, xs: seq<T>, ys: seq<T>)
    ensures InsertAll(less, s, xs + ys) == InsertAll(less, InsertAll(less, s, xs), ys)
    decreases |xs|
  {
    if xs == [] {
      assert xs + ys == ys;
    } else {
      assert (xs + ys)[1..] == xs[1..] + ys;
      InsertAllConcat(less, Insert(less, s, xs[0]), xs[1..], ys);
    }
  }

  // ---------- sorting a sorted part again changes nothing ----------

  lemma {:induction false} InsertsCommute<T(!new)>(less: (T, T) -> bool, s: seq<T>, x: T, y: T)
    requires IsWeakOrder(less) && less(x, y)
    ensures Insert(less, Insert(less, s, x), y) == Insert(less, Insert(less, s, y), x)
  {
    if s != [] && !less(x, s[0]) {
      InsertsCommute(less, s[1..], x, y);
      assert Insert(less, s, x)[1..] == Insert(less, s[1..], x);
      assert Insert(less, s, y)[1..] == Insert(less, s[1..], y);
    }
  }

  lemma {:induction false} InsertPastLarger<T(!new)>(less: (T, T) -> bool, s: seq<T>, t: seq<T>, x: T)
    requires IsWeakOrder(less) && forall y <- t :: less(x, y)
    ensures InsertAll(less, Insert(less, s, x), t) == Insert(less, InsertAll(less, s, t), x)
    decreases |t|
  {
    if t != [] {
      InsertsCommute(less, s, x, t[0]);
      InsertPastLarger(less, Insert(less, s, t[0]), t[1..], x);
    }
  }

  lemma {:induction false} InsertAllOfInsert<T(!new)>(less: (T, T) -> bool, s: seq<T>, t: seq<T>, x: T)
    requires IsWeakOrder(less) && Sorted(less, t)
    ensures InsertAll(less, s, Insert(less, t, x)) == Insert(less, InsertAll(less, s, t), x)
    decreases |t|
  {
    if t != [] && !less(x, t[0]) {
      InsertAllOfInsert(less, Insert(less, s, t[0]), t[1..], x);
      assert Insert(less, t, x)[1..] == Insert(less, t[1..], x);
    } else if t != [] {
      assert forall i :: 0 < i < |t| ==> !less(t[i], t[0]);
      InsertPastLarger(less, s, t, x);
      assert ([x] + t)[1..] == t;
    }
  }

  /** Sorting a part first makes no difference. */
  lemma {:induction false} InsertAllSorted<T(!new)>(less: (T, T) -> bool, s: seq<T>, t: seq<T>, xs: seq<T>)
    requires IsWeakOrder(less) && Sorted(less, t)
    ensures InsertAll(less, s, InsertAll(less, t, xs)) == InsertAll(less, InsertAll(less, s, t), xs)
    decreases |xs|
  {
    if xs != [] {
      InsertSorts(less, t, xs[0]);
      InsertAllSorted(less, s, Insert(less, t, xs[0]), xs[1..]);
      InsertAllOfInsert(less, s, t, xs[0]);
    }
  }

  // ---------- filtering a sorted sequence sorts what passes ----------

  lemma {:induction false} FilterInsert<T(!new)>(less: (T, T) -> bool, keep: T -> bool, s: seq<T>, x: T)
    requires IsWeakOrder(less) && Sorted(less, s)
    ensures Filter(keep, Insert(less, s, x)) == if keep(x) then Insert(less, Filter(keep, s), x) else Filter(keep, s)
  {
    if s != [] && !less(x, s[0]) {
      FilterInsert(less, keep, s[1..], x);
      assert Insert(less, s, x)[1..] == Insert(less, s[1..], x);
    } else if s != [] {
      assert ([x] + s)[1..] == s;
      FilterMembers(keep, s);
      assert forall i :: 0 < i < |s| ==> !less(s[i], s[0]);
      assert Filter(keep, s) != [] ==> Filter(keep, s)[0] in s;
    }
  }

  lemma {:induction false} FilterInsertAll<T(!new)>(less: (T, T) -> bool, keep: T -> bool, s: seq<T>, xs: seq<T>)
    requires IsWeakOrder(less) && Sorted(less, s)
    ensures Filter(keep, InsertAll(less, s, xs)) == InsertAll(less, Filter(keep, s), Filter(keep, xs))
    decreases |xs|
  {
    if xs != [] {
      InsertSorts(less, s, xs[0]);
      FilterInsert(less, keep, s, xs[0]);
      FilterInsertAll(less, keep, Insert(less, s, xs[0]), xs[1..]);
    }
  }

  lemma FilterSort<T(!new)>(less: (T, T) -> bool, keep: T -> bool, xs: seq<T>)
    requires IsWeakOrder(less)
    ensures Filter(keep, Sort(less, xs)) == Sort(less, Filter(keep, xs))
  {
    FilterInsertAll(less, keep, [], xs);
  }

  // ---------- two orders that agree on every inversion sort alike ----------

  lemma {:induction false} SameInsert<T>(less: (T, T) -> bool, other: (T, T) -> bool, s: seq<T>, x: T)
    requires forall y <- s :: less(x, y) == other(x, y)
    ensures Insert(less, s, x) == Insert(other, s, x)
  {
    if s != [] {
      SameInsert(less, other, s[1..], x);
    }
  }

  lemma {:induction false} SameSort<T(!new)>(less: (T, T) -> bool, other: (T, T) -> bool, s: seq<T>, xs: seq<T>)
    requires forall x <- xs, y <- s :: less(x, y) == other(x, y)
    requires forall i, j :: 0 <= i < j < |xs| ==> less(xs[j], xs[i]) == other(xs[j], xs[i])
    ensures InsertAll(less, s, xs) == InsertAll(other, s, xs)
    decreases |xs|
  {
    if xs != [] {
      SameInsert(less, other, s, xs[0]);
      InsertPermutes(less, s, xs[0]);
      forall x <- xs[1..], y <- Insert(less, s, xs[0]) ensures less(x, y) == other(x, y) {
        var j :| 0 <= j < |xs[1..]| && xs[1..][j] == x;
        assert xs[j + 1] == x;
      }
      SameSort(less, other, Insert(less, s, xs[0]), xs[1..]);
    }
  }

  /** `last` is the element at position `p` of `xs`, or the end of `s` when `p` is -1. */
  ghost predicate EndsLast<T>(less: (T, T) -> bool, s: seq<T>, xs: seq<T>, p: int, last: T) {
    && -1 <= p < |xs|
    && (p == -1 ==> s != [] && last == s[|s| - 1] && forall x <- xs :: less(x, last))
    && (p >= 0 ==>
          && last == xs[p]
          && (forall y <- s :: !less(last, y))
          && (forall i :: 0 <= i < p ==> !less(last, xs[i]))
          && (forall j :: p < j < |xs| ==> less(xs[j], last)))
  }

  /** Which element of the input ends up last. */
  lemma {:induction false} LastOfInsertAll<T(!new)>(less: (T, T) -> bool, s: seq<T>, xs: seq<T>) returns (p: int)
    requires IsWeakOrder(less) && Sorted(less, s) && |s| + |xs| > 0
    ensures |InsertAll(less, s, xs)| == |s| + |xs|
    ensures EndsLast(less, s, xs, p, InsertAll(less, s, xs)[|s| + |xs| - 1])
    decreases |xs|
  {
    if xs == [] {
      return -1;
    }
    InsertSorts(less, s, xs[0]);
    InsertPermutes(less, s, xs[0]);
    InsertLast(less, s, xs[0]);
    var q := LastOfInsertAll(less, Insert(less, s, xs[0]), xs[1..]);
    p := LastStep(less, s, xs, q, InsertAll(less, s, xs)[|s| + |xs| - 1]);
  }

  lemma LastStep<T(!new)>(less: (T, T) -> bool, s: seq<T>, xs: seq<T>, q: int, last: T) returns (p: int)
    requires IsWeakOrder(less) && Sorted(less, s) && xs != []
    requires EndsLast(less, Insert(less, s, xs[0]), xs[1..], q, last)
    ensures EndsLast(less, s, xs, p, last)
  {
    InsertPermutes(less, s, xs[0]);
    InsertLast(less, s, xs[0]);
    assert forall j :: 0 < j < |xs| ==> xs[j] == xs[1..][j - 1];
    p := if q >= 0 then q + 1 else if s != [] && less(xs[0], s[|s| - 1]) then -1 else 0;
  }

  lemma {:induction false} InsertLast<T(!new)>(less: (T, T) -> bool, s: seq<T>, x: T)
    requires IsWeakOrder(less) && Sorted(less, s)
    ensures var inserted := Insert(less, s, x);
            && inserted != []
            && inserted[|inserted| - 1] == (if s != [] && less(x, s[|s| - 1]) then s[|s| - 1] else x)
            && (!(s != [] && less(x, s[|s| - 1])) ==> forall y <- s :: !less(x, y))
  {
    if s != [] {
      InsertLast(less, s[1..], x);
      assert |s| > 1 ==> s[1..][|s| - 2] == s[|s| - 1];
      assert forall i :: 0 < i < |s| ==> !less(s[i], s[0]);
    }
  }
}
