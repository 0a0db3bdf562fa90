/**
 * Totals computed the way the views compute them, with `rows.reduce((sum, d) => sum + f(d), 0)`:
 * a left fold from 0. `SumBy` is the fold over whole amounts, `TotalBy` the same fold over
 * JavaScript numbers, where one NaN makes the whole total NaN.
 */
module Sums {
  import opened JsValues

  /** `rows.reduce((sum, d) => sum + f(d), 0)` over whole amounts. */
  function SumBy<T>(rows: seq<T>, f: T -> int): int
  {
    if rows == [] then 0 else SumBy(rows[..|rows| - 1], f) + f(rows[|rows| - 1])
  }

  /** `rows.reduce((sum, d) => sum + f(d), 0)` over JavaScript numbers. */
  function TotalBy<T>(rows: seq<T>, f: T -> JsNumber): JsNumber
  {
    if rows == [] then Finite(0) else Plus(TotalBy(rows[..|rows| - 1], f), f(rows[|rows| - 1]))
  }

  /** Some row contributes NaN. */
  predicate HasNaN<T>(rows: seq<T>, f: T -> JsNumber)
  {
    exists i :: 0 <= i < |rows| && f(rows[i]).NaN?
  }

  /** The sum of a concatenation is the sum of the parts. */
  lemma {:induction false} SumByConcat<T>(a: seq<T>, b: seq<T>, f: T -> int)
    ensures SumBy(a + b, f) == SumBy(a, f) + SumBy(b, f)
    decreases |b|
  {
    if b == [] {
      assert a + b == a;
    } else {
      assert (a + b)[..|a + b| - 1] == a + b[..|b| - 1];
      assert (a + b)[|a + b| - 1] == b[|b| - 1];
      SumByConcat(a, b[..|b| - 1], f);
    }
  }

  /** A total does not depend on the order of the rows. */
  lemma {:induction false} SumByPermutation<T>(a: seq<T>, b: seq<T>, f: T -> int)
    requires multiset(a) == multiset(b)
    ensures SumBy(a, f) == SumBy(b, f)
    decreases |a|
  {
    if a == [] {
      assert |b| == |multiset(b)| == 0;
    } else {
      var init, x := a[..|a| - 1], a[|a| - 1];
      assert a == init + [x];
      assert x in multiset(b);
      var i :| 0 <= i < |b| && b[i] == x;
      var rest := b[..i] + b[i + 1..];
      assert b == b[..i] + [x] + b[i + 1..];
      assert multiset(a) == multiset(init) + multiset{x};
      assert multiset(b) == multiset(b[..i]) + multiset{x} + multiset(b[i + 1..]);
      assert multiset(rest) == multiset(b[..i]) + multiset(b[i + 1..]);
      assert multiset(init) == multiset(a) - multiset{x};
      assert multiset(rest) == multiset(b) - multiset{x};
      SumByPermutation(init, rest, f);
      SumByConcat(b[..i] + [x], b[i + 1..], f);
      SumByConcat(b[..i], [x], f);
      SumByConcat(b[..i], b[i + 1..], f);
      assert SumBy([x], f) == f(x) by {
        assert [x][..0] == [];
      }
    }
  }

  /** Rows that agree position by position on f have the same total. */
  lemma {:induction false} SumByPointwise<T>(a: seq<T>, b: seq<T>, f: T -> int)
    requires |a| == |b|
    requires forall i :: 0 <= i < |a| ==> f(a[i]) == f(b[i])
    ensures SumBy(a, f) == SumBy(b, f)
    decreases |a|
  {
    if a != [] {
      SumByPointwise(a[..|a| - 1], b[..|b| - 1], f);
    }
  }

  /** Rows that all contribute 0 total 0. */
  lemma {:induction false} SumByZero<T>(rows: seq<T>, f: T -> int)
    requires forall i :: 0 <= i < |rows| ==> f(rows[i]) == 0
    ensures SumBy(rows, f) == 0
    decreases |rows|
  {
    if rows != [] {
      SumByZero(rows[..|rows| - 1], f);
    }
  }

  /**
   * The NaN-aware total is NaN exactly when some row is NaN, and otherwise the plain sum of
   * the rows' amounts, for any g that gives each finite row its amount.
   */
  lemma {:induction false} TotalByMeaning<T>(rows: seq<T>, f: T -> JsNumber, g: T -> int)
    requires forall x :: f(x).Finite? ==> f(x).v == g(x)
    ensures TotalBy(rows, f) == if HasNaN(rows, f) then NaN else Finite(SumBy(rows, g))
    decreases |rows|
  {
    if rows != [] {
      var init := rows[..|rows| - 1];
      TotalByMeaning(init, f, g);
      if HasNaN(init, f) {
        var i :| 0 <= i < |init| && f(init[i]).NaN?;
        assert rows[i] == init[i];
      }
      if HasNaN(rows, f) && !f(rows[|rows| - 1]).NaN? {
        var i :| 0 <= i < |rows| && f(rows[i]).NaN?;
        assert init[i] == rows[i];
      }
    }
  }

  /** Reordering the rows cannot make NaN appear or disappear. */
  lemma HasNaNPermutation<T>(a: seq<T>, b: seq<T>, f: T -> JsNumber)
    requires multiset(a) == multiset(b)
    ensures HasNaN(a, f) <==> HasNaN(b, f)
  {
    if HasNaN(a, f) {
      var i :| 0 <= i < |a| && f(a[i]).NaN?;
      assert a[i] in multiset(b);
    }
    if HasNaN(b, f) {
      var j :| 0 <= j < |b| && f(b[j]).NaN?;
      assert b[j] in multiset(a);
    }
  }

  /** The NaN-aware total does not depend on the order of the rows either. */
  lemma TotalByPermutation<T>(a: seq<T>, b: seq<T>, f: T -> JsNumber)
    requires multiset(a) == multiset(b)
    ensures TotalBy(a, f) == TotalBy(b, f)
  {
    var g := (x: T) => if f(x).Finite? then f(x).v else 0;
    TotalByMeaning(a, f, g);
    TotalByMeaning(b, f, g);
    HasNaNPermutation(a, b, f);
    SumByPermutation(a, b, g);
  }

  /** Rows that agree position by position on f have the same NaN-aware total. */
  lemma {:induction false} TotalByPointwise<T>(a: seq<T>, b: seq<T>, f: T -> JsNumber)
    requires |a| == |b|
    requires forall i :: 0 <= i < |a| ==> f(a[i]) == f(b[i])
    ensures TotalBy(a, f) == TotalBy(b, f)
    decreases |a|
  {
    if a != [] {
      TotalByPointwise(a[..|a| - 1], b[..|b| - 1], f);
    }
  }

  /** Appending a row that contributes 0 leaves a total unchanged. */
  lemma TotalByAppendZero<T>(rows: seq<T>, x: T, f: T -> JsNumber)
    requires f(x) == Finite(0)
    ensures TotalBy(rows + [x], f) == TotalBy(rows, f)
  {
    assert (rows + [x])[..|rows + [x]| - 1] == rows;
  }
}
