/** Non-negative combinations of vectors, and why one column of the elimination loses none of them. */
module Cone {

  type Vec = seq<real>

  ghost predicate NonNegative(x: Vec) {
    forall i :: 0 <= i < |x| ==> x[i] >= 0.0
  }

  ghost predicate Width(rows: seq<Vec>, m: nat) {
    forall r :: r in rows ==> |r| == m
  }

  ghost function Sum(s: Vec): real {
    if s == [] then 0.0 else s[0] + Sum(s[1..])
  }

  ghost function Products(a: Vec, b: Vec): (p: Vec)
    requires |a| == |b|
    ensures |p| == |a|
  {
    seq(|a|, i requires 0 <= i < |a| => a[i] * b[i])
  }

  ghost function Inner(a: Vec, b: Vec): real
    requires |a| == |b|
  {
    Sum(Products(a, b))
  }

  /** Coordinate k of every row. */
  ghost function Coordinate(rows: seq<Vec>, k: nat): (c: Vec)
    requires forall r :: r in rows ==> k < |r|
    ensures |c| == |rows|
  {
    seq(|rows|, i requires 0 <= i < |rows| => rows[i][k])
  }

  /** `x` is the combination of `rows` with the non-negative coefficients `lam`. */
  ghost predicate Generates(lam: Vec, rows: seq<Vec>, m: nat, x: Vec)
    requires Width(rows, m)
  {
    && |lam| == |rows| && NonNegative(lam) && |x| == m
    && forall k :: 0 <= k < m ==> x[k] == Inner(lam, Coordinate(rows, k))
  }

  /** `x` is a non-negative combination of `rows`. */
  ghost predicate InCone(rows: seq<Vec>, m: nat, x: Vec) {
    Width(rows, m) && exists lam :: Generates(lam, rows, m, x)
  }

  ghost predicate AllInCone(inner: seq<Vec>, outer: seq<Vec>, m: nat) {
    forall r :: r in inner ==> InCone(outer, m, r)
  }

  // ----- inner products -----

  lemma {:induction false} SumLinear(s: real, p: Vec, q: Vec, r: Vec)
    requires |p| == |q| == |r| && forall i :: 0 <= i < |p| ==> r[i] == s * p[i] + q[i]
    ensures Sum(r) == s * Sum(p) + Sum(q)
  {
    if r != [] {
      SumLinear(s, p[1..], q[1..], r[1..]);
      assert s * (p[0] + Sum(p[1..])) == s * p[0] + s * Sum(p[1..]);
    }
  }

  lemma {:induction false} SumUpdate(p: Vec, i: nat, v: real)
    requires i < |p|
    ensures Sum(p) == Sum(p[i := v]) + (p[i] - v)
  {
    if i > 0 {
      SumUpdate(p[1..], i - 1, v);
      assert p[i := v][1..] == p[1..][i - 1 := v];
    }
  }

  lemma {:induction false} SumZero(p: Vec)
    requires forall i :: 0 <= i < |p| ==> p[i] == 0.0
    ensures Sum(p) == 0.0
  {
    if p != [] { SumZero(p[1..]); }
  }

  lemma {:induction false} SumSign(p: Vec)
    requires NonNegative(p)
    ensures Sum(p) >= 0.0
    ensures Sum(p) == 0.0 ==> forall i :: 0 <= i < |p| ==> p[i] == 0.0
  {
    if p != [] {
      SumSign(p[1..]);
      assert forall i :: 0 < i < |p| ==> p[i] == p[1..][i - 1];
    }
  }

  lemma {:induction false} InnerLinear(s: real, x: Vec, y: Vec, z: Vec, b: Vec)
    requires |x| == |y| == |z| == |b| && forall i :: 0 <= i < |x| ==> z[i] == s * x[i] + y[i]
    ensures Inner(z, b) == s * Inner(x, b) + Inner(y, b)
  {
    var p, q, r := Products(x, b), Products(y, b), Products(z, b);
    forall i | 0 <= i < |x| ensures r[i] == s * p[i] + q[i] {
      assert (s * x[i] + y[i]) * b[i] == s * (x[i] * b[i]) + y[i] * b[i];
    }
    SumLinear(s, p, q, r);
  }

  lemma {:induction false} InnerUpdate(a: Vec, b: Vec, i: nat, v: real)
    requires |a| == |b| && i < |a|
    ensures Inner(a, b) == Inner(a[i := v], b) + (a[i] - v) * b[i]
  {
    SumUpdate(Products(a, b), i, v * b[i]);
    var l, r := Products(a[i := v], b), Products(a, b)[i := v * b[i]];
    forall j | 0 <= j < |a| ensures l[j] == r[j] {
      assert j != i ==> a[i := v][j] == a[j];
    }
    assert l == r;
    assert (a[i] - v) * b[i] == a[i] * b[i] - v * b[i];
  }

  lemma {:induction false} InnerZero(a: Vec, b: Vec)
    requires |a| == |b| && forall i :: 0 <= i < |a| ==> a[i] == 0.0
    ensures Inner(a, b) == 0.0
  {
    SumZero(Products(a, b));
  }

  lemma {:induction false} InnerCons(a: Vec, b: Vec)
    requires |a| == |b| > 0
    ensures Inner(a, b) == a[0] * b[0] + Inner(a[1..], b[1..])
  {
    forall j | 0 <= j < |a| - 1 ensures Products(a, b)[1..][j] == Products(a[1..], b[1..])[j] {
      assert a[1..][j] == a[j + 1] && b[1..][j] == b[j + 1];
    }
    assert Products(a, b)[1..] == Products(a[1..], b[1..]);
  }

  lemma {:induction false} PositiveProduct(a: real, b: real)
    ensures a >= 0.0 && b >= 0.0 ==> a * b >= 0.0
    ensures a > 0.0 && b > 0.0 ==> a * b > 0.0
  {
  }

  // ----- cones -----

  lemma {:induction false} ConeZero(rows: seq<Vec>, m: nat, x: Vec)
    requires Width(rows, m) && |x| == m && forall k :: 0 <= k < m ==> x[k] == 0.0
    ensures InCone(rows, m, x)
  {
    var lam := seq(|rows|, _ => 0.0);
    forall k | 0 <= k < m ensures x[k] == Inner(lam, Coordinate(rows, k)) { InnerZero(lam, Coordinate(rows, k)); }
    assert Generates(lam, rows, m, x);
  }

  /** Cones are closed under adding a non-negative multiple; `z` is given coordinate by coordinate. */
  lemma {:induction false} ConeLinear(rows: seq<Vec>, m: nat, s: real, x: Vec, y: Vec, z: Vec)
    requires InCone(rows, m, x) && InCone(rows, m, y) && s >= 0.0
    requires |x| == |y| == |z| == m && forall k :: 0 <= k < m ==> z[k] == s * x[k] + y[k]
    ensures InCone(rows, m, z)
  {
    var a :| Generates(a, rows, m, x);
    var b :| Generates(b, rows, m, y);
    var c := seq(|rows|, i requires 0 <= i < |rows| => s * a[i] + b[i]);
    forall i | 0 <= i < |rows| ensures c[i] >= 0.0 { PositiveProduct(s, a[i]); }
    forall k | 0 <= k < m ensures z[k] == Inner(c, Coordinate(rows, k)) {
      InnerLinear(s, a, b, c, Coordinate(rows, k));
    }
    assert Generates(c, rows, m, z);
  }

  lemma {:induction false} ConeGenerator(rows: seq<Vec>, m: nat, r: Vec)
    requires Width(rows, m) && r in rows
    ensures InCone(rows, m, r)
  {
    var i :| 0 <= i < |rows| && rows[i] == r;
    var none := seq(|rows|, _ => 0.0);
    var lam := none[i := 1.0];
    forall k | 0 <= k < m ensures r[k] == Inner(lam, Coordinate(rows, k)) {
      InnerUpdate(none, Coordinate(rows, k), i, 1.0);
      InnerZero(none, Coordinate(rows, k));
    }
    assert Generates(lam, rows, m, r);
  }

  /** The first row's share of a combination, and the combination of the other rows. */
  lemma {:induction false} Peel(lam: Vec, rows: seq<Vec>, m: nat, x: Vec) returns (rest: Vec)
    requires Width(rows, m) && Generates(lam, rows, m, x) && rows != []
    ensures Generates(lam[1..], rows[1..], m, rest)
    ensures forall k :: 0 <= k < m ==> x[k] == lam[0] * rows[0][k] + rest[k]
  {
    rest := seq(m, k requires 0 <= k < m => Inner(lam[1..], Coordinate(rows[1..], k)));
    forall k | 0 <= k < m ensures x[k] == lam[0] * rows[0][k] + rest[k] {
      InnerCons(lam, Coordinate(rows, k));
      assert Coordinate(rows, k)[1..] == Coordinate(rows[1..], k);
    }
  }

  /** A combination of vectors that all lie in a cone lies in it too. */
  lemma {:induction false} CombinationInCone(lam: Vec, inner: seq<Vec>, outer: seq<Vec>, m: nat, x: Vec)
    requires Width(inner, m) && Width(outer, m) && Generates(lam, inner, m, x)
    requires forall i :: 0 <= i < |inner| && lam[i] > 0.0 ==> InCone(outer, m, inner[i])
    ensures InCone(outer, m, x)
  {
    if inner == [] {
      forall k | 0 <= k < m ensures x[k] == 0.0 { InnerZero(lam, Coordinate(inner, k)); }
      ConeZero(outer, m, x);
    } else {
      var rest := Peel(lam, inner, m, x);
      CombinationInCone(lam[1..], inner[1..], outer, m, rest);
      if lam[0] > 0.0 {
        ConeLinear(outer, m, lam[0], inner[0], rest, x);
      } else {
        assert x == rest;
      }
    }
  }

  lemma {:induction false} ConeTransitive(inner: seq<Vec>, outer: seq<Vec>, m: nat, x: Vec)
    requires InCone(inner, m, x) && Width(outer, m) && AllInCone(inner, outer, m)
    ensures InCone(outer, m, x)
  {
    var lam :| Generates(lam, inner, m, x);
    CombinationInCone(lam, inner, outer, m, x);
  }

  /** The column product of a combination is the same combination of the rows' column products. */
  lemma {:induction false} ColumnProduct(lam: Vec, rows: seq<Vec>, m: nat, x: Vec, col: Vec, c: Vec)
    requires |rows| == |c| && |col| == m && Width(rows, m) && Generates(lam, rows, m, x)
    requires forall i :: 0 <= i < |rows| ==> c[i] == Inner(rows[i], col)
    ensures Inner(x, col) == Inner(lam, c)
  {
    if rows == [] {
      forall k | 0 <= k < m ensures x[k] == 0.0 { InnerZero(lam, Coordinate(rows, k)); }
      InnerZero(x, col);
    } else {
      var rest := Peel(lam, rows, m, x);
      ColumnProduct(lam[1..], rows[1..], m, rest, col, c[1..]);
      InnerLinear(lam[0], rows[0], rest, x, col);
      InnerCons(lam, c);
    }
  }

  // ----- one column of the elimination -----

  /** The vector that cancels a column whose product is cp in `p` and cn in `n`, for cp > 0 > cn. */
  ghost predicate Cancels(r: Vec, p: Vec, n: Vec, cp: real, cn: real) {
    |r| == |p| == |n| && forall k :: 0 <= k < |r| ==> r[k] == p[k] * -cn + n[k] * cp
  }

  /** What `next` must offer to stand in for `rows` once the column with products `c` is done. */
  ghost predicate Replaces(next: seq<Vec>, rows: seq<Vec>, c: Vec, m: nat)
    requires |rows| == |c|
  {
    && Width(next, m)
    && (forall i :: 0 <= i < |rows| && c[i] == 0.0 ==> InCone(next, m, rows[i]))
    && (forall i, k :: 0 <= i < |rows| && 0 <= k < |rows| && c[i] > 0.0 && c[k] < 0.0 ==>
          exists r :: Cancels(r, rows[i], rows[k], c[i], c[k]) && InCone(next, m, r))
  }

  /** How many rows with a non-zero product carry a positive coefficient. */
  ghost function Active(lam: Vec, c: Vec): nat
    requires |lam| == |c|
  {
    if c == [] then 0 else (if lam[0] > 0.0 && c[0] != 0.0 then 1 else 0) + Active(lam[1..], c[1..])
  }

  lemma {:induction false} ActiveUpdate(lam: Vec, c: Vec, i: nat, v: real)
    requires |lam| == |c| && i < |c| && c[i] != 0.0 && lam[i] > 0.0
    ensures Active(lam[i := v], c) == Active(lam, c) - (if v > 0.0 then 0 else 1)
  {
    if i > 0 {
      ActiveUpdate(lam[1..], c[1..], i - 1, v);
      assert lam[i := v][1..] == lam[1..][i - 1 := v];
    }
  }

  /** A balanced combination with an active row has active rows of both signs. */
  lemma {:induction false} ActivePair(lam: Vec, c: Vec) returns (i: nat, k: nat)
    requires |lam| == |c| && NonNegative(lam) && Inner(lam, c) == 0.0
    requires exists a :: 0 <= a < |c| && lam[a] > 0.0 && c[a] != 0.0
    ensures i < |c| && lam[i] > 0.0 && c[i] > 0.0
    ensures k < |c| && lam[k] > 0.0 && c[k] < 0.0
  {
    if forall a :: 0 <= a < |c| && lam[a] > 0.0 ==> c[a] <= 0.0 { Unbalanced(lam, c, -1.0); }
    if forall a :: 0 <= a < |c| && lam[a] > 0.0 ==> c[a] >= 0.0 { Unbalanced(lam, c, 1.0); }
    i :| 0 <= i < |c| && lam[i] > 0.0 && c[i] > 0.0;
    k :| 0 <= k < |c| && lam[k] > 0.0 && c[k] < 0.0;
  }

  lemma {:induction false} Unbalanced(lam: Vec, c: Vec, s: real)
    requires |lam| == |c| && NonNegative(lam) && (s == 1.0 || s == -1.0)
    requires forall a :: 0 <= a < |c| && lam[a] > 0.0 ==> s * c[a] >= 0.0
    requires exists a :: 0 <= a < |c| && lam[a] > 0.0 && c[a] != 0.0
    ensures Inner(lam, c) != 0.0
  {
    var p := Products(lam, c);
    var q := seq(|p|, i requires 0 <= i < |p| => s * p[i] + 0.0);
    var zero := seq(|p|, _ => 0.0);
    SumLinear(s, p, zero, q);
    SumZero(zero);
    forall i | 0 <= i < |p| ensures q[i] >= 0.0 && (lam[i] > 0.0 && c[i] != 0.0 ==> q[i] > 0.0) {
      PositiveProduct(lam[i], s * c[i]);
      assert lam[i] * (s * c[i]) == s * (lam[i] * c[i]);
    }
    SumSign(q);
  }

  lemma {:induction false} Balance(a: real, b: real, cp: real, cn: real) returns (theta: real, a': real, b': real)
    requires a > 0.0 && b > 0.0 && cp > 0.0 > cn
    ensures theta >= 0.0 && a' >= 0.0 && b' >= 0.0 && (a' == 0.0 || b' == 0.0)
    ensures a - a' == theta * -cn && b - b' == theta * cp
  {
    if a * cp <= b * -cn {
      theta, a' := a / -cn, 0.0;
      b' := b - theta * cp;
      assert theta * cp == (a * cp) / -cn;
      assert (a * cp) / -cn <= (b * -cn) / -cn;
    } else {
      theta, b' := b / cp, 0.0;
      a' := a - theta * -cn;
      assert theta * -cn == (b * -cn) / cp;
      assert (b * -cn) / cp <= (a * cp) / cp;
    }
  }

  /** Coefficients after moving weight theta from rows i and k to the row that cancels them. */
  ghost predicate Moved(lam: Vec, rest: Vec, c: Vec, i: nat, k: nat, theta: real) {
    && |lam| == |rest| == |c| && i < |c| && k < |c| && i != k
    && rest == lam[i := rest[i]][k := rest[k]]
    && lam[i] - rest[i] == theta * -c[k] && lam[k] - rest[k] == theta * c[i]
  }

  lemma {:induction false} MovedInner(lam: Vec, rest: Vec, c: Vec, i: nat, k: nat, theta: real, b: Vec)
    requires Moved(lam, rest, c, i, k, theta) && |b| == |c|
    ensures Inner(lam, b) == theta * (b[i] * -c[k] + b[k] * c[i]) + Inner(rest, b)
  {
    InnerUpdate(lam, b, i, rest[i]);
    InnerUpdate(lam[i := rest[i]], b, k, rest[k]);
    assert (theta * -c[k]) * b[i] == theta * (b[i] * -c[k]);
    assert (theta * c[i]) * b[k] == theta * (b[k] * c[i]);
  }

  lemma {:induction false} Round(lam: Vec, c: Vec) returns (theta: real, rest: Vec, i: nat, k: nat)
    requires |c| == |lam| && NonNegative(lam) && Inner(lam, c) == 0.0
    requires exists a :: 0 <= a < |c| && lam[a] > 0.0 && c[a] != 0.0
    ensures theta >= 0.0 && Moved(lam, rest, c, i, k, theta) && c[i] > 0.0 > c[k]
    ensures NonNegative(rest) && Active(rest, c) < Active(lam, c)
  {
    var a, b;
    i, k := ActivePair(lam, c);
    theta, a, b := Balance(lam[i], lam[k], c[i], c[k]);
    rest := lam[i := a][k := b];
    assert i != k;
    MovedTo(lam, c, i, k, theta, a, b);
    FewerActive(lam, c, i, k, a, b);
  }

  lemma {:induction false} MovedTo(lam: Vec, c: Vec, i: nat, k: nat, theta: real, a: real, b: real)
    requires |lam| == |c| && i < |c| && k < |c| && i != k && NonNegative(lam) && a >= 0.0 && b >= 0.0
    requires lam[i] - a == theta * -c[k] && lam[k] - b == theta * c[i]
    ensures Moved(lam, lam[i := a][k := b], c, i, k, theta) && NonNegative(lam[i := a][k := b])
  {
  }

  lemma {:induction false} FewerActive(lam: Vec, c: Vec, i: nat, k: nat, a: real, b: real)
    requires |c| == |lam| && i < |c| && k < |c| && i != k && lam[i] > 0.0 && lam[k] > 0.0 && c[i] != 0.0 && c[k] != 0.0
    requires a >= 0.0 && b >= 0.0 && (a == 0.0 || b == 0.0)
    ensures Active(lam[i := a][k := b], c) < Active(lam, c)
  {
    ActiveUpdate(lam, c, i, a);
    ActiveUpdate(lam[i := a], c, k, b);
  }

  lemma {:induction false} MovedGenerates(lam: Vec, rest: Vec, c: Vec, i: nat, k: nat, theta: real, rows: seq<Vec>, m: nat, x: Vec, r: Vec)
    returns (y: Vec)
    requires Moved(lam, rest, c, i, k, theta) && NonNegative(rest)
    requires |rows| == |c| && Width(rows, m) && Generates(lam, rows, m, x)
    requires Cancels(r, rows[i], rows[k], c[i], c[k])
    ensures Generates(rest, rows, m, y)
    ensures forall q :: 0 <= q < m ==> x[q] == theta * r[q] + y[q]
  {
    y := seq(m, q requires 0 <= q < m => Inner(rest, Coordinate(rows, q)));
    forall q | 0 <= q < m ensures x[q] == theta * r[q] + y[q] {
      MovedInner(lam, rest, c, i, k, theta, Coordinate(rows, q));
    }
  }

  lemma {:induction false} MovedBalance(lam: Vec, rest: Vec, c: Vec, i: nat, k: nat, theta: real)
    requires Moved(lam, rest, c, i, k, theta)
    ensures Inner(lam, c) == Inner(rest, c)
  {
    MovedInner(lam, rest, c, i, k, theta, c);
    assert c[i] * -c[k] + c[k] * c[i] == 0.0;
  }

  /**
   * One column of the elimination loses nothing: a vector generated before the step whose
   * product with the column is zero is generated after it. Each round moves as much weight as
   * possible from one positive and one negative row to the row that cancels them.
   */
  lemma {:induction false} ColumnStep(next: seq<Vec>, rows: seq<Vec>, m: nat, c: Vec, lam: Vec, x: Vec)
    requires |rows| == |c| && Width(rows, m) && Generates(lam, rows, m, x)
    requires Replaces(next, rows, c, m)
    requires Inner(lam, c) == 0.0
    ensures InCone(next, m, x)
    decreases Active(lam, c)
  {
    if a :| 0 <= a < |c| && lam[a] > 0.0 && c[a] != 0.0 {
      var theta, rest, i, k := Round(lam, c);
      MovedBalance(lam, rest, c, i, k, theta);
      var r :| Cancels(r, rows[i], rows[k], c[i], c[k]) && InCone(next, m, r);
      var y := MovedGenerates(lam, rest, c, i, k, theta, rows, m, x, r);
      ColumnStep(next, rows, m, c, rest, y);
      ConeLinear(next, m, theta, r, y, x);
    } else {
      CombinationInCone(lam, rows, next, m, x);
    }
  }
}
