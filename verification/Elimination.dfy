/** Signed elimination of integer candidate rows, column by column, and what it returns. */
module Elimination {
  import opened Cone

  type Row = seq<int>
  type Matrix = seq<Row>

  /** Entry i, reading missing entries as zero. */
  function At(s: Row, i: nat): int {
    if i < |s| then s[i] else 0
  }

  /** The product of a row with the first n entries of column j. */
  function Dot(row: Row, a: Matrix, j: nat, n: nat): int
    requires n <= |a|
  {
    if n == 0 then 0 else Dot(row, a, j, n - 1) + At(row, n - 1) * At(a[n - 1], j)
  }

  /** Every column below n has product zero with the row. */
  predicate Annihilates(row: Row, a: Matrix, n: nat) {
    forall j :: 0 <= j < n ==> Dot(row, a, j, |a|) == 0
  }

  predicate NonZero(row: Row) {
    exists i :: 0 <= i < |row| && row[i] != 0
  }

  predicate Natural(row: Row) {
    forall i :: 0 <= i < |row| ==> row[i] >= 0
  }

  /** `a` is k times `b`, for a positive k, and neither is zero. */
  ghost predicate Times(a: Row, b: Row, k: int) {
    k > 0 && NonZero(a) && forall i: nat :: At(a, i) == k * At(b, i)
  }

  ghost predicate Multiple(a: Row, b: Row) {
    exists k :: Times(a, b, k)
  }

  ghost predicate Irredundant(rows: seq<Row>) {
    forall i, j :: 0 <= i < |rows| && 0 <= j < |rows| && i != j ==> !Multiple(rows[i], rows[j])
  }

  // ----- scalar multiples -----

  function CountNonZero(s: Row, n: nat): nat {
    if n == 0 then 0 else CountNonZero(s, n - 1) + if At(s, n - 1) != 0 then 1 else 0
  }

  lemma {:induction false} CountGrows(s: Row, n: nat, p: nat)
    requires n <= p
    ensures CountNonZero(s, n) <= CountNonZero(s, p)
    ensures CountNonZero(s, n) == CountNonZero(s, p) <==> forall i: nat :: n <= i < p ==> At(s, i) == 0
  {
    if n < p { CountGrows(s, n, p - 1); }
  }

  lemma {:induction false} CountSameSupport(a: Row, b: Row, n: nat)
    requires forall i: nat :: i < n ==> (At(a, i) == 0 <==> At(b, i) == 0)
    ensures CountNonZero(a, n) == CountNonZero(b, n)
  {
    if n > 0 { CountSameSupport(a, b, n - 1); }
  }

  lemma {:induction false} MultipleSupport(a: Row, b: Row, k: int)
    requires Times(a, b, k)
    ensures CountNonZero(a, |a|) == CountNonZero(b, |b|) > 0
    ensures forall i: nat :: At(a, i) == 0 <==> At(b, i) == 0
  {
    forall i: nat ensures At(a, i) == 0 <==> At(b, i) == 0 {
      assert At(a, i) == k * At(b, i);
      if At(b, i) != 0 { assert k * At(b, i) != 0; }
    }
    var n := if |a| < |b| then |b| else |a|;
    CountSameSupport(a, b, n);
    CountGrows(a, |a|, n);
    CountGrows(b, |b|, n);
    CountGrows(a, 0, |a|);
    var i :| 0 <= i < |a| && a[i] != 0;
    assert At(a, i) != 0;
  }

  lemma {:induction false} MultipleTransitive(a: Row, b: Row, c: Row)
    requires Multiple(a, b) && Multiple(b, c)
    ensures Multiple(a, c)
  {
    var k :| Times(a, b, k);
    var l :| Times(b, c, l);
    forall i: nat ensures At(a, i) == (k * l) * At(c, i) {
      assert At(a, i) == k * At(b, i) && At(b, i) == l * At(c, i);
    }
    assert Times(a, c, k * l);
  }

  method CountNonZeros(s: Row) returns (n: nat)
    ensures n == CountNonZero(s, |s|)
  {
    n := 0;
    for i := 0 to |s|
      invariant n == CountNonZero(s, i)
    {
      if s[i] != 0 { n := n + 1; }
    }
  }

  /** Equal quotients over one row, and equally many non-zero entries, make a multiple. */
  lemma {:induction false} RatioSuffices(a: Row, b: Row, ratio: int)
    requires CountNonZero(a, |a|) == CountNonZero(b, |b|) > 0 && ratio > 0
    requires forall p: nat :: p < |a| ==> At(a, p) == ratio * At(b, p) && (At(a, p) == 0 <==> At(b, p) == 0)
    ensures Times(a, b, ratio)
  {
    CountSameSupport(a, b, |a|);
    CountGrows(b, |a|, if |a| < |b| then |b| else |a|);
    CountGrows(b, |b|, if |a| < |b| then |b| else |a|);
    forall i: nat ensures At(a, i) == ratio * At(b, i) {
      if i >= |a| { assert At(b, i) == 0; }
    }
    CountGrows(a, 0, |a|);
  }

  /** What is known of a possible factor after the entries before i were compared. */
  ghost predicate Compared(a: Row, b: Row, i: nat, ratio: int) {
    && ratio >= 0
    && (ratio == 0 ==> CountNonZero(a, i) == 0)
    && (forall p: nat :: p < i ==> At(a, p) == ratio * At(b, p) && (At(a, p) == 0 <==> At(b, p) == 0))
    && (forall k :: Times(a, b, k) && ratio > 0 ==> k == ratio)
  }

  /** One more entry: the factor it allows, or none. */
  method CompareEntry(a: Row, b: Row, i: nat, ratio: int) returns (ok: bool, next: int)
    requires i < |a| && Compared(a, b, i, ratio)
    ensures ok ==> Compared(a, b, i + 1, next)
    ensures !ok ==> !Multiple(a, b)
  {
    next := ratio;
    var av, bv := a[i], At(b, i);
    assert av == At(a, i);
    if k :| Times(a, b, k) {
      MultipleSupport(a, b, k);
      if bv != 0 { Quotient(av, bv, k); }
    }
    if (av == 0) != (bv == 0) { return false, next; }
    if av == 0 { return true, next; }
    if av % bv != 0 || av / bv <= 0 { return false, next; }
    forall k | Times(a, b, k) ensures k == av / bv { Quotient(av, bv, k); }
    if ratio == 0 {
      next := av / bv;
      EmptyPrefix(a, b, i, next);
    } else if av / bv != ratio {
      return false, next;
    }
    assert av == next * bv;
    ok := true;
  }

  method IsScalarMultiple(a: Row, b: Row) returns (yes: bool)
    ensures yes <==> Multiple(a, b)
  {
    var na := CountNonZeros(a);
    var nb := CountNonZeros(b);
    if k :| Times(a, b, k) { MultipleSupport(a, b, k); }
    if na == 0 || nb == 0 || na != nb { return false; }
    var ratio := 0;
    for i := 0 to |a|
      invariant Compared(a, b, i, ratio)
    {
      var ok;
      ok, ratio := CompareEntry(a, b, i, ratio);
      if !ok { return false; }
    }
    RatioSuffices(a, b, ratio);
    return true;
  }

  lemma {:induction false} Quotient(av: int, bv: int, k: int)
    requires av == k * bv && bv != 0
    ensures av % bv == 0 && av / bv == k
  {
    assert (k * bv) % bv == 0 && (k * bv) / bv == k by { ExactDivision(k, bv); }
  }

  lemma {:induction false} ExactDivision(k: int, b: int)
    requires b != 0
    ensures (k * b) % b == 0 && (k * b) / b == k
  {
    var q, r := (k * b) / b, (k * b) % b;
    assert (k - q) * b == r by { assert k * b == b * q + r; }
    NoSmallMultiple(k - q, b);
  }

  lemma {:induction false} NoSmallMultiple(d: int, b: int)
    requires -(if b < 0 then -b else b) < d * b < if b < 0 then -b else b
    ensures d == 0
  {
  }

  lemma {:induction false} EmptyPrefix(a: Row, b: Row, n: nat, ratio: int)
    requires CountNonZero(a, n) == 0 && forall p: nat :: p < n ==> (At(a, p) == 0 <==> At(b, p) == 0)
    ensures forall p: nat :: p < n ==> At(a, p) == ratio * At(b, p)
  {
    CountGrows(a, 0, n);
  }

  // ----- reduction -----

  ghost predicate Covered(r: Row, rows: seq<Row>) {
    r in rows || exists s :: s in rows && Multiple(r, s)
  }

  /** Drops every row that is a positive multiple of another, and keeps a divisor of each. */
  method ReduceRows(rows: seq<Row>) returns (result: seq<Row>)
    ensures forall r :: r in result ==> r in rows
    ensures forall r :: r in rows ==> Covered(r, result)
    ensures Irredundant(result)
  {
    result := [];
    for n := 0 to |rows|
      invariant forall r :: r in result ==> r in rows[..n]
      invariant forall r :: r in rows[..n] ==> Covered(r, result)
      invariant Irredundant(result)
    {
      var row := rows[n];
      assert rows[..n + 1] == rows[..n] + [row];
      var known := false;
      for i := 0 to |result|
        invariant known <==> exists p :: 0 <= p < i && Multiple(row, result[p])
      {
        var yes := IsScalarMultiple(row, result[i]);
        known := known || yes;
      }
      if known { continue; }
      ghost var before := result;
      var i := |result|;
      while i > 0
        invariant 0 <= i <= |result| <= |before|
        invariant forall r :: r in result ==> r in before
        invariant forall r :: r in before ==> r in result || Multiple(r, row)
        invariant forall p :: i <= p < |result| ==> !Multiple(result[p], row)
        invariant Irredundant(result)
      {
        i := i - 1;
        var yes := IsScalarMultiple(result[i], row);
        if yes { result := result[..i] + result[i + 1..]; }
      }
      forall r | r in rows[..n + 1] ensures Covered(r, result + [row]) { KeepCovered(r, row, before, result); }
      result := result + [row];
    }
    assert rows[..|rows|] == rows;
  }

  lemma {:induction false} KeepCovered(r: Row, row: Row, before: seq<Row>, after: seq<Row>)
    requires Covered(r, before) || r == row
    requires forall s :: s in before ==> s in after || Multiple(s, row)
    ensures Covered(r, after + [row])
  {
    assert row in after + [row];
    if r != row && r !in before {
      var s :| s in before && Multiple(r, s);
      if Multiple(s, row) { MultipleTransitive(r, s, row); } else { assert s in after + [row]; }
    }
  }

  // ----- one column -----

  method DotColumn(row: Row, a: Matrix, j: nat) returns (sum: int)
    ensures sum == Dot(row, a, j, |a|)
  {
    sum := 0;
    for k := 0 to |a|
      invariant sum == Dot(row, a, j, k)
    {
      sum := sum + At(row, k) * At(a[k], j);
    }
  }

  method SeedIdentity(m: nat) returns (b: seq<Row>)
    ensures |b| == m && forall i :: 0 <= i < m ==> b[i] == Unit(m, i)
  {
    b := [];
    for i := 0 to m
      invariant |b| == i && forall p :: 0 <= p < i ==> b[p] == Unit(m, p)
    {
      b := b + [seq(m, _ => 0)[i := 1]];
    }
  }

  function Unit(m: nat, i: nat): (r: Row)
    requires i < m
    ensures |r| == m
  {
    seq(m, _ => 0)[i := 1]
  }

  method PartitionBySign(signed: seq<int>) returns (positives: seq<nat>, negatives: seq<nat>, zeros: seq<nat>)
    ensures forall i: nat :: i in positives <==> i < |signed| && signed[i] > 0
    ensures forall i: nat :: i in negatives <==> i < |signed| && signed[i] < 0
    ensures forall i: nat :: i in zeros <==> i < |signed| && signed[i] == 0
    ensures Increasing(positives) && Increasing(negatives) && Increasing(zeros)
  {
    positives, negatives, zeros := [], [], [];
    for i := 0 to |signed|
      invariant forall p: nat :: p in positives <==> p < i && signed[p] > 0
      invariant forall p: nat :: p in negatives <==> p < i && signed[p] < 0
      invariant forall p: nat :: p in zeros <==> p < i && signed[p] == 0
      invariant Increasing(positives) && Increasing(negatives) && Increasing(zeros)
    {
      assert forall k :: 0 <= k < |positives| ==> positives[k] in positives;
      assert forall k :: 0 <= k < |negatives| ==> negatives[k] in negatives;
      assert forall k :: 0 <= k < |zeros| ==> zeros[k] in zeros;
      if signed[i] > 0 {
        positives := positives + [i];
      } else if signed[i] < 0 {
        negatives := negatives + [i];
      } else {
        zeros := zeros + [i];
      }
    }
  }

  predicate Increasing(s: seq<nat>) {
    forall i, k :: 0 <= i < k < |s| ==> s[i] < s[k]
  }

  /** The row that cancels a column with product cp > 0 in `p` and cn < 0 in `n`. */
  function Cancel(p: Row, n: Row, cp: int, cn: int, m: nat): (r: Row)
    ensures |r| == m
  {
    seq(m, k requires 0 <= k < m => At(p, k) * -cn + At(n, k) * cp)
  }

  ghost predicate IsPair(r: Row, b: seq<Row>, signed: seq<int>, m: nat, i: nat, k: nat) {
    && i < |b| == |signed| && k < |b| && signed[i] > 0 > signed[k]
    && r == Cancel(b[i], b[k], signed[i], signed[k], m)
  }

  /** The innermost loop: one positive row weighted against one negative row. */
  method CombinePair(posRow: Row, negRow: Row, posWeight: int, negWeight: int, m: nat) returns (newRow: Row)
    ensures newRow == Cancel(posRow, negRow, negWeight, -posWeight, m)
  {
    newRow := seq(m, _ => 0);
    for k := 0 to m
      invariant |newRow| == m
      invariant forall q :: 0 <= q < k ==> newRow[q] == At(posRow, q) * posWeight + At(negRow, q) * negWeight
    {
      newRow := newRow[k := At(posRow, k) * posWeight + At(negRow, k) * negWeight];
    }
  }

  /** The middle loop: one positive row against every negative row. */
  method CombineOne(b: seq<Row>, signed: seq<int>, pos: nat, negatives: seq<nat>, m: nat)
    returns (rows: seq<Row>, used: set<nat>)
    requires pos < |b| == |signed|
    requires forall u :: 0 <= u < |negatives| ==> negatives[u] < |b|
    ensures |rows| == |negatives|
    ensures forall v :: 0 <= v < |rows| ==> rows[v] == Cancel(b[pos], b[negatives[v]], signed[pos], signed[negatives[v]], m)
    ensures forall i :: i in used ==> i == pos || i in negatives
  {
    rows, used := [], {};
    for y := 0 to |negatives|
      invariant |rows| == y
      invariant forall v :: 0 <= v < y ==> rows[v] == Cancel(b[pos], b[negatives[v]], signed[pos], signed[negatives[v]], m)
      invariant forall i :: i in used ==> i == pos || i in negatives
    {
      var neg := negatives[y];
      var newRow := CombinePair(b[pos], b[neg], -signed[neg], signed[pos], m);
      rows := rows + [newRow];
      used := used + {pos, neg};
    }
  }

  method CombineOppositeSigned(b: seq<Row>, signed: seq<int>, positives: seq<nat>, negatives: seq<nat>, m: nat)
    returns (combined: seq<Row>, used: set<nat>)
    requires |b| == |signed|
    requires forall u :: 0 <= u < |positives| ==> positives[u] < |b| && signed[positives[u]] > 0
    requires forall u :: 0 <= u < |negatives| ==> negatives[u] < |b| && signed[negatives[u]] < 0
    ensures forall r :: r in combined ==> exists i, k :: IsPair(r, b, signed, m, i, k)
    ensures forall u, v :: 0 <= u < |positives| && 0 <= v < |negatives| ==>
              Cancel(b[positives[u]], b[negatives[v]], signed[positives[u]], signed[negatives[v]], m) in combined
    ensures |combined| == |positives| * |negatives|
    ensures forall i :: i in used ==> i in positives || i in negatives
  {
    combined, used := [], {};
    for x := 0 to |positives|
      invariant forall r :: r in combined ==> exists i, k :: IsPair(r, b, signed, m, i, k)
      invariant forall u, v :: 0 <= u < x && 0 <= v < |negatives| ==>
                  Cancel(b[positives[u]], b[negatives[v]], signed[positives[u]], signed[negatives[v]], m) in combined
      invariant |combined| == x * |negatives|
      invariant forall i :: i in used ==> i in positives || i in negatives
    {
      var rows, touched := CombineOne(b, signed, positives[x], negatives, m);
      assert forall v :: 0 <= v < |rows| ==> rows[v] in rows && IsPair(rows[v], b, signed, m, positives[x], negatives[v]);
      assert (x + 1) * |negatives| == x * |negatives| + |negatives|;
      combined := combined + rows;
      used := used + touched;
    }
  }

  method KeepUnusedZeros(b: seq<Row>, zeros: seq<nat>, used: set<nat>) returns (kept: seq<Row>)
    requires forall u :: 0 <= u < |zeros| ==> zeros[u] < |b|
    ensures forall r :: r in kept ==> exists i :: i in zeros && i !in used && r == b[i]
    ensures forall i :: i in zeros && i !in used ==> b[i] in kept
  {
    kept := [];
    for n := 0 to |zeros|
      invariant forall r :: r in kept ==> exists i :: i in zeros && i !in used && r == b[i]
      invariant forall u :: 0 <= u < n && zeros[u] !in used ==> b[zeros[u]] in kept
    {
      if zeros[n] !in used { kept := kept + [b[zeros[n]]]; }
    }
  }

  // ----- the step and the whole elimination -----

  ghost function Lift(r: Row): (x: Vec)
    ensures |x| == |r|
  {
    seq(|r|, i requires 0 <= i < |r| => r[i] as real)
  }

  ghost function LiftAll(rows: seq<Row>): (v: seq<Vec>)
    ensures |v| == |rows|
  {
    seq(|rows|, i requires 0 <= i < |rows| => Lift(rows[i]))
  }

  ghost function Column(a: Matrix, j: nat): (c: Row)
    ensures |c| == |a|
  {
    seq(|a|, k requires 0 <= k < |a| => At(a[k], j))
  }

  /** `x` is a non-negative real weight vector with product zero in every column below n. */
  ghost predicate RealInvariant(x: Vec, a: Matrix, n: nat) {
    |x| == |a| && NonNegative(x) && forall j :: 0 <= j < n ==> Inner(x, Lift(Column(a, j))) == 0.0
  }

  /** Every real weight vector with product zero in every column below n is generated by `b`. */
  ghost predicate Complete(b: seq<Row>, a: Matrix, n: nat) {
    forall x :: RealInvariant(x, a, n) ==> InCone(LiftAll(b), |a|, x)
  }

  /** The rows are natural, not zero, annihilate the first n columns, and none repeats another. */
  ghost predicate Sound(b: seq<Row>, a: Matrix, n: nat) {
    && (forall r :: r in b ==> |r| == |a| && Natural(r) && NonZero(r) && Annihilates(r, a, n))
    && Irredundant(b)
  }

  lemma {:induction false} SumSnoc(p: Vec)
    requires p != []
    ensures Sum(p) == Sum(p[..|p| - 1]) + p[|p| - 1]
  {
    if |p| > 1 {
      SumSnoc(p[1..]);
      assert p[1..][..|p| - 2] == p[..|p| - 1][1..];
    }
  }

  lemma {:induction false} DotIsInner(row: Row, a: Matrix, j: nat, n: nat)
    requires |row| == |a| && n <= |a|
    ensures Sum(Products(Lift(row), Lift(Column(a, j)))[..n]) == Dot(row, a, j, n) as real
  {
    var p := Products(Lift(row), Lift(Column(a, j)));
    if n > 0 {
      DotIsInner(row, a, j, n - 1);
      SumSnoc(p[..n]);
      assert p[..n][..n - 1] == p[..n - 1];
      RealProduct(row[n - 1], At(a[n - 1], j));
    }
  }

  lemma {:induction false} RealProduct(x: int, y: int)
    ensures (x * y) as real == (x as real) * (y as real)
  {
  }

  lemma {:induction false} InnerDot(row: Row, a: Matrix, j: nat)
    requires |row| == |a|
    ensures Inner(Lift(row), Lift(Column(a, j))) == Dot(row, a, j, |a|) as real
  {
    DotIsInner(row, a, j, |a|);
    var p := Products(Lift(row), Lift(Column(a, j)));
    assert p[..|a|] == p;
  }

  lemma {:induction false} DotCancel(p: Row, q: Row, cp: int, cn: int, a: Matrix, j: nat, n: nat)
    requires |p| == |q| == |a| && n <= |a|
    ensures Dot(Cancel(p, q, cp, cn, |a|), a, j, n) == Dot(p, a, j, n) * -cn + Dot(q, a, j, n) * cp
  {
    if n > 0 {
      DotCancel(p, q, cp, cn, a, j, n - 1);
      CancelTerm(Dot(p, a, j, n - 1), Dot(q, a, j, n - 1), p[n - 1], q[n - 1], At(a[n - 1], j), cp, cn);
    }
  }

  lemma {:induction false} CancelTerm(dp: int, dq: int, x: int, y: int, z: int, cp: int, cn: int)
    ensures dp * -cn + dq * cp + (x * -cn + y * cp) * z == (dp + x * z) * -cn + (dq + y * z) * cp
  {
    assert (x * -cn + y * cp) * z == (x * z) * -cn + (y * z) * cp;
  }

  lemma {:induction false} LiftWidth(b: seq<Row>, m: nat)
    requires forall r :: r in b ==> |r| == m
    ensures Width(LiftAll(b), m)
  {
    forall v | v in LiftAll(b) ensures |v| == m {
      var i :| 0 <= i < |b| && LiftAll(b)[i] == v;
      assert b[i] in b;
    }
  }

  lemma {:induction false} MemberInCone(r: Row, b: seq<Row>, m: nat)
    requires r in b && forall s :: s in b ==> |s| == m
    ensures InCone(LiftAll(b), m, Lift(r))
  {
    LiftWidth(b, m);
    var i :| 0 <= i < |b| && b[i] == r;
    assert LiftAll(b)[i] in LiftAll(b);
    ConeGenerator(LiftAll(b), m, Lift(r));
  }

  lemma {:induction false} CoveredInCone(r: Row, b: seq<Row>, m: nat)
    requires Covered(r, b) && |r| == m && forall s :: s in b ==> |s| == m
    ensures InCone(LiftAll(b), m, Lift(r))
  {
    if r in b {
      MemberInCone(r, b, m);
    } else {
      var s :| s in b && Multiple(r, s);
      MemberInCone(s, b, m);
      var k :| Times(r, s, k);
      var zero := seq(m, _ => 0.0);
      ConeZero(LiftAll(b), m, zero);
      LiftMultiple(r, s, k);
      ConeLinear(LiftAll(b), m, k as real, Lift(s), zero, Lift(r));
    }
  }

  /** Dropping redundant rows does not change the cone the rows generate. */
  lemma {:induction false} ReductionKeepsCone(rows: seq<Row>, next: seq<Row>, m: nat, x: Vec)
    requires forall r :: r in rows ==> |r| == m && Covered(r, next)
    requires forall r :: r in next ==> r in rows
    ensures InCone(LiftAll(rows), m, x) <==> InCone(LiftAll(next), m, x)
  {
    LiftWidth(rows, m);
    LiftWidth(next, m);
    forall i | 0 <= i < |rows| ensures InCone(LiftAll(next), m, LiftAll(rows)[i]) {
      assert rows[i] in rows;
      CoveredInCone(rows[i], next, m);
    }
    forall i | 0 <= i < |next| ensures InCone(LiftAll(rows), m, LiftAll(next)[i]) {
      assert next[i] in next;
      MemberInCone(next[i], rows, m);
    }
    if InCone(LiftAll(rows), m, x) { ConeTransitive(LiftAll(rows), LiftAll(next), m, x); }
    if InCone(LiftAll(next), m, x) { ConeTransitive(LiftAll(next), LiftAll(rows), m, x); }
  }

  lemma {:induction false} LiftMultiple(r: Row, s: Row, k: int)
    requires Times(r, s, k) && |r| == |s|
    ensures forall q :: 0 <= q < |r| ==> Lift(r)[q] == (k as real) * Lift(s)[q]
  {
    forall q | 0 <= q < |r| ensures Lift(r)[q] == (k as real) * Lift(s)[q] {
      assert At(r, q) == k * At(s, q);
      RealProduct(k, s[q]);
    }
  }

  lemma {:induction false} LiftCancels(p: Row, q: Row, cp: int, cn: int, m: nat)
    requires |p| == |q| == m
    ensures Cancels(Lift(Cancel(p, q, cp, cn, m)), Lift(p), Lift(q), cp as real, cn as real)
  {
    var r := Lift(Cancel(p, q, cp, cn, m));
    forall k | 0 <= k < m ensures r[k] == Lift(p)[k] * -(cn as real) + Lift(q)[k] * (cp as real) {
      RealProduct(p[k], -cn);
      RealProduct(q[k], cp);
    }
  }

  lemma {:induction false} PairEntry(x: int, y: int, cp: int, cn: int)
    requires x >= 0 && y >= 0 && cp > 0 > cn
    ensures x * -cn + y * cp >= 0 && (x > 0 ==> x * -cn + y * cp > 0)
  {
    assert x * -cn >= 0 && y * cp >= 0 && (x > 0 ==> x * -cn > 0);
  }

  lemma {:induction false} PairNatural(p: Row, q: Row, cp: int, cn: int, m: nat)
    requires |p| == |q| == m && Natural(p) && NonZero(p) && Natural(q) && cp > 0 > cn
    ensures Natural(Cancel(p, q, cp, cn, m)) && NonZero(Cancel(p, q, cp, cn, m))
  {
    var r := Cancel(p, q, cp, cn, m);
    forall k | 0 <= k < m ensures r[k] >= 0 && (p[k] > 0 ==> r[k] > 0) {
      PairEntry(p[k], q[k], cp, cn);
    }
  }

  lemma {:induction false} PairAnnihilates(p: Row, q: Row, cp: int, cn: int, a: Matrix, j: nat)
    requires |p| == |q| == |a| && Annihilates(p, a, j) && Annihilates(q, a, j)
    requires cp == Dot(p, a, j, |a|) && cn == Dot(q, a, j, |a|)
    ensures Annihilates(Cancel(p, q, cp, cn, |a|), a, j + 1)
  {
    forall c | 0 <= c < j + 1 ensures Dot(Cancel(p, q, cp, cn, |a|), a, c, |a|) == 0 {
      DotCancel(p, q, cp, cn, a, c, |a|);
      CancelZero(cp, cn);
    }
  }

  lemma {:induction false} CancelZero(cp: int, cn: int)
    ensures cp * -cn + cn * cp == 0
  {
  }

  /** The weighted sum of a positive and a negative row is again a candidate, now also for column j. */
  lemma {:induction false} PairSound(r: Row, b: seq<Row>, signed: seq<int>, a: Matrix, j: nat, i: nat, k: nat)
    requires IsPair(r, b, signed, |a|, i, k) && Sound(b, a, j) && Signed(signed, b, a, j)
    ensures |r| == |a| && Natural(r) && NonZero(r) && Annihilates(r, a, j + 1)
  {
    assert b[i] in b && b[k] in b;
    PairNatural(b[i], b[k], signed[i], signed[k], |a|);
    PairAnnihilates(b[i], b[k], signed[i], signed[k], a, j);
  }

  lemma {:induction false} StepComplete(b: seq<Row>, next: seq<Row>, a: Matrix, j: nat, signed: seq<int>)
    requires Sound(b, a, j) && Complete(b, a, j)
    requires Signed(signed, b, a, j)
    requires forall r :: r in next ==> |r| == |a|
    requires forall i :: 0 <= i < |b| && signed[i] == 0 ==> Covered(b[i], next)
    requires forall r, i, k :: IsPair(r, b, signed, |a|, i, k) ==> Covered(r, next)
    ensures Complete(next, a, j + 1)
  {
    var m, rows, c, col := |a|, LiftAll(b), Lift(signed), Lift(Column(a, j));
    LiftWidth(b, m);
    LiftWidth(next, m);
    forall i | 0 <= i < |b| ensures |b[i]| == m && c[i] == Inner(rows[i], col) {
      assert b[i] in b;
      InnerDot(b[i], a, j);
    }
    forall i | 0 <= i < |b| && signed[i] == 0 ensures InCone(LiftAll(next), m, rows[i]) { CoveredInCone(b[i], next, m); }
    forall i, k | 0 <= i < |b| && 0 <= k < |b| && signed[i] > 0 > signed[k]
      ensures exists r :: Cancels(r, rows[i], rows[k], c[i], c[k]) && InCone(LiftAll(next), m, r)
    {
      var r := Cancel(b[i], b[k], signed[i], signed[k], m);
      assert IsPair(r, b, signed, m, i, k);
      CoveredInCone(r, next, m);
      LiftCancels(b[i], b[k], signed[i], signed[k], m);
    }
    forall x | RealInvariant(x, a, j + 1) ensures InCone(LiftAll(next), m, x) {
      assert RealInvariant(x, a, j);
      var lam :| Generates(lam, rows, m, x);
      ColumnProduct(lam, rows, m, x, col, c);
      ColumnStep(LiftAll(next), rows, m, c, lam, x);
    }
  }

  /** The signed product of column j with every candidate row. */
  method ColumnProducts(b: seq<Row>, a: Matrix, j: nat) returns (signed: seq<int>)
    ensures Signed(signed, b, a, j)
  {
    signed := [];
    for i := 0 to |b|
      invariant |signed| == i && forall p :: 0 <= p < i ==> signed[p] == Dot(b[p], a, j, |a|)
    {
      var c := DotColumn(b[i], a, j);
      signed := signed + [c];
    }
  }

  predicate Signed(signed: seq<int>, b: seq<Row>, a: Matrix, j: nat) {
    |signed| == |b| && forall p :: 0 <= p < |b| ==> signed[p] == Dot(b[p], a, j, |a|)
  }

  /** One pass of the loop over the columns. */
  /** A row of the next pass before reduction: one with product zero, or a combined pair. */
  ghost predicate IsNext(r: Row, b: seq<Row>, signed: seq<int>, m: nat)
    requires |b| == |signed|
  {
    (exists i :: 0 <= i < |b| && signed[i] == 0 && r == b[i]) || exists i, k :: IsPair(r, b, signed, m, i, k)
  }

  /** `next` holds rows of the next pass only, and all of them up to positive multiples. */
  ghost predicate Represents(next: seq<Row>, b: seq<Row>, signed: seq<int>, m: nat)
    requires |b| == |signed|
  {
    (forall r :: r in next ==> IsNext(r, b, signed, m)) && (forall r :: IsNext(r, b, signed, m) ==> Covered(r, next))
  }

  /** One column was eliminated. */
  ghost predicate NextPass(b: seq<Row>, next: seq<Row>, a: Matrix, j: nat) {
    exists signed :: Signed(signed, b, a, j) && Represents(next, b, signed, |a|)
  }

  /** The first j columns were eliminated, starting from the unit rows. */
  ghost predicate Derived(b: seq<Row>, a: Matrix, j: nat)
    decreases j
  {
    if j == 0 then |b| == |a| && forall i :: 0 <= i < |a| ==> b[i] == Unit(|a|, i)
    else
      var i := j - 1;
      exists before :: Derived(before, a, i) && NextPass(before, b, a, i)
  }

  lemma {:induction false} DerivedNext(before: seq<Row>, b: seq<Row>, a: Matrix, j: nat)
    requires Derived(before, a, j) && NextPass(before, b, a, j)
    ensures Derived(b, a, j + 1)
  {
  }

  method EliminateColumn(b: seq<Row>, a: Matrix, j: nat) returns (next: seq<Row>)
    requires Sound(b, a, j) && Complete(b, a, j)
    ensures Sound(next, a, j + 1) && Complete(next, a, j + 1)
    ensures NextPass(b, next, a, j)
  {
    var signed := ColumnProducts(b, a, j);
    var positives, negatives, zeros := PartitionBySign(signed);
    assert forall u :: 0 <= u < |zeros| ==> zeros[u] in zeros;
    if |positives| == 0 || |negatives| == 0 {
      next := seq(|zeros|, u requires 0 <= u < |zeros| => b[zeros[u]]);
      ZerosOnly(b, next, a, j, signed, zeros);
      assert forall r, i, k :: IsPair(r, b, signed, |a|, i, k) ==> i in positives && k in negatives;
    } else {
      next := CombineAndReduce(b, a, j, signed, positives, negatives, zeros);
    }
    StepComplete(b, next, a, j, signed);
    assert Represents(next, b, signed, |a|);
  }

  /** The rows of the next pass before reduction: exactly the zero rows and the combined pairs. */
  ghost predicate NextRows(rows: seq<Row>, b: seq<Row>, signed: seq<int>, m: nat)
    requires |b| == |signed|
  {
    && (forall r :: r in rows ==> (exists i :: 0 <= i < |b| && signed[i] == 0 && r == b[i]) || exists i, k :: IsPair(r, b, signed, m, i, k))
    && (forall i :: 0 <= i < |b| && signed[i] == 0 ==> b[i] in rows)
    && (forall r, i, k :: IsPair(r, b, signed, m, i, k) ==> r in rows)
  }

  method CombineRows(b: seq<Row>, m: nat, signed: seq<int>, positives: seq<nat>, negatives: seq<nat>, zeros: seq<nat>) returns (rows: seq<Row>)
    requires |b| == |signed|
    requires forall i: nat :: i in positives <==> i < |signed| && signed[i] > 0
    requires forall i: nat :: i in negatives <==> i < |signed| && signed[i] < 0
    requires forall i: nat :: i in zeros <==> i < |signed| && signed[i] == 0
    ensures NextRows(rows, b, signed, m)
  {
    ListIndices(positives, signed, x => x > 0);
    ListIndices(negatives, signed, x => x < 0);
    ListIndices(zeros, signed, x => x == 0);
    var combined, used := CombineOppositeSigned(b, signed, positives, negatives, m);
    var kept := KeepUnusedZeros(b, zeros, used);
    rows := kept + combined;
    ZerosKept(b, signed, positives, negatives, zeros, used, kept);
    PairsCombined(b, signed, m, positives, negatives, combined);
    KeptZeros(b, signed, zeros, used, kept);
    RowsTogether(b, signed, m, kept, combined);
  }

  lemma {:induction false} ListIndices(list: seq<nat>, signed: seq<int>, p: int -> bool)
    requires forall i: nat :: i in list ==> i < |signed| && p(signed[i])
    ensures forall u :: 0 <= u < |list| ==> list[u] < |signed| && p(signed[list[u]])
  {
    assert forall u :: 0 <= u < |list| ==> list[u] in list;
  }

  lemma {:induction false} KeptZeros(b: seq<Row>, signed: seq<int>, zeros: seq<nat>, used: set<nat>, kept: seq<Row>)
    requires |b| == |signed| && forall i: nat :: i in zeros ==> i < |signed| && signed[i] == 0
    requires forall r :: r in kept ==> exists i :: i in zeros && i !in used && r == b[i]
    ensures forall r :: r in kept ==> exists i :: 0 <= i < |b| && signed[i] == 0 && r == b[i]
  {
  }

  lemma {:induction false} RowsTogether(b: seq<Row>, signed: seq<int>, m: nat, kept: seq<Row>, combined: seq<Row>)
    requires |b| == |signed|
    requires forall r :: r in kept ==> exists i :: 0 <= i < |b| && signed[i] == 0 && r == b[i]
    requires forall r :: r in combined ==> exists i, k :: IsPair(r, b, signed, m, i, k)
    requires forall i :: 0 <= i < |b| && signed[i] == 0 ==> b[i] in kept
    requires forall r, i, k :: IsPair(r, b, signed, m, i, k) ==> r in combined
    ensures NextRows(kept + combined, b, signed, m)
  {
  }

  /** The branch of the pass in which rows of both signs exist. */
  method CombineAndReduce(b: seq<Row>, a: Matrix, j: nat, signed: seq<int>,
                          positives: seq<nat>, negatives: seq<nat>, zeros: seq<nat>) returns (next: seq<Row>)
    requires Sound(b, a, j) && Signed(signed, b, a, j)
    requires forall i: nat :: i in positives <==> i < |signed| && signed[i] > 0
    requires forall i: nat :: i in negatives <==> i < |signed| && signed[i] < 0
    requires forall i: nat :: i in zeros <==> i < |signed| && signed[i] == 0
    ensures Sound(next, a, j + 1)
    ensures forall i :: 0 <= i < |b| && signed[i] == 0 ==> Covered(b[i], next)
    ensures forall r, i, k :: IsPair(r, b, signed, |a|, i, k) ==> Covered(r, next)
    ensures forall r :: r in next ==> IsNext(r, b, signed, |a|)
  {
    var rows := CombineRows(b, |a|, signed, positives, negatives, zeros);
    next := ReduceRows(rows);
    ReducedSound(b, a, j, signed, rows, next);
  }

  lemma {:induction false} ZerosKept(b: seq<Row>, signed: seq<int>, positives: seq<nat>, negatives: seq<nat>, zeros: seq<nat>, used: set<nat>, kept: seq<Row>)
    requires |b| == |signed| && forall i :: i in used ==> i in positives || i in negatives
    requires forall i: nat :: i in positives <==> i < |signed| && signed[i] > 0
    requires forall i: nat :: i in negatives <==> i < |signed| && signed[i] < 0
    requires forall i: nat :: i in zeros <==> i < |signed| && signed[i] == 0
    requires forall i :: i in zeros && i !in used ==> b[i] in kept
    ensures forall i :: 0 <= i < |b| && signed[i] == 0 ==> b[i] in kept
  {
    forall i | 0 <= i < |b| && signed[i] == 0 ensures b[i] in kept {
      assert i in zeros && i !in used;
    }
  }

  lemma {:induction false} PairsCombined(b: seq<Row>, signed: seq<int>, m: nat, positives: seq<nat>, negatives: seq<nat>, combined: seq<Row>)
    requires |b| == |signed|
    requires forall i: nat :: i in positives <==> i < |signed| && signed[i] > 0
    requires forall i: nat :: i in negatives <==> i < |signed| && signed[i] < 0
    requires forall u, v :: 0 <= u < |positives| && 0 <= v < |negatives| && positives[u] < |b| && negatives[v] < |b| ==>
               Cancel(b[positives[u]], b[negatives[v]], signed[positives[u]], signed[negatives[v]], m) in combined
    ensures forall r, i, k :: IsPair(r, b, signed, m, i, k) ==> r in combined
  {
    forall r, i, k | IsPair(r, b, signed, m, i, k) ensures r in combined {
      assert i in positives && k in negatives;
      var u :| 0 <= u < |positives| && positives[u] == i;
      var v :| 0 <= v < |negatives| && negatives[v] == k;
    }
  }

  lemma {:induction false} ReducedSound(b: seq<Row>, a: Matrix, j: nat, signed: seq<int>, rows: seq<Row>, next: seq<Row>)
    requires Sound(b, a, j) && Signed(signed, b, a, j) && NextRows(rows, b, signed, |a|)
    requires Irredundant(next) && forall r :: r in next ==> r in rows
    ensures Sound(next, a, j + 1)
  {
    forall r | r in next ensures |r| == |a| && Natural(r) && NonZero(r) && Annihilates(r, a, j + 1) {
      if exists i :: 0 <= i < |b| && signed[i] == 0 && r == b[i] {
        var i :| 0 <= i < |b| && signed[i] == 0 && r == b[i];
        assert b[i] in b;
      } else {
        var i, k :| IsPair(r, b, signed, |a|, i, k);
        PairSound(r, b, signed, a, j, i, k);
      }
    }
  }

  lemma {:induction false} ZerosCover(b: seq<Row>, next: seq<Row>, signed: seq<int>, zeros: seq<nat>, i: nat)
    requires |signed| == |b| && i < |b| && i in zeros
    requires |next| == |zeros| && forall u :: 0 <= u < |zeros| ==> zeros[u] < |b| && next[u] == b[zeros[u]]
    ensures Covered(b[i], next)
  {
    var u :| 0 <= u < |zeros| && zeros[u] == i;
    assert next[u] in next;
  }

  /** Without rows of both signs only the rows with product zero stay. */
  lemma {:induction false} ZerosOnly(b: seq<Row>, next: seq<Row>, a: Matrix, j: nat, signed: seq<int>, zeros: seq<nat>)
    requires Sound(b, a, j) && Signed(signed, b, a, j)
    requires Increasing(zeros) && forall i: nat :: i in zeros <==> i < |b| && signed[i] == 0
    requires |next| == |zeros| && forall u :: 0 <= u < |zeros| ==> zeros[u] < |b| && next[u] == b[zeros[u]]
    ensures Sound(next, a, j + 1)
    ensures forall i :: 0 <= i < |b| && signed[i] == 0 ==> Covered(b[i], next)
    ensures forall r :: r in next ==> IsNext(r, b, signed, |a|)
  {
    forall r | r in next ensures r in b && Annihilates(r, a, j + 1) && IsNext(r, b, signed, |a|) {
      var u :| 0 <= u < |next| && next[u] == r;
      assert zeros[u] in zeros;
    }
    forall i | 0 <= i < |b| && signed[i] == 0 ensures Covered(b[i], next) { ZerosCover(b, next, signed, zeros, i); }
  }

  lemma {:induction false} DotUnit(m: nat, i: nat, x: Vec, k: nat)
    requires i < m == |x| && k < m
    ensures Lift(Unit(m, i))[k] == if i == k then 1.0 else 0.0
  {
  }

  lemma {:induction false} UnitProduct(v: real, u: real)
    ensures u == 0.0 ==> v * u == 0.0
    ensures u == 1.0 ==> v * u == v
  {
  }

  lemma {:induction false} IdentityComplete(b: seq<Row>, a: Matrix)
    requires |b| == |a| && forall i :: 0 <= i < |a| ==> b[i] == Unit(|a|, i)
    ensures Complete(b, a, 0)
  {
    var m := |a|;
    LiftWidth(b, m);
    forall x | RealInvariant(x, a, 0) ensures InCone(LiftAll(b), m, x) {
      forall k | 0 <= k < m ensures x[k] == Inner(x, Coordinate(LiftAll(b), k)) {
        var unit := Coordinate(LiftAll(b), k);
        var none := seq(m, _ => 0.0);
        SumUpdate(none, k, x[k]);
        SumZero(none);
        forall q | 0 <= q < m ensures Products(x, unit)[q] == none[k := x[k]][q] {
          DotUnit(m, q, x, k);
          UnitProduct(x[q], unit[q]);
        }
        assert Products(x, unit) == none[k := x[k]];
      }
      assert Generates(x, LiftAll(b), m, x);
    }
  }

  /**
   * Elimination of the first `columns` columns. The rows returned annihilate every column, and
   * every non-negative real weight vector that does so too is a non-negative combination of them.
   */
  method Eliminate(a: Matrix, columns: nat) returns (b: seq<Row>)
    ensures Sound(b, a, columns) && Complete(b, a, columns)
    ensures Derived(b, a, columns)
  {
    b := SeedIdentity(|a|);
    IdentityComplete(b, a);
    IdentitySound(b, a);
    for j := 0 to columns
      invariant Sound(b, a, j) && Complete(b, a, j) && Derived(b, a, j)
    {
      ghost var before := b;
      b := EliminateColumn(b, a, j);
      DerivedNext(before, b, a, j);
    }
  }

  lemma {:induction false} IdentitySound(b: seq<Row>, a: Matrix)
    requires |b| == |a| && forall i :: 0 <= i < |a| ==> b[i] == Unit(|a|, i)
    ensures Sound(b, a, 0)
  {
    forall r | r in b ensures |r| == |a| && Natural(r) && NonZero(r) {
      var i :| 0 <= i < |b| && b[i] == r;
      assert r[i] == 1;
    }
    forall i, k | 0 <= i < |b| && 0 <= k < |b| && i != k ensures !Multiple(b[i], b[k]) {
      if s :| Times(b[i], b[k], s) { assert At(b[i], i) == s * At(b[k], i); }
    }
  }
}
