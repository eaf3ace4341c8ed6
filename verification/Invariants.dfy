/** Incidence matrix, place and transition invariants, and what they say about firing sequences. */
module Invariants {
  import opened PetriNet
  import opened Elimination
  import opened Cone
  import opened MarkingKeys
  import opened Text

  predicate DistinctIds(net: Net) {
    (forall i, k :: 0 <= i < k < |net.places| ==> net.places[i].id != net.places[k].id)
    && (forall i, k :: 0 <= i < k < |net.transitions| ==> net.transitions[i].id != net.transitions[k].id)
  }

  /** No place of the net before index i carries the id of place i. */
  predicate FirstOfId(net: Net, i: nat)
    requires i < |net.places|
  {
    forall k :: 0 <= k < i ==> net.places[k].id != net.places[i].id
  }

  /** Output arcs minus input arcs of place i under transition j; a transition with a self-loop has no effect. */
  function Effect(net: Net, i: nat, j: nat): int
    requires i < |net.places| && j < |net.transitions|
  {
    var p, t := net.places[i].id, net.transitions[j].id;
    if HasSelfLoop(net, t) || !FirstOfId(net, i) then 0
    else multiset(Outputs(net, t))[p] as int - multiset(Inputs(net, t))[p] as int
  }

  ghost function Incidence(net: Net): (a: Matrix)
    ensures |a| == |net.places|
  {
    seq(|net.places|, i requires 0 <= i < |net.places| =>
      seq(|net.transitions|, j requires 0 <= j < |net.transitions| => Effect(net, i, j)))
  }

  method IndexOf(net: Net, p: string) returns (i: int)
    ensures -1 <= i < |net.places|
    ensures i == -1 <==> p !in PlaceIds(net)
    ensures i >= 0 ==> net.places[i].id == p && FirstOfId(net, i)
  {
    for k := 0 to |net.places|
      invariant forall q :: 0 <= q < k ==> net.places[q].id != p
    {
      if net.places[k].id == p { return k; }
    }
    return -1;
  }

  /** What row i gains from the arcs, each of which counts `step` at the row of its place. */
  function Gain(net: Net, i: nat, places: seq<string>, step: int): int
    requires i < |net.places|
  {
    if !FirstOfId(net, i) then 0
    else if step == 1 then multiset(places)[net.places[i].id]
    else -(multiset(places)[net.places[i].id] as int)
  }

  lemma {:induction false} GainSnoc(net: Net, i: nat, places: seq<string>, n: nat, step: int)
    requires i < |net.places| && n < |places| && (step == 1 || step == -1)
    ensures Gain(net, i, places[..n + 1], step)
         == Gain(net, i, places[..n], step) + if FirstOfId(net, i) && places[n] == net.places[i].id then step else 0
  {
    CountSnoc(places, n, net.places[i].id);
  }

  ghost predicate Shape(net: Net, a: Matrix) {
    |a| == |net.places| && forall i :: 0 <= i < |a| ==> |a[i]| == |net.transitions|
  }

  ghost predicate SameElsewhere(a: Matrix, b: Matrix, j: nat) {
    |a| == |b| && forall i, k :: 0 <= i < |a| && 0 <= k < |a[i]| && k != j ==> |a[i]| == |b[i]| && b[i][k] == a[i][k]
  }

  /** Column j of the matrix gains `step` for each of the arcs, at the row of its place. */
  method AddArcs(net: Net, a: Matrix, j: nat, places: seq<string>, step: int) returns (b: Matrix)
    requires Shape(net, a) && j < |net.transitions| && (step == 1 || step == -1)
    ensures Shape(net, b) && SameElsewhere(a, b, j)
    ensures forall i :: 0 <= i < |a| ==> b[i][j] == a[i][j] + Gain(net, i, places, step)
  {
    b := a;
    for n := 0 to |places|
      invariant Shape(net, b) && SameElsewhere(a, b, j)
      invariant forall i :: 0 <= i < |a| ==> b[i][j] == a[i][j] + Gain(net, i, places[..n], step)
    {
      forall q | 0 <= q < |a| { GainSnoc(net, q, places, n, step); }
      var i := IndexOf(net, places[n]);
      if i >= 0 {
        assert forall q :: 0 <= q < |a| && FirstOfId(net, q) && net.places[q].id == places[n] ==> q == i;
        b := b[i := b[i][j := b[i][j] + step]];
      }
    }
    assert places[..|places|] == places;
  }

  /** The first `columns` columns are filled in, the others still zero. */
  ghost predicate Filled(net: Net, a: Matrix, columns: nat) {
    Shape(net, a)
    && forall i, k :: 0 <= i < |a| && 0 <= k < |a[i]| ==> a[i][k] == if k < columns then Effect(net, i, k) else 0
  }

  method FillColumn(net: Net, a: Matrix, j: nat) returns (b: Matrix)
    requires Filled(net, a, j) && j < |net.transitions|
    ensures Filled(net, b, j + 1)
  {
    var classified := ClassifyArcsForTransition(net, net.transitions[j].id);
    if classified.SelfLoop? { return a; }
    b := AddArcs(net, a, j, classified.outputs, 1);
    b := AddArcs(net, b, j, classified.inputs, -1);
  }

  method IncidenceMatrix(net: Net) returns (a: Matrix)
    ensures a == Incidence(net)
  {
    a := seq(|net.places|, _ => seq(|net.transitions|, _ => 0));
    for j := 0 to |net.transitions|
      invariant Filled(net, a, j)
    {
      a := FillColumn(net, a, j);
    }
    forall i | 0 <= i < |a| ensures a[i] == Incidence(net)[i] {}
  }

  lemma {:induction false} IncidenceAt(net: Net, i: nat, j: nat)
    requires i < |net.places| && j < |net.transitions|
    ensures At(Incidence(net)[i], j) == At(Transposed(net)[j], i) == Effect(net, i, j)
  {
  }

  // ----- the state equation -----

  /** The arcs from p to t beyond the first: what the matrix counts and a firing does not take. */
  function Extra(net: Net, t: string, p: string): nat {
    Minus(multiset(Inputs(net, t))[p], 1)
  }

  /** One firing changes every place by its column of the incidence matrix, plus the extra arcs. */
  lemma {:induction false} PlaceEquation(net: Net, m: Marking, j: nat, m': Marking, i: nat)
    requires DistinctIds(net) && j < |net.transitions| && FireStep(net, m, net.transitions[j].id, m') && i < |net.places|
    ensures var p := net.places[i].id;
            TokensAt(m', p) == TokensAt(m, p) + Effect(net, i, j) + Extra(net, net.transitions[j].id, p)
  {
    var ins, p := Inputs(net, net.transitions[j].id), net.places[i].id;
    if p in ins {
      var k :| 0 <= k < |ins| && ins[k] == p;
      assert TokensAt(m, ins[k]) >= 1;
    }
  }

  lemma {:induction false} NoExtra(net: Net, t: string)
    ensures SingleInputs(net, t) <==> forall i :: 0 <= i < |net.places| ==> Extra(net, t, net.places[i].id) == 0
  {
    var ins := Inputs(net, t);
    ArcPlaces(net.arcs, PlaceIds(net), t);
    if forall i :: 0 <= i < |net.places| ==> Extra(net, t, net.places[i].id) == 0 {
      forall p | p in ins ensures multiset(ins)[p] == 1 {
        var i :| 0 <= i < |net.places| && net.places[i].id == p;
        assert Extra(net, t, net.places[i].id) == 0;
      }
    }
  }

  /**
   * One firing changes every place by its column of the incidence matrix exactly when no place
   * feeds the transition through two arcs.
   */
  lemma {:induction false} StepEquation(net: Net, m: Marking, j: nat, m': Marking)
    requires DistinctIds(net) && j < |net.transitions| && FireStep(net, m, net.transitions[j].id, m')
    ensures (forall i :: 0 <= i < |net.places| ==>
              TokensAt(m', net.places[i].id) == TokensAt(m, net.places[i].id) + Effect(net, i, j))
            <==> SingleInputs(net, net.transitions[j].id)
  {
    var t := net.transitions[j].id;
    NoExtra(net, t);
    forall i | 0 <= i < |net.places|
      ensures TokensAt(m', net.places[i].id) == TokensAt(m, net.places[i].id) + Effect(net, i, j) <==> Extra(net, t, net.places[i].id) == 0
    {
      PlaceEquation(net, m, j, m', i);
    }
  }

  /** The extra arcs from p of all transitions of a firing sequence. */
  function Surplus(net: Net, fired: seq<string>, p: string): nat {
    if fired == [] then 0 else Surplus(net, fired[..|fired| - 1], p) + Extra(net, fired[|fired| - 1], p)
  }

  /** No fired transition takes from p through two arcs. */
  ghost predicate SingleAt(net: Net, fired: seq<string>, p: string) {
    forall k :: 0 <= k < |fired| ==> multiset(Inputs(net, fired[k]))[p] <= 1
  }

  lemma {:induction false} SurplusStep(net: Net, front: seq<string>, t: string, p: string)
    ensures Surplus(net, front + [t], p) == Surplus(net, front, p) + Extra(net, t, p)
    ensures SingleAt(net, front + [t], p) <==> SingleAt(net, front, p) && Extra(net, t, p) == 0
  {
    var fired := front + [t];
    assert fired[..|front|] == front;
    assert forall k :: 0 <= k < |front| ==> fired[k] == front[k];
    assert fired[|front|] == t;
  }

  lemma {:induction false} NoSurplus(net: Net, fired: seq<string>, p: string)
    ensures Surplus(net, fired, p) == 0 <==> SingleAt(net, fired, p)
  {
    if fired != [] {
      var front, t := fired[..|fired| - 1], fired[|fired| - 1];
      assert fired == front + [t];
      NoSurplus(net, front, p);
      SurplusStep(net, front, t, p);
    }
  }

  /** How often each transition of the net fired. */
  ghost function Counts(net: Net, fired: seq<string>): (y: Row)
    ensures |y| == |net.transitions|
  {
    seq(|net.transitions|, j requires 0 <= j < |net.transitions| => multiset(fired)[net.transitions[j].id])
  }

  ghost function Transposed(net: Net): (b: Matrix)
    ensures |b| == |net.transitions|
  {
    seq(|net.transitions|, j requires 0 <= j < |net.transitions| =>
      seq(|net.places|, i requires 0 <= i < |net.places| => Effect(net, i, j)))
  }

  lemma {:induction false} DotIncrement(y: Row, z: Row, b: Matrix, i: nat, j: nat, n: nat)
    requires n <= |b| == |y| == |z| && j < |b| && z == y[j := y[j] + 1]
    ensures Dot(z, b, i, n) == Dot(y, b, i, n) + if j < n then At(b[j], i) else 0
  {
    if n > 0 {
      DotIncrement(y, z, b, i, j, n - 1);
      assert (y[j] + 1) * At(b[j], i) == y[j] * At(b[j], i) + At(b[j], i);
    }
  }

  lemma {:induction false} DotOfNothing(y: Row, b: Matrix, i: nat, n: nat)
    requires n <= |b| == |y| && forall k :: 0 <= k < |y| ==> y[k] == 0
    ensures Dot(y, b, i, n) == 0
  {
    if n > 0 { DotOfNothing(y, b, i, n - 1); }
  }

  ghost predicate AllSingle(net: Net, fired: seq<string>) {
    forall k :: 0 <= k < |fired| ==> SingleInputs(net, fired[k])
  }

  lemma {:induction false} RunPrefix(net: Net, markings: seq<Marking>, fired: seq<string>)
    requires IsRun(net, markings, fired) && fired != []
    ensures IsRun(net, markings[..|fired|], fired[..|fired| - 1])
    ensures FireStep(net, markings[|fired| - 1], fired[|fired| - 1], markings[|fired|])
  {
    var ms, ts := markings[..|fired|], fired[..|fired| - 1];
    forall i | 0 <= i < |ts| ensures FireStep(net, ms[i], ts[i], ms[i + 1]) {
      assert FireStep(net, markings[i], fired[i], markings[i + 1]);
    }
  }

  lemma {:induction false} CountsSnoc(net: Net, front: seq<string>, j: nat)
    requires DistinctIds(net) && j < |net.transitions|
    ensures Counts(net, front + [net.transitions[j].id]) == Counts(net, front)[j := Counts(net, front)[j] + 1]
  {
  }

  /** What the matrix alone predicts for place i after a firing sequence from m. */
  ghost function Predicted(net: Net, m: Marking, fired: seq<string>, i: nat): int
    requires i < |net.places|
  {
    TokensAt(m, net.places[i].id) + Dot(Counts(net, fired), Transposed(net), i, |net.transitions|)
  }

  /** The tokens of place i are what the matrix predicts plus the surplus. */
  ghost predicate Accounted(net: Net, start: Marking, fired: seq<string>, m: Marking, i: nat)
    requires i < |net.places|
  {
    TokensAt(m, net.places[i].id) == Predicted(net, start, fired, i) + Surplus(net, fired, net.places[i].id)
  }

  lemma {:induction false} CountStep(net: Net, m: Marking, m': Marking, front: seq<string>, t: string, i: nat)
    requires DistinctIds(net) && FireStep(net, m, t, m') && i < |net.places|
    ensures TokensAt(m', net.places[i].id) - TokensAt(m, net.places[i].id)
         == Dot(Counts(net, front + [t]), Transposed(net), i, |net.transitions|)
            - Dot(Counts(net, front), Transposed(net), i, |net.transitions|) + Extra(net, t, net.places[i].id)
  {
    var j :| 0 <= j < |net.transitions| && net.transitions[j].id == t;
    PlaceEquation(net, m, j, m', i);
    CountsSnoc(net, front, j);
    DotIncrement(Counts(net, front), Counts(net, front + [t]), Transposed(net), i, j, |net.transitions|);
    IncidenceAt(net, i, j);
  }

  lemma {:induction false} AccountedStep(net: Net, start: Marking, m: Marking, m': Marking, front: seq<string>, t: string, i: nat)
    requires DistinctIds(net) && FireStep(net, m, t, m') && i < |net.places| && Accounted(net, start, front, m, i)
    ensures Accounted(net, start, front + [t], m', i)
  {
    CountStep(net, m, m', front, t, i);
    SurplusStep(net, front, t, net.places[i].id);
  }

  lemma {:induction false} StateAfter(net: Net, markings: seq<Marking>, fired: seq<string>, i: nat)
    requires DistinctIds(net) && IsRun(net, markings, fired) && i < |net.places|
    ensures Accounted(net, markings[0], fired, markings[|fired|], i)
  {
    if fired == [] {
      DotOfNothing(Counts(net, fired), Transposed(net), i, |net.transitions|);
    } else {
      var front, t := fired[..|fired| - 1], fired[|fired| - 1];
      RunPrefix(net, markings, fired);
      StateAfter(net, markings[..|fired|], front, i);
      assert fired == front + [t];
      AccountedStep(net, markings[0], markings[|fired| - 1], markings[|fired|], front, t, i);
    }
  }

  /**
   * The marking after any firing sequence is the first marking plus the matrix applied to the firing counts plus
   * the surplus of parallel input arcs; the surplus is absent exactly where no fired transition takes through two arcs.
   */
  lemma {:induction false} StateEquation(net: Net, markings: seq<Marking>, fired: seq<string>, i: nat)
    requires DistinctIds(net) && IsRun(net, markings, fired) && i < |net.places|
    ensures var p := net.places[i].id;
            && TokensAt(markings[|fired|], p) == Predicted(net, markings[0], fired, i) + Surplus(net, fired, p)
            && (TokensAt(markings[|fired|], p) == Predicted(net, markings[0], fired, i) <==> SingleAt(net, fired, p))
  {
    StateAfter(net, markings, fired, i);
    NoSurplus(net, fired, net.places[i].id);
  }

  lemma {:induction false} AllSingleAt(net: Net, fired: seq<string>)
    ensures AllSingle(net, fired) <==> forall i :: 0 <= i < |net.places| ==> SingleAt(net, fired, net.places[i].id)
  {
    if forall i :: 0 <= i < |net.places| ==> SingleAt(net, fired, net.places[i].id) {
      forall k | 0 <= k < |fired| ensures SingleInputs(net, fired[k]) {
        forall i | 0 <= i < |net.places| ensures Extra(net, fired[k], net.places[i].id) == 0 {
          assert SingleAt(net, fired, net.places[i].id);
        }
        NoExtra(net, fired[k]);
      }
    }
  }

  /** The state equation as it is usually stated holds at every place exactly for runs without parallel input arcs. */
  lemma {:induction false} StateEquationEverywhere(net: Net, markings: seq<Marking>, fired: seq<string>)
    requires DistinctIds(net) && IsRun(net, markings, fired)
    ensures (forall i :: 0 <= i < |net.places| ==> TokensAt(markings[|fired|], net.places[i].id) == Predicted(net, markings[0], fired, i))
            <==> AllSingle(net, fired)
  {
    AllSingleAt(net, fired);
    forall i | 0 <= i < |net.places|
      ensures SingleAt(net, fired, net.places[i].id) == (TokensAt(markings[|fired|], net.places[i].id) == Predicted(net, markings[0], fired, i))
    {
      StateEquation(net, markings, fired, i);
    }
  }

  /** Place i has after the run what it had before. */
  ghost predicate Restored(net: Net, markings: seq<Marking>, i: nat)
    requires |markings| > 0 && i < |net.places|
  {
    TokensAt(markings[|markings| - 1], net.places[i].id) == TokensAt(markings[0], net.places[i].id)
  }

  lemma {:induction false} ReturnsAtPlaces(net: Net, markings: seq<Marking>, fired: seq<string>)
    requires IsRun(net, markings, fired)
    ensures SameTokens(markings[|fired|], markings[0]) <==> forall i :: 0 <= i < |net.places| ==> Restored(net, markings, i)
  {
    if forall i :: 0 <= i < |net.places| ==> Restored(net, markings, i) {
      forall p ensures TokensAt(markings[|fired|], p) == TokensAt(markings[0], p) {
        if p in PlaceIds(net) {
          var i :| 0 <= i < |net.places| && net.places[i].id == p;
          assert Restored(net, markings, i);
        } else {
          OutsideUntouched(net, markings, fired, p);
        }
      }
    }
  }

  /**
   * A run without parallel input arcs ends where it started exactly when the transposed matrix annihilates its
   * counts; a run with annihilated counts ends where it started exactly when it has no parallel input arcs.
   */
  lemma {:induction false} TransitionInvariantReturns(net: Net, markings: seq<Marking>, fired: seq<string>)
    requires DistinctIds(net) && IsRun(net, markings, fired)
    ensures AllSingle(net, fired) ==>
              (SameTokens(markings[|fired|], markings[0]) <==> Annihilates(Counts(net, fired), Transposed(net), |net.places|))
    ensures Annihilates(Counts(net, fired), Transposed(net), |net.places|) ==>
              (SameTokens(markings[|fired|], markings[0]) <==> AllSingle(net, fired))
  {
    ReturnsAtPlaces(net, markings, fired);
    AllSingleAt(net, fired);
    forall i | 0 <= i < |net.places|
      ensures SingleAt(net, fired, net.places[i].id) ==>
                (Restored(net, markings, i) <==> Dot(Counts(net, fired), Transposed(net), i, |net.transitions|) == 0)
      ensures Dot(Counts(net, fired), Transposed(net), i, |net.transitions|) == 0 ==>
                (Restored(net, markings, i) <==> SingleAt(net, fired, net.places[i].id))
    {
      StateEquation(net, markings, fired, i);
    }
  }

  lemma {:induction false} OutsideUntouched(net: Net, markings: seq<Marking>, fired: seq<string>, p: string)
    requires IsRun(net, markings, fired) && p !in PlaceIds(net)
    ensures TokensAt(markings[|fired|], p) == TokensAt(markings[0], p)
  {
    if fired != [] {
      RunPrefix(net, markings, fired);
      OutsideUntouched(net, markings[..|fired|], fired[..|fired| - 1], p);
      ArcPlaces(net.arcs, PlaceIds(net), fired[|fired| - 1]);
    }
  }

  // ----- conservation -----

  /** Sum of w[k] * u[k] over the first n entries. */
  function Pair(w: Row, u: Row, n: nat): int {
    if n == 0 then 0 else Pair(w, u, n - 1) + At(w, n - 1) * At(u, n - 1)
  }

  function TokenRow(net: Net, m: Marking): (u: Row)
    ensures |u| == |net.places|
  {
    seq(|net.places|, i requires 0 <= i < |net.places| => TokensAt(m, net.places[i].id))
  }

  /** Sum of w[i] times the tokens of place i. */
  function WeightedTokens(net: Net, w: Row, m: Marking): int {
    Pair(w, TokenRow(net, m), |net.places|)
  }

  lemma {:induction false} PairAdd(w: Row, u: Row, e: Row, u': Row, n: nat)
    requires forall k: nat :: k < n ==> At(u', k) == At(u, k) + At(e, k)
    ensures Pair(w, u', n) == Pair(w, u, n) + Pair(w, e, n)
  {
    if n > 0 {
      PairAdd(w, u, e, u', n - 1);
      var x, y, z := At(w, n - 1), At(u, n - 1), At(e, n - 1);
      assert x * (y + z) == x * y + x * z;
    }
  }

  lemma {:induction false} PairIsDot(w: Row, a: Matrix, j: nat, n: nat)
    requires n <= |a|
    ensures Pair(w, Column(a, j), n) == Dot(w, a, j, n)
  {
    if n > 0 { PairIsDot(w, a, j, n - 1); }
  }

  function ExtraRow(net: Net, t: string): (u: Row)
    ensures |u| == |net.places|
  {
    seq(|net.places|, i requires 0 <= i < |net.places| => Extra(net, t, net.places[i].id))
  }

  function SurplusRow(net: Net, fired: seq<string>): (u: Row)
    ensures |u| == |net.places|
  {
    seq(|net.places|, i requires 0 <= i < |net.places| => Surplus(net, fired, net.places[i].id))
  }

  /** What one firing adds to a weighted token sum. */
  lemma {:induction false} WeightedStep(net: Net, w: Row, m: Marking, m': Marking, j: nat)
    requires DistinctIds(net) && j < |net.transitions| && FireStep(net, m, net.transitions[j].id, m')
    ensures WeightedTokens(net, w, m') == WeightedTokens(net, w, m)
              + Dot(w, Incidence(net), j, |net.places|) + Pair(w, ExtraRow(net, net.transitions[j].id), |net.places|)
  {
    var e, x := Column(Incidence(net), j), ExtraRow(net, net.transitions[j].id);
    var middle: Row := seq(|net.places|, i requires 0 <= i < |net.places| => TokensAt(m, net.places[i].id) + Effect(net, i, j));
    forall k: nat | k < |net.places|
      ensures At(middle, k) == At(TokenRow(net, m), k) + At(e, k) && At(TokenRow(net, m'), k) == At(middle, k) + At(x, k)
    {
      IncidenceAt(net, k, j);
      PlaceEquation(net, m, j, m', k);
    }
    PairAdd(w, TokenRow(net, m), e, middle, |net.places|);
    PairAdd(w, middle, x, TokenRow(net, m'), |net.places|);
    PairIsDot(w, Incidence(net), j, |net.places|);
  }

  lemma {:induction false} SurplusSnoc(net: Net, w: Row, fired: seq<string>)
    requires fired != []
    ensures Pair(w, SurplusRow(net, fired), |net.places|)
         == Pair(w, SurplusRow(net, fired[..|fired| - 1]), |net.places|) + Pair(w, ExtraRow(net, fired[|fired| - 1]), |net.places|)
  {
    PairAdd(w, SurplusRow(net, fired[..|fired| - 1]), ExtraRow(net, fired[|fired| - 1]), SurplusRow(net, fired), |net.places|);
  }

  lemma {:induction false} PairZero(w: Row, u: Row, n: nat)
    requires forall k: nat :: k < n ==> At(w, k) == 0 || At(u, k) == 0
    ensures Pair(w, u, n) == 0
  {
    if n > 0 { PairZero(w, u, n - 1); }
  }

  lemma {:induction false} PairSign(w: Row, u: Row, n: nat)
    requires Natural(w) && Natural(u)
    ensures Pair(w, u, n) >= 0
    ensures Pair(w, u, n) == 0 <==> forall k: nat :: k < n ==> At(w, k) == 0 || At(u, k) == 0
  {
    if n > 0 {
      PairSign(w, u, n - 1);
      ProductSign(At(w, n - 1), At(u, n - 1));
    }
  }

  lemma {:induction false} ProductSign(x: int, y: int)
    requires x >= 0 && y >= 0
    ensures x * y >= 0 && (x * y == 0 <==> x == 0 || y == 0)
  {
  }

  /** After every firing sequence a place invariant weighs what it weighed, plus the weighted surplus. */
  lemma {:induction false} WeightedRun(net: Net, w: Row, markings: seq<Marking>, fired: seq<string>)
    requires DistinctIds(net) && IsRun(net, markings, fired) && Annihilates(w, Incidence(net), |net.transitions|)
    ensures WeightedTokens(net, w, markings[|fired|])
         == WeightedTokens(net, w, markings[0]) + Pair(w, SurplusRow(net, fired), |net.places|)
  {
    if fired == [] {
      PairZero(w, SurplusRow(net, fired), |net.places|);
    } else {
      RunPrefix(net, markings, fired);
      WeightedRun(net, w, markings[..|fired|], fired[..|fired| - 1]);
      var j :| 0 <= j < |net.transitions| && net.transitions[j].id == fired[|fired| - 1];
      WeightedStep(net, w, markings[|fired| - 1], markings[|fired|], j);
      SurplusSnoc(net, w, fired);
    }
  }

  lemma {:induction false} NoWeightedSurplus(net: Net, w: Row, fired: seq<string>)
    requires AllSingle(net, fired)
    ensures Pair(w, SurplusRow(net, fired), |net.places|) == 0
  {
    AllSingleAt(net, fired);
    forall i | 0 <= i < |net.places| ensures SurplusRow(net, fired)[i] == 0 { NoSurplus(net, fired, net.places[i].id); }
    PairZero(w, SurplusRow(net, fired), |net.places|);
  }

  /**
   * The weighted token sum of a natural place invariant never falls, and is conserved exactly when no fired
   * transition takes from a weighted place through two arcs.
   */
  lemma {:induction false} TokenConservation(net: Net, w: Row, markings: seq<Marking>, fired: seq<string>)
    requires DistinctIds(net) && IsRun(net, markings, fired)
    requires Natural(w) && |w| == |net.places| && Annihilates(w, Incidence(net), |net.transitions|)
    ensures WeightedTokens(net, w, markings[|fired|]) >= WeightedTokens(net, w, markings[0])
    ensures WeightedTokens(net, w, markings[|fired|]) == WeightedTokens(net, w, markings[0])
            <==> forall i :: 0 <= i < |net.places| && w[i] > 0 ==> SingleAt(net, fired, net.places[i].id)
  {
    var u := SurplusRow(net, fired);
    WeightedRun(net, w, markings, fired);
    forall i | 0 <= i < |net.places| ensures u[i] == 0 <==> SingleAt(net, fired, net.places[i].id) {
      NoSurplus(net, fired, net.places[i].id);
    }
    PairSign(w, u, |net.places|);
    assert forall i :: 0 <= i < |net.places| ==> At(w, i) == w[i] && At(u, i) == u[i];
  }

  lemma {:induction false} PairBound(w: Row, u: Row, i: nat, n: nat)
    requires Natural(w) && Natural(u)
    ensures Pair(w, u, n) >= 0
    ensures i < n ==> At(w, i) * At(u, i) <= Pair(w, u, n)
  {
    if n > 0 {
      PairBound(w, u, i, n - 1);
      assert At(w, n - 1) * At(u, n - 1) >= 0;
    }
  }

  /**
   * A natural place invariant bounds every place it weights, for good: weight times tokens never exceeds the first
   * weighted sum, which parallel input arcs raise by their weighted surplus.
   */
  lemma {:induction false} InvariantBounds(net: Net, w: Row, markings: seq<Marking>, fired: seq<string>, i: nat)
    requires DistinctIds(net) && IsRun(net, markings, fired)
    requires Natural(w) && Annihilates(w, Incidence(net), |net.transitions|) && i < |net.places|
    ensures At(w, i) * TokensAt(markings[|fired|], net.places[i].id)
         <= WeightedTokens(net, w, markings[0]) + Pair(w, SurplusRow(net, fired), |net.places|)
    ensures AllSingle(net, fired) ==> At(w, i) * TokensAt(markings[|fired|], net.places[i].id) <= WeightedTokens(net, w, markings[0])
  {
    WeightedRun(net, w, markings, fired);
    PairBound(w, TokenRow(net, markings[|fired|]), i, |net.places|);
    if AllSingle(net, fired) { NoWeightedSurplus(net, w, fired); }
  }

  lemma {:induction false} FullMarkingFires(net: Net, t: string) returns (m: Marking, m': Marking)
    requires Known(net, t) && !HasSelfLoop(net, t)
    ensures FireStep(net, m, t, m')
  {
    var ins, outs := Inputs(net, t), Outputs(net, t);
    ArcPlaces(net.arcs, PlaceIds(net), t);
    m := map p | p in PlaceIds(net) :: 1;
    m' := map p | p in PlaceIds(net) :: AfterFire(m, ins, outs, p);
    forall p ensures TokensAt(m', p) == AfterFire(m, ins, outs, p) {
      assert p !in PlaceIds(net) ==> p !in ins && p !in outs;
    }
    forall i | 0 <= i < |ins| ensures TokensAt(m, ins[i]) >= 1 { assert ins[i] in ins; }
  }

  /** The weighted token sum is the same before and after every firing. */
  ghost predicate Conserves(net: Net, w: Row) {
    forall m, t, m' :: FireStep(net, m, t, m') ==> WeightedTokens(net, w, m') == WeightedTokens(net, w, m)
  }

  /** What every firing of transition j adds to the weighted token sum. */
  ghost function Change(net: Net, w: Row, j: nat): int
    requires j < |net.transitions|
  {
    Dot(w, Incidence(net), j, |net.places|) + Pair(w, ExtraRow(net, net.transitions[j].id), |net.places|)
  }

  /** A weight vector is conserved by every firing exactly when each transition that can fire at all adds nothing. */
  lemma {:induction false} ConservesWhen(net: Net, w: Row)
    requires DistinctIds(net)
    ensures Conserves(net, w) <==> forall j :: 0 <= j < |net.transitions| && !HasSelfLoop(net, net.transitions[j].id) ==> Change(net, w, j) == 0
  {
    if Conserves(net, w) {
      forall j | 0 <= j < |net.transitions| && !HasSelfLoop(net, net.transitions[j].id) ensures Change(net, w, j) == 0 {
        var m, m' := FullMarkingFires(net, net.transitions[j].id);
        WeightedStep(net, w, m, m', j);
      }
    } else {
      var m, t, m' :| FireStep(net, m, t, m') && WeightedTokens(net, w, m') != WeightedTokens(net, w, m);
      var j :| 0 <= j < |net.transitions| && net.transitions[j].id == t;
      WeightedStep(net, w, m, m', j);
      assert Change(net, w, j) != 0;
    }
  }

  /** Without parallel input arcs, annihilating the incidence matrix is the same as being conserved by every firing. */
  lemma {:induction false} InvariantMeaning(net: Net, w: Row)
    requires DistinctIds(net) && forall t :: Known(net, t) ==> SingleInputs(net, t)
    ensures Annihilates(w, Incidence(net), |net.transitions|) <==> Conserves(net, w)
  {
    ConservesWhen(net, w);
    forall j | 0 <= j < |net.transitions|
      ensures Change(net, w, j) == Dot(w, Incidence(net), j, |net.places|)
      ensures HasSelfLoop(net, net.transitions[j].id) ==> Dot(w, Incidence(net), j, |net.places|) == 0
    {
      NoExtra(net, net.transitions[j].id);
      PairZero(w, ExtraRow(net, net.transitions[j].id), |net.places|);
      if HasSelfLoop(net, net.transitions[j].id) { ZeroColumn(net, w, j, |net.places|); }
    }
  }

  lemma {:induction false} ZeroColumn(net: Net, w: Row, j: nat, n: nat)
    requires j < |net.transitions| && HasSelfLoop(net, net.transitions[j].id) && n <= |net.places|
    ensures Dot(w, Incidence(net), j, n) == 0
  {
    if n > 0 {
      ZeroColumn(net, w, j, n - 1);
      IncidenceAt(net, n - 1, j);
    }
  }

  // ----- from rows to invariants -----

  /** The positive entries of the row with their ids, over the first n ids. */
  function EntriesOf(row: Row, ids: seq<string>, n: nat): seq<Entry>
    requires n <= |ids|
  {
    if n == 0 then []
    else EntriesOf(row, ids, n - 1) + if At(row, n - 1) > 0 then [Entry(ids[n - 1], At(row, n - 1))] else []
  }

  lemma {:induction false} EntriesExact(row: Row, ids: seq<string>, n: nat, e: Entry)
    requires n <= |ids|
    ensures e in EntriesOf(row, ids, n) <==> exists i :: 0 <= i < n && At(row, i) > 0 && e.id == ids[i] && e.count == At(row, i)
  {
    if n > 0 { EntriesExact(row, ids, n - 1, e); }
  }

  method RowToInvariant(row: Row, ids: seq<string>) returns (entries: seq<Entry>)
    ensures entries == EntriesOf(row, ids, |ids|)
  {
    entries := [];
    for i := 0 to |ids|
      invariant entries == EntriesOf(row, ids, i)
    {
      var w := At(row, i);
      if w > 0 { entries := entries + [Entry(ids[i], w)]; }
    }
  }

  method RowIsInvariant(row: Row, a: Matrix, columns: nat) returns (ok: bool)
    ensures ok <==> Annihilates(row, a, columns)
  {
    for j := 0 to columns
      invariant Annihilates(row, a, j)
    {
      var c := DotColumn(row, a, j);
      if c != 0 { return false; }
    }
    return true;
  }

  function InsertById(e: Entry, s: seq<Entry>): seq<Entry> {
    if s == [] || !Less(s[0].id, e.id) then [e] + s else [s[0]] + InsertById(e, s[1..])
  }

  function SortById(s: seq<Entry>): seq<Entry> {
    if s == [] then [] else InsertById(s[0], SortById(s[1..]))
  }

  lemma {:induction false} InsertKeeps(e: Entry, s: seq<Entry>)
    ensures multiset(InsertById(e, s)) == multiset{e} + multiset(s)
  {
    if s != [] {
      assert s == [s[0]] + s[1..];
      InsertKeeps(e, s[1..]);
    }
  }

  lemma {:induction false} SortKeeps(s: seq<Entry>)
    ensures multiset(SortById(s)) == multiset(s)
  {
    if s != [] {
      assert s == [s[0]] + s[1..];
      SortKeeps(s[1..]);
      InsertKeeps(s[0], SortById(s[1..]));
    }
  }

  function Signature(entries: seq<Entry>): string {
    Join(Texts(SortById(entries)), '|')
  }

  ghost predicate EntriesUnbroken(entries: seq<Entry>) {
    forall e :: e in entries ==> !Breaks(e.id)
  }

  /** Equal signatures mean equal entries, as long as no id holds a separator behind a colon and digits. */
  lemma {:induction false} SignatureInjective(x: seq<Entry>, y: seq<Entry>)
    requires EntriesUnbroken(x) && EntriesUnbroken(y) && Signature(x) == Signature(y)
    ensures multiset(x) == multiset(y)
  {
    SortKeeps(x);
    SortKeeps(y);
    SortedTexts(x);
    SortedTexts(y);
    JoinInjective(Texts(SortById(x)), Texts(SortById(y)));
    TextsInjective(SortById(x), SortById(y));
  }

  lemma {:induction false} SortedTexts(x: seq<Entry>)
    requires EntriesUnbroken(x)
    ensures forall t :: t in Texts(SortById(x)) ==> IsPart(t)
  {
    SortKeeps(x);
    forall t | t in Texts(SortById(x)) ensures IsPart(t) {
      var i :| 0 <= i < |SortById(x)| && Texts(SortById(x))[i] == t;
      assert SortById(x)[i] in multiset(SortById(x));
      EntryIsPart(SortById(x)[i].id, SortById(x)[i].count);
    }
  }

  /** With the separator inside an id two different invariants share a signature, and one of them is dropped. */
  lemma {:induction false} SignatureCollision(x: seq<Entry>, y: seq<Entry>)
    requires x == [Entry("a", 1), Entry("b", 1)] && y == [Entry("a:1|b", 1)]
    ensures Signature(x) == Signature(y) && multiset(x) != multiset(y)
    ensures FirstOfEach(Signatures([x, y]), [x, y], 2) == [x]
  {
    CollisionSorted(x, y);
    CollisionTexts(x, y);
    assert multiset(x)[Entry("a", 1)] == 1 && multiset(y)[Entry("a", 1)] == 0;
    SameSignature(Signatures([x, y]), [x, y], 2);
  }

  lemma {:induction false} CollisionSorted(x: seq<Entry>, y: seq<Entry>)
    requires x == [Entry("a", 1), Entry("b", 1)] && y == [Entry("a:1|b", 1)]
    ensures SortById(x) == x && SortById(y) == y
  {
    assert x[1..] == [x[1]] && x[1..][1..] == [] && y[1..] == [];
    assert Less("a", "b") && !Less("b", "a");
    assert SortById([x[1]]) == [x[1]];
  }

  lemma {:induction false} CollisionTexts(x: seq<Entry>, y: seq<Entry>)
    requires x == [Entry("a", 1), Entry("b", 1)] && y == [Entry("a:1|b", 1)]
    ensures Join(Texts(x), '|') == Join(Texts(y), '|')
  {
    assert Numeral(1, 10) == "1";
    assert EntryText("a", 1) == "a:1" && EntryText("b", 1) == "b:1" && EntryText("a:1|b", 1) == "a:1|b:1";
    assert Texts(x) == ["a:1", "b:1"] && Texts(y) == ["a:1|b:1"];
    assert Join(Texts(x), '|') == "a:1" + "|" + "b:1";
  }

  function Signatures(invs: seq<seq<Entry>>): (sigs: seq<string>)
    ensures |sigs| == |invs|
  {
    seq(|invs|, i requires 0 <= i < |invs| => Signature(invs[i]))
  }

  predicate Distinct(ids: seq<string>) {
    forall i, k :: 0 <= i < k < |ids| ==> ids[i] != ids[k]
  }

  /** The first item of each signature, among the first n. */
  function FirstOfEach<T>(sigs: seq<string>, items: seq<T>, n: nat): seq<T>
    requires n <= |sigs| == |items|
  {
    if n == 0 then []
    else FirstOfEach(sigs, items, n - 1) + if sigs[n - 1] in sigs[..n - 1] then [] else [items[n - 1]]
  }

  /** Of items with one common signature the first is kept. */
  lemma {:induction false} SameSignature<T>(sigs: seq<string>, items: seq<T>, n: nat)
    requires 0 < n <= |sigs| == |items| && forall i :: 0 <= i < n ==> sigs[i] == sigs[0]
    ensures FirstOfEach(sigs, items, n) == [items[0]]
  {
    if n > 1 {
      SameSignature(sigs, items, n - 1);
      assert sigs[..n - 1][0] == sigs[0];
    }
  }

  method KeepFirst<T>(sigs: seq<string>, items: seq<T>) returns (result: seq<T>)
    requires |sigs| == |items|
    ensures result == FirstOfEach(sigs, items, |items|)
  {
    var seen: set<string> := {};
    result := [];
    for n := 0 to |items|
      invariant forall s :: s in seen <==> s in sigs[..n]
      invariant result == FirstOfEach(sigs, items, n)
    {
      assert sigs[..n + 1] == sigs[..n] + [sigs[n]];
      if sigs[n] in seen { continue; }
      seen := seen + {sigs[n]};
      result := result + [items[n]];
    }
  }

  method DedupInvariants(invs: seq<seq<Entry>>) returns (result: seq<seq<Entry>>)
    ensures result == FirstOfEach(Signatures(invs), invs, |invs|)
  {
    result := KeepFirst(Signatures(invs), invs);
  }

  /** Nothing is dropped exactly when the signatures differ, and something is always kept. */
  lemma {:induction false} FirstOfEachExact<T>(sigs: seq<string>, items: seq<T>, n: nat)
    requires n <= |sigs| == |items|
    ensures |FirstOfEach(sigs, items, n)| <= n && (n > 0 ==> FirstOfEach(sigs, items, n) != [])
    ensures FirstOfEach(sigs, items, n) == items[..n] <==> Distinct(sigs[..n])
    ensures forall x :: x in FirstOfEach(sigs, items, n) ==> x in items[..n]
  {
    if n > 0 {
      FirstOfEachExact(sigs, items, n - 1);
      assert items[..n] == items[..n - 1] + [items[n - 1]];
      assert sigs[..n] == sigs[..n - 1] + [sigs[n - 1]];
      assert Distinct(sigs[..n]) <==> Distinct(sigs[..n - 1]) && sigs[n - 1] !in sigs[..n - 1] by { DistinctSnoc(sigs, n); }
    }
  }

  lemma {:induction false} DistinctSnoc(sigs: seq<string>, n: nat)
    requires 0 < n <= |sigs|
    ensures Distinct(sigs[..n]) <==> Distinct(sigs[..n - 1]) && sigs[n - 1] !in sigs[..n - 1]
  {
    var s, t := sigs[..n], sigs[..n - 1];
    assert forall i :: 0 <= i < n - 1 ==> s[i] == t[i];
    if Distinct(s) { assert forall i :: 0 <= i < n - 1 ==> t[i] != s[n - 1]; }
    if Distinct(t) && sigs[n - 1] !in t { assert forall i :: 0 <= i < n - 1 ==> t[i] in t; }
  }

  // ----- the analyses -----

  /** The weight the entries give to an id. */
  ghost function WeightOf(entries: seq<Entry>, id: string): int {
    if exists e :: e in entries && e.id == id then (var e :| e in entries && e.id == id; e.count) else 0
  }

  ghost function RowOf(entries: seq<Entry>, ids: seq<string>): (r: Row)
    ensures |r| == |ids|
  {
    seq(|ids|, i requires 0 <= i < |ids| => WeightOf(entries, ids[i]))
  }

  lemma {:induction false} RowOfEntries(row: Row, ids: seq<string>)
    requires |row| == |ids| && Natural(row) && Distinct(ids)
    ensures RowOf(EntriesOf(row, ids, |ids|), ids) == row
  {
    var entries := EntriesOf(row, ids, |ids|);
    forall i | 0 <= i < |ids| ensures WeightOf(entries, ids[i]) == row[i] {
      forall e ensures e in entries && e.id == ids[i] ==> row[i] > 0 && e.count == row[i] { EntriesExact(row, ids, |ids|, e); }
      if row[i] > 0 { EntriesExact(row, ids, |ids|, Entry(ids[i], row[i])); }
    }
  }

  ghost function Rows(invs: seq<seq<Entry>>, ids: seq<string>): (rows: seq<Row>)
    ensures |rows| == |invs|
  {
    seq(|invs|, i requires 0 <= i < |invs| => RowOf(invs[i], ids))
  }

  ghost function AllEntries(b: seq<Row>, ids: seq<string>): (invs: seq<seq<Entry>>)
    ensures |invs| == |b|
  {
    seq(|b|, i requires 0 <= i < |b| => EntriesOf(b[i], ids, |ids|))
  }

  ghost predicate IsInvariantRow(r: Row, a: Matrix, columns: nat) {
    Natural(r) && NonZero(r) && Annihilates(r, a, columns)
  }

  /** The only non-negative real weight vector that annihilates the matrix is zero. */
  ghost predicate OnlyZero(a: Matrix, columns: nat) {
    forall x, k :: RealInvariant(x, a, columns) && 0 <= k < |x| ==> x[k] == 0.0
  }

  /** What the caller is promised of an analysis of matrix `a`, whose rows belong to `ids`. */
  ghost predicate IsAnalysis(invs: seq<seq<Entry>>, ids: seq<string>, a: Matrix, columns: nat) {
    && (Distinct(ids) ==> forall inv :: inv in invs ==> IsInvariantRow(RowOf(inv, ids), a, columns))
    && (Distinct(ids) && NamesUnbroken(ids) ==> Complete(Rows(invs, ids), a, columns))
    && (invs == [] <==> OnlyZero(a, columns))
  }

  /** The rows of the elimination as entries, the first of each signature. */
  ghost predicate IsResult(invs: seq<seq<Entry>>, ids: seq<string>, a: Matrix, columns: nat) {
    |ids| == |a| && exists b :: Derived(b, a, columns) && invs == FirstOfEach(Signatures(AllEntries(b, ids)), AllEntries(b, ids), |b|)
  }

  lemma {:induction false} NothingDerived(columns: nat)
    ensures Derived([], [], columns)
  {
    if columns > 0 {
      NothingDerived(columns - 1);
      assert Signed([], [], [], columns - 1) && Represents([], [], [], 0);
      assert NextPass([], [], [], columns - 1);
    }
  }

  lemma {:induction false} NoResult(a: Matrix, columns: nat)
    requires a == []
    ensures IsResult([], [], a, columns)
  {
    NothingDerived(columns);
    assert FirstOfEach(Signatures(AllEntries([], [])), AllEntries([], []), 0) == [];
  }

  ghost predicate NamesUnbroken(ids: seq<string>) {
    forall id :: id in ids ==> !Breaks(id)
  }

  /** The rows the final filter lets through, as entries. */
  ghost function Filtered(b: seq<Row>, ids: seq<string>, a: Matrix, columns: nat, n: nat): seq<seq<Entry>>
    requires n <= |b|
  {
    if n == 0 then []
    else Filtered(b, ids, a, columns, n - 1)
         + if NonZero(b[n - 1]) && Annihilates(b[n - 1], a, columns) && EntriesOf(b[n - 1], ids, |ids|) != []
           then [EntriesOf(b[n - 1], ids, |ids|)] else []
  }

  lemma {:induction false} RowSurvives(row: Row, ids: seq<string>)
    requires NonZero(row) && Natural(row) && |row| == |ids|
    ensures EntriesOf(row, ids, |ids|) != []
  {
    var i :| 0 <= i < |row| && row[i] != 0;
    EntriesExact(row, ids, |ids|, Entry(ids[i], row[i]));
  }

  /** The filter never removes a row of the elimination. */
  lemma {:induction false} FilterKeepsAll(b: seq<Row>, ids: seq<string>, a: Matrix, columns: nat, n: nat)
    requires Sound(b, a, columns) && n <= |b| && |ids| == |a|
    ensures Filtered(b, ids, a, columns, n) == AllEntries(b, ids)[..n]
  {
    if n > 0 {
      FilterKeepsAll(b, ids, a, columns, n - 1);
      assert b[n - 1] in b;
      RowSurvives(b[n - 1], ids);
    }
  }

  method CollectInvariants(b: seq<Row>, ids: seq<string>, a: Matrix, columns: nat) returns (invs: seq<seq<Entry>>)
    ensures invs == Filtered(b, ids, a, columns, |b|)
  {
    invs := [];
    for n := 0 to |b|
      invariant invs == Filtered(b, ids, a, columns, n)
    {
      var every := true;
      for k := 0 to |b[n]|
        invariant every <==> forall q :: 0 <= q < k ==> b[n][q] == 0
      {
        every := every && b[n][k] == 0;
      }
      if every { continue; }
      var ok := RowIsInvariant(b[n], a, columns);
      if !ok { continue; }
      var inv := RowToInvariant(b[n], ids);
      if |inv| > 0 { invs := invs + [inv]; }
    }
  }

  lemma {:induction false} EntriesDiffer(b: seq<Row>, ids: seq<string>, a: Matrix, columns: nat)
    requires Sound(b, a, columns) && |ids| == |a| && Distinct(ids) && NamesUnbroken(ids)
    ensures Distinct(Signatures(AllEntries(b, ids)))
  {
    forall i, k | 0 <= i < k < |b| ensures Signatures(AllEntries(b, ids))[i] != Signatures(AllEntries(b, ids))[k] {
      assert b[i] in b && b[k] in b;
      RowsDiffer(b[i], b[k], ids);
    }
  }

  lemma {:induction false} EntriesOfUnbroken(row: Row, ids: seq<string>)
    requires NamesUnbroken(ids)
    ensures EntriesUnbroken(EntriesOf(row, ids, |ids|))
  {
    forall e | e in EntriesOf(row, ids, |ids|) ensures !Breaks(e.id) { EntriesExact(row, ids, |ids|, e); }
  }

  lemma {:induction false} RowsDiffer(r: Row, s: Row, ids: seq<string>)
    requires |r| == |s| == |ids| && Natural(r) && Natural(s) && NonZero(r) && Distinct(ids) && !Multiple(r, s)
    requires NamesUnbroken(ids)
    ensures Signature(EntriesOf(r, ids, |ids|)) != Signature(EntriesOf(s, ids, |ids|))
  {
    var x, y := EntriesOf(r, ids, |ids|), EntriesOf(s, ids, |ids|);
    EntriesOfUnbroken(r, ids);
    EntriesOfUnbroken(s, ids);
    if Signature(x) == Signature(y) {
      SignatureInjective(x, y);
      SameEntriesSameRow(r, s, ids);
      MultipleOfItself(r);
    }
  }

  lemma {:induction false} EntryTransfers(r: Row, s: Row, ids: seq<string>, i: nat)
    requires |r| == |s| == |ids| && Distinct(ids) && i < |ids| && r[i] > 0
    requires Entry(ids[i], r[i]) in EntriesOf(r, ids, |ids|) ==> Entry(ids[i], r[i]) in EntriesOf(s, ids, |ids|)
    ensures s[i] == r[i]
  {
    EntriesExact(r, ids, |ids|, Entry(ids[i], r[i]));
    EntriesExact(s, ids, |ids|, Entry(ids[i], r[i]));
  }

  lemma {:induction false} SameEntriesSameRow(r: Row, s: Row, ids: seq<string>)
    requires |r| == |s| == |ids| && Natural(r) && Natural(s) && Distinct(ids)
    requires multiset(EntriesOf(r, ids, |ids|)) == multiset(EntriesOf(s, ids, |ids|))
    ensures r == s
  {
    var x, y := EntriesOf(r, ids, |ids|), EntriesOf(s, ids, |ids|);
    forall e ensures e in x <==> e in y { assert e in multiset(x) <==> e in multiset(y); }
    forall i | 0 <= i < |ids| ensures r[i] == s[i] {
      if r[i] > 0 { EntryTransfers(r, s, ids, i); } else if s[i] > 0 { EntryTransfers(s, r, ids, i); }
    }
  }

  lemma {:induction false} MultipleOfItself(r: Row)
    requires NonZero(r)
    ensures Multiple(r, r)
  {
    assert Times(r, r, 1);
  }

  lemma {:induction false} EntriesSound(b: seq<Row>, ids: seq<string>, a: Matrix, columns: nat, inv: seq<Entry>)
    requires Sound(b, a, columns) && |ids| == |a| && Distinct(ids) && inv in AllEntries(b, ids)
    ensures IsInvariantRow(RowOf(inv, ids), a, columns)
  {
    var i :| 0 <= i < |b| && AllEntries(b, ids)[i] == inv;
    assert b[i] in b;
    RowOfEntries(b[i], ids);
  }

  lemma {:induction false} RowsOfEntries(b: seq<Row>, ids: seq<string>, a: Matrix, columns: nat)
    requires Sound(b, a, columns) && |ids| == |a| && Distinct(ids)
    ensures Rows(AllEntries(b, ids), ids) == b
  {
    forall i | 0 <= i < |b| ensures Rows(AllEntries(b, ids), ids)[i] == b[i] {
      assert b[i] in b;
      RowOfEntries(b[i], ids);
    }
  }

  lemma {:induction false} KeptEntries(b: seq<Row>, ids: seq<string>, a: Matrix, columns: nat, invs: seq<seq<Entry>>)
    requires Sound(b, a, columns) && |ids| == |a|
    requires invs == FirstOfEach(Signatures(AllEntries(b, ids)), AllEntries(b, ids), |b|)
    ensures (invs == [] <==> b == []) && forall inv :: inv in invs ==> inv in AllEntries(b, ids)
    ensures Distinct(ids) && NamesUnbroken(ids) ==> invs == AllEntries(b, ids)
  {
    var every := AllEntries(b, ids);
    FirstOfEachExact(Signatures(every), every, |b|);
    assert every[..|b|] == every && Signatures(every)[..|b|] == Signatures(every);
    if Distinct(ids) && NamesUnbroken(ids) { EntriesDiffer(b, ids, a, columns); }
  }

  lemma {:induction false} AnalysisHolds(b: seq<Row>, ids: seq<string>, a: Matrix, columns: nat, invs: seq<seq<Entry>>)
    requires Sound(b, a, columns) && Complete(b, a, columns) && |ids| == |a|
    requires invs == FirstOfEach(Signatures(AllEntries(b, ids)), AllEntries(b, ids), |b|)
    ensures IsAnalysis(invs, ids, a, columns)
  {
    KeptEntries(b, ids, a, columns, invs);
    EmptyMeansNone(b, a, columns);
    if Distinct(ids) {
      forall inv | inv in invs ensures IsInvariantRow(RowOf(inv, ids), a, columns) { EntriesSound(b, ids, a, columns, inv); }
      RowsOfEntries(b, ids, a, columns);
    }
  }

  lemma {:induction false} EmptyMeansNone(b: seq<Row>, a: Matrix, columns: nat)
    requires Sound(b, a, columns) && Complete(b, a, columns)
    ensures b == [] <==> OnlyZero(a, columns)
  {
    if b == [] {
      forall x, k | RealInvariant(x, a, columns) && 0 <= k < |x| ensures x[k] == 0.0 {
        var lam :| Generates(lam, LiftAll(b), |a|, x);
        InnerZero(lam, Coordinate(LiftAll(b), k));
      }
    } else {
      assert b[0] in b;
      var i :| 0 <= i < |b[0]| && b[0][i] != 0;
      var x := Lift(b[0]);
      forall j | 0 <= j < columns ensures Inner(x, Lift(Column(a, j))) == 0.0 { InnerDot(b[0], a, j); }
      assert RealInvariant(x, a, columns) && x[i] != 0.0;
    }
  }

  /** Place invariants: the analysis of the incidence matrix, rows belonging to places. */
  method PlaceInvariants(net: Net) returns (invs: seq<seq<Entry>>)
    ensures IsAnalysis(invs, PlaceNames(net), Incidence(net), |net.transitions|)
    ensures IsResult(invs, PlaceNames(net), Incidence(net), |net.transitions|)
  {
    var ids := PlaceNames(net);
    if |ids| == 0 {
      NoRows(Incidence(net), |net.transitions|);
      NoResult(Incidence(net), |net.transitions|);
      AnalysisHolds([], ids, Incidence(net), |net.transitions|, []);
      return [];
    }
    var a := IncidenceMatrix(net);
    var b := Eliminate(a, |net.transitions|);
    var every := CollectInvariants(b, ids, a, |net.transitions|);
    FilterKeepsAll(b, ids, a, |net.transitions|, |b|);
    invs := DedupInvariants(every);
    assert AllEntries(b, ids)[..|b|] == AllEntries(b, ids);
    AnalysisHolds(b, ids, a, |net.transitions|, invs);
  }

  lemma {:induction false} NoRows(a: Matrix, columns: nat)
    requires a == []
    ensures Sound([], a, columns) && Complete([], a, columns)
  {
    forall x | RealInvariant(x, a, columns) ensures InCone(LiftAll([]), 0, x) { ConeZero(LiftAll([]), 0, x); }
  }

  function PlaceNames(net: Net): (ids: seq<string>)
    ensures |ids| == |net.places|
  {
    seq(|net.places|, i requires 0 <= i < |net.places| => net.places[i].id)
  }

  function TransitionNames(net: Net): (ids: seq<string>)
    ensures |ids| == |net.transitions|
  {
    seq(|net.transitions|, j requires 0 <= j < |net.transitions| => net.transitions[j].id)
  }

  method TransposeColumn(a: Matrix, j: nat) returns (row: Row)
    ensures row == Column(a, j)
  {
    row := [];
    for i := 0 to |a|
      invariant |row| == i && forall k :: 0 <= k < i ==> row[k] == At(a[k], j)
    {
      row := row + [At(a[i], j)];
    }
  }

  method Transpose(a: Matrix, width: nat) returns (b: Matrix)
    ensures |b| == width && forall j :: 0 <= j < width ==> b[j] == Column(a, j)
  {
    b := [];
    for j := 0 to width
      invariant |b| == j && forall k :: 0 <= k < j ==> b[k] == Column(a, k)
    {
      var row := TransposeColumn(a, j);
      b := b + [row];
    }
  }

  lemma {:induction false} ColumnsTransposed(net: Net, b: Matrix)
    requires |b| == |net.transitions| && forall j :: 0 <= j < |b| ==> b[j] == Column(Incidence(net), j)
    ensures b == Transposed(net)
  {
    forall j | 0 <= j < |b| ensures b[j] == Transposed(net)[j] {
      ColumnTransposed(net, j);
    }
  }

  lemma {:induction false} ColumnTransposed(net: Net, j: nat)
    requires j < |net.transitions|
    ensures Column(Incidence(net), j) == Transposed(net)[j]
  {
    forall i | 0 <= i < |net.places| { IncidenceAt(net, i, j); }
  }

  /** Transition invariants: the same elimination on the transposed matrix, rows belonging to transitions. */
  method TransitionInvariants(net: Net) returns (invs: seq<seq<Entry>>)
    ensures IsAnalysis(invs, TransitionNames(net), Transposed(net), |net.places|)
    ensures IsResult(invs, TransitionNames(net), Transposed(net), |net.places|)
  {
    var ids := TransitionNames(net);
    if |ids| == 0 {
      NoRows(Transposed(net), |net.places|);
      NoResult(Transposed(net), |net.places|);
      AnalysisHolds([], ids, Transposed(net), |net.places|, []);
      return [];
    }
    var a := IncidenceMatrix(net);
    var t := Transpose(a, |net.transitions|);
    ColumnsTransposed(net, t);
    var b := Eliminate(t, |net.places|);
    var every := CollectInvariants(b, ids, t, |net.places|);
    FilterKeepsAll(b, ids, t, |net.places|, |b|);
    invs := DedupInvariants(every);
    assert AllEntries(b, ids)[..|b|] == AllEntries(b, ids);
    AnalysisHolds(b, ids, t, |net.places|, invs);
  }
}
