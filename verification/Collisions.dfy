/** What goes wrong when a place id holds a separator behind a colon and digits: two nets. */
module Collisions {
  import opened PetriNet
  import opened MarkingKeys
  import E = Elimination
  import C = Cone
  import I = Invariants
  import R = Reachability

  const TWICE := "a:1|b"

  function Places(): seq<Place> {
    [Place("a", "", Absent), Place("b", "", Absent), Place(TWICE, "", Absent)]
  }

  lemma {:induction false} PlacesOf(net: Net)
    requires net.places == Places()
    ensures PlaceIds(net) == {"a", "b", TWICE}
  {
    assert net.places[0] in net.places && net.places[1] in net.places && net.places[2] in net.places;
  }

  ghost predicate Letters(a: string, b: string, c: string, t: string) {
    a != b && a != c && b != c && t != a && t != b && t != c
  }

  lemma {:induction false} PlaceLetters()
    ensures Letters("a", "b", TWICE, "t")
  {
    assert "a"[0] != "b"[0] && "a"[0] != "t"[0] && "b"[0] != "t"[0] && |TWICE| == 5;
  }

  // ----- an incomplete analysis -----

  /** One transition moves a token from a to b; the third place is not connected. */
  function MovingNet(): Net {
    Net(Places(), [Transition("t", "")], [Arc("1", "a", "t"), Arc("2", "t", "b")])
  }

  function MovingMatrix(): E.Matrix {
    [[-1], [1], [0]]
  }

  lemma {:induction false} MovingArcs(arcs: seq<Arc>, places: set<string>, a: string, b: string, c: string, t: string)
    requires Letters(a, b, c, t) && arcs == [Arc("1", a, t), Arc("2", t, b)] && places == {a, b, c}
    ensures InputsOf(arcs, places, t) == [a] && OutputsOf(arcs, places, t) == [b]
  {
    var one := arcs[..1];
    assert one == [arcs[0]] && one[..0] == [];
    assert InputsOf(one, places, t) == [a];
    assert OutputsOf(one, places, t) == [];
  }

  lemma {:induction false} MovingTransition(net: Net)
    requires net == MovingNet()
    ensures Inputs(net, "t") == ["a"] && Outputs(net, "t") == ["b"] && !HasSelfLoop(net, "t")
  {
    PlaceLetters();
    PlacesOf(net);
    MovingArcs(net.arcs, PlaceIds(net), "a", "b", TWICE, "t");
  }

  lemma {:induction false} MovingFirst(net: Net, i: nat)
    requires net.places == Places() && i < 3
    ensures I.FirstOfId(net, i)
  {
    PlaceLetters();
  }

  lemma {:induction false} MovingEffect(net: Net, i: nat, p: string)
    requires net == MovingNet() && i < 3 && net.places[i].id == p
    ensures I.Effect(net, i, 0) == (if p == "b" then 1 else 0) - (if p == "a" then 1 else 0)
  {
    MovingTransition(net);
    MovingFirst(net, i);
  }

  lemma {:induction false} MovingRow(net: Net, i: nat, p: string)
    requires net == MovingNet() && i < 3 && net.places[i].id == p
    ensures I.Incidence(net)[i] == [(if p == "b" then 1 else 0) - (if p == "a" then 1 else 0)]
  {
    MovingEffect(net, i, p);
    I.IncidenceAt(net, i, 0);
  }

  lemma {:induction false} MovingIncidence(net: Net)
    requires net == MovingNet()
    ensures I.Incidence(net) == MovingMatrix() && I.PlaceNames(net) == ["a", "b", TWICE]
  {
    MovingRow(net, 0, "a");
    MovingRow(net, 1, "b");
    MovingRow(net, 2, TWICE);
    var a := I.Incidence(net);
    assert |a| == 3 && a[0] == [-1] && a[1] == [1] && a[2] == [0];
  }

  /** Tokens of a and b together, and tokens of the third place. */
  function Both(): E.Row { [1, 1, 0] }

  function Third(): E.Row { [0, 0, 1] }

  lemma {:induction false} MovingProducts(units: seq<E.Row>, signed: seq<int>)
    requires |units| == 3 && forall i :: 0 <= i < 3 ==> units[i] == E.Unit(3, i)
    requires E.Signed(signed, units, MovingMatrix(), 0)
    ensures units == [[1, 0, 0], [0, 1, 0], [0, 0, 1]] && signed == [-1, 1, 0]
  {
    var a := MovingMatrix();
    assert E.Unit(3, 0) == [1, 0, 0] && E.Unit(3, 1) == [0, 1, 0] && E.Unit(3, 2) == [0, 0, 1];
    forall r: E.Row | |r| == 3 ensures E.Dot(r, a, 0, 3) == r[1] - r[0] {
      assert E.Dot(r, a, 0, 1) == -r[0] && E.Dot(r, a, 0, 2) == r[1] - r[0];
    }
  }

  /** The elimination leaves these two rows. */
  lemma {:induction false} MovingRows(b: seq<E.Row>)
    requires E.Derived(b, MovingMatrix(), 1)
    ensures Both() in b && Third() in b && forall r :: r in b ==> r == Both() || r == Third()
  {
    var a := MovingMatrix();
    var units :| E.Derived(units, a, 0) && E.NextPass(units, b, a, 0);
    var signed :| E.Signed(signed, units, a, 0) && E.Represents(b, units, signed, |a|);
    MovingProducts(units, signed);
    MovingNext(units, signed);
    forall r | r in b ensures r == Both() || r == Third() { assert E.IsNext(r, units, signed, 3); }
    assert E.Covered(Both(), b) && E.Covered(Third(), b);
    NotMultiples();
  }

  lemma {:induction false} MovingNext(units: seq<E.Row>, signed: seq<int>)
    requires units == [[1, 0, 0], [0, 1, 0], [0, 0, 1]] && signed == [-1, 1, 0]
    ensures forall r :: E.IsNext(r, units, signed, 3) <==> r == Both() || r == Third()
  {
    assert E.Cancel(units[1], units[0], 1, -1, 3) == Both();
    assert E.IsPair(Both(), units, signed, 3, 1, 0);
    assert signed[2] == 0 && Third() == units[2];
    forall r | E.IsNext(r, units, signed, 3) ensures r == Both() || r == Third() {
      if i, k :| E.IsPair(r, units, signed, 3, i, k) { assert i == 1 && k == 0; }
    }
  }

  lemma {:induction false} NotMultiples()
    ensures !E.Multiple(Both(), Third()) && !E.Multiple(Third(), Both())
  {
    forall k ensures !E.Times(Both(), Third(), k) { assert E.At(Both(), 0) != k * E.At(Third(), 0); }
    forall k ensures !E.Times(Third(), Both(), k) { assert E.At(Third(), 2) != k * E.At(Both(), 2); }
  }

  lemma {:induction false} MovingEntries(ids: seq<string>)
    requires ids == ["a", "b", TWICE]
    ensures I.EntriesOf(Both(), ids, 3) == [Entry("a", 1), Entry("b", 1)]
    ensures I.EntriesOf(Third(), ids, 3) == [Entry(TWICE, 1)]
  {
    assert I.EntriesOf(Both(), ids, 1) == [Entry("a", 1)];
    assert I.EntriesOf(Both(), ids, 2) == [Entry("a", 1), Entry("b", 1)];
    assert I.EntriesOf(Third(), ids, 1) == [];
    assert I.EntriesOf(Third(), ids, 2) == [];
  }

  lemma {:induction false} MovingSignature(ids: seq<string>, r: E.Row)
    requires ids == ["a", "b", TWICE] && (r == Both() || r == Third())
    ensures I.Signature(I.EntriesOf(r, ids, 3)) == I.Signature([Entry("a", 1), Entry("b", 1)])
  {
    MovingEntries(ids);
    I.SignatureCollision([Entry("a", 1), Entry("b", 1)], [Entry(TWICE, 1)]);
  }

  /** Of one row alone the other is no combination. */
  lemma {:induction false} OneRowIncomplete(r: E.Row, x: E.Row, k: nat)
    requires (r == Both() && x == Third() && k == 2) || (r == Third() && x == Both() && k == 0)
    ensures !E.Complete([r], MovingMatrix(), 1)
  {
    var a, v := MovingMatrix(), E.Lift(x);
    assert E.Dot(x, a, 0, 1) == -x[0] && E.Dot(x, a, 0, 2) == x[1] - x[0];
    E.InnerDot(x, a, 0);
    assert E.RealInvariant(v, a, 1);
    forall lam: C.Vec | |lam| == 1 ensures C.Inner(lam, C.Coordinate(E.LiftAll([r]), k)) == 0.0 {
      OneCoefficient(lam, r, k);
    }
    assert v[k] == 1.0;
  }

  lemma {:induction false} OneCoefficient(lam: C.Vec, r: E.Row, k: nat)
    requires |lam| == 1 && |r| == 3 && k < 3 && r[k] == 0
    ensures C.Inner(lam, C.Coordinate(E.LiftAll([r]), k)) == 0.0
  {
    var c := C.Coordinate(E.LiftAll([r]), k);
    assert c == [0.0];
    C.SumZero(C.Products(lam, c));
  }

  lemma {:induction false} OneKept(b: seq<E.Row>, ids: seq<string>)
    requires ids == ["a", "b", TWICE] && b != [] && forall r :: r in b ==> r == Both() || r == Third()
    ensures I.FirstOfEach(I.Signatures(I.AllEntries(b, ids)), I.AllEntries(b, ids), |b|) == [I.EntriesOf(b[0], ids, 3)]
  {
    forall i | 0 <= i < |b| ensures I.Signatures(I.AllEntries(b, ids))[i] == I.Signature([Entry("a", 1), Entry("b", 1)]) {
      assert b[i] in b;
      MovingSignature(ids, b[i]);
    }
    I.SameSignature(I.Signatures(I.AllEntries(b, ids)), I.AllEntries(b, ids), |b|);
  }

  lemma {:induction false} IdsDistinct(ids: seq<string>)
    requires ids == ["a", "b", TWICE]
    ensures I.Distinct(ids)
  {
    assert |ids[0]| == |ids[1]| == 1 && ids[0][0] != ids[1][0] && |ids[2]| == 5;
  }

  lemma {:induction false} KeptRow(r: E.Row, ids: seq<string>)
    requires I.Distinct(ids) && |ids| == 3 && (r == Both() || r == Third())
    ensures I.Rows([I.EntriesOf(r, ids, 3)], ids) == [r]
  {
    I.RowOfEntries(r, ids);
  }

  lemma {:induction false} KeptIncomplete(r: E.Row)
    requires r == Both() || r == Third()
    ensures !E.Complete([r], MovingMatrix(), 1)
  {
    if r == Both() { OneRowIncomplete(r, Third(), 2); } else { OneRowIncomplete(r, Both(), 0); }
  }

  lemma {:induction false} ResultIncomplete(b: seq<E.Row>, invs: seq<seq<Entry>>, ids: seq<string>, a: E.Matrix)
    requires ids == ["a", "b", TWICE] && a == MovingMatrix() && E.Derived(b, a, 1)
    requires invs == I.FirstOfEach(I.Signatures(I.AllEntries(b, ids)), I.AllEntries(b, ids), |b|)
    ensures I.Distinct(ids) && |invs| == 1 && !E.Complete(I.Rows(invs, ids), a, 1)
  {
    MovingRows(b);
    OneKept(b, ids);
    IdsDistinct(ids);
    assert b[0] in b;
    KeptRow(b[0], ids);
    KeptIncomplete(b[0]);
  }

  /** The ids of this net are distinct, and what its analysis returns is one invariant that does not generate the other. */
  lemma {:induction false} AnalysisIncomplete(net: Net, ids: seq<string>, a: E.Matrix, invs: seq<seq<Entry>>)
    requires net == MovingNet() && ids == I.PlaceNames(net) && a == I.Incidence(net) && I.IsResult(invs, ids, a, 1)
    ensures I.Distinct(ids) && |invs| == 1 && !E.Complete(I.Rows(invs, ids), a, 1)
  {
    MovingIncidence(net);
    var b :| E.Derived(b, a, 1) && invs == I.FirstOfEach(I.Signatures(I.AllEntries(b, ids)), I.AllEntries(b, ids), |b|);
    ResultIncomplete(b, invs, ids, a);
  }

  /** The analysis of a net with distinct place ids that is not complete. */
  method LosesInvariant() returns (invs: seq<seq<Entry>>)
    ensures I.Distinct(I.PlaceNames(MovingNet()))
    ensures |invs| == 1 && !E.Complete(I.Rows(invs, I.PlaceNames(MovingNet())), I.Incidence(MovingNet()), 1)
  {
    var net := MovingNet();
    invs := I.PlaceInvariants(net);
    AnalysisIncomplete(net, I.PlaceNames(net), I.Incidence(net), invs);
  }

  // ----- a wrong verdict -----

  /** One transition takes a token from a and one from b, and marks the third place. */
  function MeetingNet(): Net {
    Net(Places(), [Transition("t", "")], [Arc("1", "a", "t"), Arc("2", "b", "t"), Arc("3", "t", TWICE)])
  }

  function Apart(): Marking {
    map["a" := 1, "b" := 1]
  }

  function Met(): Marking {
    map[TWICE := 1]
  }

  predicate HasMet(m: Marking) {
    TokensAt(m, TWICE) >= 1
  }

  lemma {:induction false} MeetingArcs(arcs: seq<Arc>, places: set<string>, a: string, b: string, c: string, t: string)
    requires Letters(a, b, c, t) && arcs == [Arc("1", a, t), Arc("2", b, t), Arc("3", t, c)]
    requires places == {a, b, c}
    ensures InputsOf(arcs, places, t) == [a, b] && OutputsOf(arcs, places, t) == [c]
  {
    var one, two := arcs[..1], arcs[..2];
    assert one == [arcs[0]] && one[..0] == [] && two == [arcs[0], arcs[1]] && two[..1] == one && arcs[..2] == two;
    assert InputsOf(one, places, t) == [a];
    assert OutputsOf(one, places, t) == [];
    assert InputsOf(two, places, t) == [a, b];
    assert OutputsOf(two, places, t) == [];
  }

  lemma {:induction false} MeetingTransition(net: Net)
    requires net == MeetingNet()
    ensures Inputs(net, "t") == ["a", "b"] && Outputs(net, "t") == [TWICE] && !HasSelfLoop(net, "t")
  {
    PlaceLetters();
    PlacesOf(net);
    MeetingArcs(net.arcs, PlaceIds(net), "a", "b", TWICE, "t");
  }

  lemma {:induction false} OnlyTransition(net: Net, t: string)
    requires net == MeetingNet()
    ensures Known(net, t) <==> t == "t"
  {
    assert net.transitions[0].id == "t";
  }

  lemma {:induction false} StepTokens(a: string, b: string, c: string, p: string)
    requires Letters(a, b, c, "t")
    ensures R.AfterApply(map[a := 1, b := 1], [a, b], [c], p) == TokensAt(map[c := 1], p)
    ensures Marked(map[a := 1, b := 1], [a, b])
  {
    var ins := [a, b];
    assert multiset(ins)[a] == 1 && multiset(ins)[b] == 1 && multiset(ins)[c] == 0;
    assert ins[0] == a && ins[1] == b;
  }

  lemma {:induction false} MeetingStep(net: Net, m: Marking)
    requires net == MeetingNet()
    ensures R.SearchStep(net, Apart(), "t", m) <==> SameTokens(m, Met())
  {
    MeetingTransition(net);
    OnlyTransition(net, "t");
    PlaceLetters();
    forall p ensures R.AfterApply(Apart(), ["a", "b"], [TWICE], p) == TokensAt(Met(), p) && Marked(Apart(), ["a", "b"]) {
      StepTokens("a", "b", TWICE, p);
    }
  }

  lemma {:induction false} MetIsFinal(net: Net, m: Marking, t: string)
    requires net == MeetingNet() && SameTokens(m, Met())
    ensures !Enabled(net, m, t)
  {
    MeetingTransition(net);
    OnlyTransition(net, t);
    PlaceLetters();
    assert Inputs(net, "t")[0] == "a" && TokensAt(m, "a") == TokensAt(Met(), "a") == 0;
  }

  /** Only one step can be made. */
  lemma {:induction false} MeetingTraces(net: Net, trace: seq<R.ReachStep>, end: Marking)
    requires net == MeetingNet() && R.IsTrace(net, Apart(), trace, end)
    ensures (trace == [] && end == Apart()) || SameTokens(end, Met())
  {
    if trace != [] {
      var last := trace[|trace| - 1];
      MeetingTraces(net, trace[..|trace| - 1], last.marking);
      OnlyTransition(net, last.firedTransition);
      if SameTokens(last.marking, Met()) { MetIsFinal(net, last.marking, last.firedTransition); }
      MeetingStep(net, end);
    }
  }

  lemma {:induction false} MetSharesKey(end: Marking)
    requires SameTokens(end, Met())
    ensures R.SharedKey(Apart(), end)
  {
    KeyCollision(Apart(), Met(), "a:1|b:1");
    R.KeyOfCanon("a:1|b:1", Met());
    R.KeyOfCanon("a:1|b:1", end);
    R.CanonEqual(end, Met());
  }

  lemma {:induction false} NoGenuineHit(net: Net, r: R.ReachResult)
    requires net == MeetingNet()
    ensures !R.GenuineHit(net, Apart(), HasMet, r)
  {
    forall end | R.IsTrace(net, Apart(), r.trace, end) && HasMet(end) ensures r.trace != [] && R.SharedKey(Apart(), end) {
      MeetingTraces(net, r.trace, end);
      if SameTokens(end, Met()) { MetSharesKey(end); }
    }
  }

  /** The search denies a goal on token counts that one step reaches. */
  method MissesGoal(maxSteps: R.Bound) returns (r: R.ReachResult)
    ensures !r.reachable && R.CountsOnly(HasMet)
    ensures R.ReachedIn(MeetingNet(), Apart(), 1, Met()) && HasMet(Met()) && r.maxSteps >= 1
  {
    var net := MeetingNet();
    r := R.Reachable(net, Apart(), HasMet, maxSteps);
    NoGenuineHit(net, r);
    MeetingStep(net, Met());
    assert R.ReachedIn(net, Apart(), 0, Apart());
  }
}
