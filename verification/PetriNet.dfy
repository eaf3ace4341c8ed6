/** Place/transition nets, markings, the enabled set and the token game. */
module PetriNet {
  import opened Options

  datatype Tokens = Absent | NotFinite | Finite(value: real)

  datatype Place = Place(id: string, name: string, tokens: Tokens)

  datatype Transition = Transition(id: string, name: string)

  datatype Arc = Arc(id: string, source: string, target: string)

  datatype Net = Net(places: seq<Place>, transitions: seq<Transition>, arcs: seq<Arc>)

  /** A place missing from the map holds no token. */
  type Marking = map<string, nat>

  function TokensAt(m: Marking, p: string): nat {
    if p in m then m[p] else 0
  }

  ghost predicate SameTokens(a: Marking, b: Marking) {
    forall p :: TokensAt(a, p) == TokensAt(b, p)
  }

  function PlaceIds(net: Net): set<string> {
    set p | p in net.places :: p.id
  }

  predicate IsLoop(arc: Arc, t: string) {
    arc.source == t && arc.target == t
  }

  predicate HasSelfLoop(net: Net, t: string) {
    exists i :: 0 <= i < |net.arcs| && IsLoop(net.arcs[i], t)
  }

  predicate Known(net: Net, t: string) {
    exists i :: 0 <= i < |net.transitions| && net.transitions[i].id == t
  }

  /** Source places of the arcs into t, one entry per arc, in arc order. */
  function InputsOf(arcs: seq<Arc>, places: set<string>, t: string): seq<string> {
    if arcs == [] then []
    else
      var arc := arcs[|arcs| - 1];
      InputsOf(arcs[..|arcs| - 1], places, t)
      + if arc.source != t && arc.target == t && arc.source in places then [arc.source] else []
  }

  /** Target places of the arcs out of t, one entry per arc, in arc order. */
  function OutputsOf(arcs: seq<Arc>, places: set<string>, t: string): seq<string> {
    if arcs == [] then []
    else
      var arc := arcs[|arcs| - 1];
      OutputsOf(arcs[..|arcs| - 1], places, t)
      + if arc.source == t && arc.target in places then [arc.target] else []
  }

  function Inputs(net: Net, t: string): seq<string> {
    InputsOf(net.arcs, PlaceIds(net), t)
  }

  function Outputs(net: Net, t: string): seq<string> {
    OutputsOf(net.arcs, PlaceIds(net), t)
  }

  lemma {:induction false} ArcPlaces(arcs: seq<Arc>, places: set<string>, t: string)
    ensures forall p :: p in InputsOf(arcs, places, t) || p in OutputsOf(arcs, places, t) ==> p in places
  {
    if arcs != [] { ArcPlaces(arcs[..|arcs| - 1], places, t); }
  }

  predicate Marked(m: Marking, inputs: seq<string>) {
    forall i :: 0 <= i < |inputs| ==> TokensAt(m, inputs[i]) >= 1
  }

  predicate Enabled(net: Net, m: Marking, t: string) {
    Known(net, t) && !HasSelfLoop(net, t) && Marked(m, Inputs(net, t))
  }

  /** No place feeds t through two arcs. */
  predicate SingleInputs(net: Net, t: string) {
    forall p :: p in Inputs(net, t) ==> multiset(Inputs(net, t))[p] == 1
  }

  function Minus(a: nat, b: nat): nat {
    if a >= b then a - b else 0
  }

  // ----- classification and enabling -----

  datatype Classified = SelfLoop(arcId: string) | Arcs(inputs: seq<string>, outputs: seq<string>)

  method ClassifyArcsForTransition(net: Net, t: string) returns (r: Classified)
    ensures r.SelfLoop? <==> HasSelfLoop(net, t)
    ensures r.SelfLoop? ==> exists i :: 0 <= i < |net.arcs| && IsLoop(net.arcs[i], t) && r.arcId == net.arcs[i].id
                              && forall k :: 0 <= k < i ==> !IsLoop(net.arcs[k], t)
    ensures r.Arcs? ==> r.inputs == Inputs(net, t) && r.outputs == Outputs(net, t)
  {
    var inputs, outputs := [], [];
    var places := PlaceIds(net);
    for i := 0 to |net.arcs|
      invariant forall k :: 0 <= k < i ==> !IsLoop(net.arcs[k], t)
      invariant inputs == InputsOf(net.arcs[..i], places, t) && outputs == OutputsOf(net.arcs[..i], places, t)
    {
      var arc := net.arcs[i];
      assert net.arcs[..i + 1][..i] == net.arcs[..i];
      if arc.source == t && arc.target == t { return SelfLoop(arc.id); }
      if arc.source == t {
        if arc.target in places { outputs := outputs + [arc.target]; }
      } else if arc.target == t {
        if arc.source in places { inputs := inputs + [arc.source]; }
      }
    }
    assert net.arcs[..|net.arcs|] == net.arcs;
    return Arcs(inputs, outputs);
  }

  method FindTransition(net: Net, t: string) returns (r: Option<Transition>)
    ensures r.Some? <==> Known(net, t)
    ensures r.Some? ==> exists i :: 0 <= i < |net.transitions| && r.value == net.transitions[i] && r.value.id == t
                                    && forall k :: 0 <= k < i ==> net.transitions[k].id != t
  {
    for i := 0 to |net.transitions|
      invariant forall k :: 0 <= k < i ==> net.transitions[k].id != t
    {
      if net.transitions[i].id == t { return Some(net.transitions[i]); }
    }
    return None;
  }

  datatype EnabledTransition = EnabledTransition(transition: Transition, consumes: seq<string>, produces: seq<string>)

  /** The enabled ones among the first n transitions, in net order. */
  function EnabledList(net: Net, m: Marking, n: nat): seq<EnabledTransition>
    requires n <= |net.transitions|
  {
    if n == 0 then []
    else
      var t := net.transitions[n - 1];
      EnabledList(net, m, n - 1)
      + if Enabled(net, m, t.id) then [EnabledTransition(t, Inputs(net, t.id), Outputs(net, t.id))] else []
  }

  method EnabledTransitions(net: Net, m: Marking) returns (enabled: seq<EnabledTransition>)
    ensures enabled == EnabledList(net, m, |net.transitions|)
  {
    enabled := [];
    for n := 0 to |net.transitions|
      invariant enabled == EnabledList(net, m, n)
    {
      var t := net.transitions[n];
      assert Known(net, t.id);
      var classified := ClassifyArcsForTransition(net, t.id);
      if classified.SelfLoop? { continue; }
      var every := true;
      for i := 0 to |classified.inputs|
        invariant every <==> forall k :: 0 <= k < i ==> TokensAt(m, classified.inputs[k]) >= 1
      {
        every := every && TokensAt(m, classified.inputs[i]) >= 1;
      }
      if every { enabled := enabled + [EnabledTransition(t, classified.inputs, classified.outputs)]; }
    }
  }

  /** The list holds exactly the transitions that may fire, with their own arcs. */
  lemma {:induction false} EnabledListExact(net: Net, m: Marking, n: nat, e: EnabledTransition)
    requires n <= |net.transitions|
    ensures e in EnabledList(net, m, n) <==>
              exists i :: 0 <= i < n && e.transition == net.transitions[i] && Enabled(net, m, e.transition.id)
                && e.consumes == Inputs(net, e.transition.id) && e.produces == Outputs(net, e.transition.id)
  {
    if n > 0 { EnabledListExact(net, m, n - 1, e); }
  }

  // ----- firing -----

  datatype BlockedReason = UnknownTransition | SelfLoopArc | Disabled

  datatype FireResult =
    | Fired(marking: Marking, transition: Transition)
    | Blocked(marking: Marking, reason: BlockedReason, underMarked: seq<string>)

  /** Tokens of p once every input place gave one token and every output arc added one. */
  function AfterFire(m: Marking, inputs: seq<string>, outputs: seq<string>, p: string): nat {
    (if p in inputs then Minus(TokensAt(m, p), 1) else TokensAt(m, p)) + multiset(outputs)[p]
  }

  lemma {:induction false} CountSnoc(s: seq<string>, i: nat, p: string)
    requires i < |s|
    ensures multiset(s[..i + 1])[p] == multiset(s[..i])[p] + if s[i] == p then 1 else 0
    ensures p in s[..i + 1] <==> p in s[..i] || p == s[i]
  {
    assert s[..i + 1] == s[..i] + [s[i]];
  }

  method AddOutputs(start: Marking, outputs: seq<string>) returns (next: Marking)
    ensures forall p :: TokensAt(next, p) == TokensAt(start, p) + multiset(outputs)[p]
    ensures forall p :: p in next ==> p in start || p in outputs
  {
    next := start;
    for i := 0 to |outputs|
      invariant forall p :: p in next ==> p in start || p in outputs
      invariant forall p :: TokensAt(next, p) == TokensAt(start, p) + multiset(outputs[..i])[p]
    {
      forall p { CountSnoc(outputs, i, p); }
      next := next[outputs[i] := TokensAt(next, outputs[i]) + 1];
    }
    assert outputs[..|outputs|] == outputs;
  }

  /** `applyFire` of the firing engine: each input arc reads the marking it was given. */
  method ApplyFire(m: Marking, inputs: seq<string>, outputs: seq<string>) returns (next: Marking)
    ensures forall p :: TokensAt(next, p) == AfterFire(m, inputs, outputs, p)
  {
    var consumed: Marking := m;
    for i := 0 to |inputs|
      invariant forall p :: TokensAt(consumed, p) == if p in inputs[..i] then Minus(TokensAt(m, p), 1) else TokensAt(m, p)
    {
      forall p { CountSnoc(inputs, i, p); }
      consumed := consumed[inputs[i] := Minus(TokensAt(m, inputs[i]), 1)];
    }
    assert inputs[..|inputs|] == inputs;
    next := AddOutputs(consumed, outputs);
  }

  method Fire(net: Net, m: Marking, t: string) returns (r: FireResult)
    ensures r.Fired? <==> Enabled(net, m, t)
    ensures r.Fired? ==> FireStep(net, m, t, r.marking) && r.transition.id == t && r.transition in net.transitions
    ensures r.Blocked? ==> r.marking == m
    ensures r.Blocked? ==> r.reason == if !Known(net, t) then UnknownTransition else if HasSelfLoop(net, t) then SelfLoopArc else Disabled
    ensures r.Blocked? && r.reason == Disabled ==>
              r.underMarked != [] && forall p :: p in r.underMarked <==> p in Inputs(net, t) && TokensAt(m, p) < 1
  {
    var transition := FindTransition(net, t);
    if transition.None? { return Blocked(m, UnknownTransition, []); }
    var classified := ClassifyArcsForTransition(net, t);
    if classified.SelfLoop? { return Blocked(m, SelfLoopArc, []); }
    var underMarked := [];
    for i := 0 to |classified.inputs|
      invariant forall p :: p in underMarked <==> exists k :: 0 <= k < i && p == classified.inputs[k] && TokensAt(m, p) < 1
    {
      if TokensAt(m, classified.inputs[i]) < 1 { underMarked := underMarked + [classified.inputs[i]]; }
    }
    if |underMarked| > 0 {
      assert underMarked[0] in underMarked;
      return Blocked(m, Disabled, underMarked);
    }
    assert forall i :: 0 <= i < |classified.inputs| ==> classified.inputs[i] !in underMarked;
    var next := ApplyFire(m, classified.inputs, classified.outputs);
    return Fired(next, transition.value);
  }

  /** m' is what firing t in m yields, token by token. */
  ghost predicate FireStep(net: Net, m: Marking, t: string, m': Marking) {
    Enabled(net, m, t) && forall p :: TokensAt(m', p) == AfterFire(m, Inputs(net, t), Outputs(net, t), p)
  }

  /** markings[i] leads to markings[i + 1] by firing fired[i]. */
  ghost predicate IsRun(net: Net, markings: seq<Marking>, fired: seq<string>) {
    |markings| == |fired| + 1
    && forall i :: 0 <= i < |fired| ==> FireStep(net, markings[i], fired[i], markings[i + 1])
  }

  function TokenCount(tokens: Tokens): nat {
    match tokens
    case Finite(value) => if value < 0.0 then 0 else value.Floor
    case _ => 0
  }

  /** The last of the first n places with the id of place i is i. */
  predicate LastOfId(net: Net, i: nat, n: nat)
    requires n <= |net.places| && i < |net.places|
  {
    forall k :: i < k < n ==> net.places[k].id != net.places[i].id
  }

  /** The first n places are entered, each id with the tokens of its last declaration. */
  ghost predicate Entered(net: Net, m: Marking, n: nat)
    requires n <= |net.places|
  {
    && m.Keys <= PlaceIds(net)
    && (forall i :: 0 <= i < n ==> net.places[i].id in m)
    && (forall i :: 0 <= i < n && LastOfId(net, i, n) ==> TokensAt(m, net.places[i].id) == TokenCount(net.places[i].tokens))
  }

  lemma {:induction false} EnteredNext(net: Net, m: Marking, n: nat)
    requires n < |net.places| && Entered(net, m, n)
    ensures Entered(net, m[net.places[n].id := TokenCount(net.places[n].tokens)], n + 1)
  {
    var p := net.places[n].id;
    var m' := m[p := TokenCount(net.places[n].tokens)];
    assert net.places[n] in net.places;
    forall i | 0 <= i < n + 1
      ensures net.places[i].id in m'
      ensures LastOfId(net, i, n + 1) ==> TokensAt(m', net.places[i].id) == TokenCount(net.places[i].tokens)
    {
      if i < n && LastOfId(net, i, n + 1) { assert LastOfId(net, i, n) && p != net.places[i].id; }
    }
  }

  method InitialMarking(net: Net) returns (m: Marking)
    ensures m.Keys == PlaceIds(net)
    ensures forall i :: 0 <= i < |net.places| && LastOfId(net, i, |net.places|) ==> TokensAt(m, net.places[i].id) == TokenCount(net.places[i].tokens)
  {
    m := map[];
    for n := 0 to |net.places|
      invariant Entered(net, m, n)
    {
      EnteredNext(net, m, n);
      m := m[net.places[n].id := TokenCount(net.places[n].tokens)];
    }
    forall p | p in PlaceIds(net) ensures p in m {
      var q :| q in net.places && q.id == p;
      var i :| 0 <= i < |net.places| && net.places[i] == q;
    }
  }
}
