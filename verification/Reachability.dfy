/** Bounded breadth-first search over the firing graph, and why its verdict is exact. */
module Reachability {
  import opened PetriNet
  import opened MarkingKeys
  import Text

  /** Tokens of p once the search applied an enabled transition: arcs consume one after the other, clamped at zero. */
  function AfterApply(m: Marking, inputs: seq<string>, outputs: seq<string>, p: string): nat {
    Minus(TokensAt(m, p), multiset(inputs)[p]) + multiset(outputs)[p]
  }

  method ConsumeEach(m: Marking, consumes: seq<string>) returns (next: Marking)
    ensures forall p :: TokensAt(next, p) == Minus(TokensAt(m, p), multiset(consumes)[p])
    ensures forall p :: p in next ==> p in m || p in consumes
  {
    next := m;
    for i := 0 to |consumes|
      invariant forall p :: TokensAt(next, p) == Minus(TokensAt(m, p), multiset(consumes[..i])[p])
      invariant forall p :: p in next ==> p in m || p in consumes
    {
      forall p { CountSnoc(consumes, i, p); }
      next := next[consumes[i] := Minus(TokensAt(next, consumes[i]), 1)];
    }
    assert consumes[..|consumes|] == consumes;
  }

  method ApplyEnabled(m: Marking, e: EnabledTransition) returns (next: Marking)
    ensures forall p :: TokensAt(next, p) == AfterApply(m, e.consumes, e.produces, p)
    ensures forall p :: p in next ==> p in m || p in e.consumes || p in e.produces
  {
    var consumed := ConsumeEach(m, e.consumes);
    next := AddOutputs(consumed, e.produces);
  }

  /** One edge of the graph the search walks. */
  ghost predicate SearchStep(net: Net, m: Marking, t: string, m': Marking) {
    Enabled(net, m, t) && forall p :: TokensAt(m', p) == AfterApply(m, Inputs(net, t), Outputs(net, t), p)
  }

  /**
   * A step of the search is a step of the token game exactly when every place that feeds the
   * transition through several arcs holds a single token.
   */
  lemma {:induction false} StepsAgree(net: Net, t: string, m: Marking, m': Marking)
    requires SearchStep(net, m, t, m')
    ensures FireStep(net, m, t, m') <==>
              forall p :: p in Inputs(net, t) ==> multiset(Inputs(net, t))[p] == 1 || TokensAt(m, p) == 1
  {
    var ins, outs := Inputs(net, t), Outputs(net, t);
    forall p ensures AfterApply(m, ins, outs, p) == AfterFire(m, ins, outs, p) <==>
                       (p in ins ==> multiset(ins)[p] == 1 || TokensAt(m, p) == 1)
    {
      if p in ins {
        var i :| 0 <= i < |ins| && ins[i] == p;
        assert TokensAt(m, ins[i]) >= 1;
      }
    }
  }

  /** Without parallel input arcs the runs of the search are the runs of the token game. */
  lemma {:induction false} SearchRunsFire(net: Net, t: string, m: Marking, m': Marking)
    requires SingleInputs(net, t)
    ensures SearchStep(net, m, t, m') <==> FireStep(net, m, t, m')
  {
    if Enabled(net, m, t) {
      var ins, outs := Inputs(net, t), Outputs(net, t);
      forall p ensures AfterApply(m, ins, outs, p) == AfterFire(m, ins, outs, p) {
        assert p !in ins ==> multiset(ins)[p] == 0;
      }
    }
  }

  // ----- goals and runs -----

  /** The goal looks at token counts only. */
  ghost predicate CountsOnly(goal: Marking -> bool) {
    forall a, b :: SameTokens(a, b) ==> goal(a) == goal(b)
  }

  ghost predicate Within(net: Net, initial: Marking, m: Marking) {
    forall id :: id in m ==> id in PlaceIds(net) || id in initial
  }

  /** Markings of the search with a common key carry the same tokens. */
  ghost predicate KeysTell(net: Net, initial: Marking) {
    forall key, a, b :: IsKey(key, a) && IsKey(key, b) && Within(net, initial, a) && Within(net, initial, b) ==> SameTokens(a, b)
  }

  /** The goal and the keys depend on the tokens, and on nothing else. */
  ghost predicate Faithful(net: Net, initial: Marking, goal: Marking -> bool) {
    CountsOnly(goal) && KeysTell(net, initial)
  }

  /** Keys tell markings apart when no id holds a separator behind a colon and digits. */
  lemma {:induction false} UnbrokenIdsTell(net: Net, initial: Marking)
    requires forall id :: id in PlaceIds(net) || id in initial ==> !Text.Breaks(id)
    ensures KeysTell(net, initial)
  {
    forall key, a, b | IsKey(key, a) && IsKey(key, b) && Within(net, initial, a) && Within(net, initial, b) ensures SameTokens(a, b) {
      KeyInjective(key, a, b);
    }
  }

  lemma {:induction false} SameVerdict(goal: Marking -> bool, a: Marking, b: Marking)
    requires CountsOnly(goal) && SameTokens(a, b)
    ensures goal(a) == goal(b)
  {
  }

  /** c carries the tokens of a marking that k steps of the search lead to. */
  ghost predicate ReachedIn(net: Net, initial: Marking, k: nat, c: Marking) {
    if k == 0 then SameTokens(initial, c)
    else exists b, t :: ReachedIn(net, initial, k - 1, b) && SearchStep(net, b, t, c)
  }

  datatype ReachStep = ReachStep(marking: Marking, firedTransition: string)

  /** The trace is a chain of steps from `initial` to `end`. */
  ghost predicate IsTrace(net: Net, initial: Marking, trace: seq<ReachStep>, end: Marking) {
    if trace == [] then end == initial
    else
      var last := trace[|trace| - 1];
      IsTrace(net, initial, trace[..|trace| - 1], last.marking) && SearchStep(net, last.marking, last.firedTransition, end)
  }

  lemma {:induction false} TraceReaches(net: Net, initial: Marking, trace: seq<ReachStep>, end: Marking)
    requires IsTrace(net, initial, trace, end)
    ensures ReachedIn(net, initial, |trace|, end)
  {
    if trace != [] {
      TraceReaches(net, initial, trace[..|trace| - 1], trace[|trace| - 1].marking);
    }
  }

  // ----- canonical markings -----

  function Canon(m: Marking): (c: Marking) {
    map p | p in m && m[p] > 0 :: m[p]
  }

  lemma {:induction false} CanonTokens(m: Marking)
    ensures SameTokens(Canon(m), m) && Canon(Canon(m)) == Canon(m)
  {
  }

  lemma {:induction false} CanonEqual(a: Marking, b: Marking)
    ensures Canon(a) == Canon(b) <==> SameTokens(a, b)
  {
    CanonTokens(a);
    CanonTokens(b);
    if SameTokens(a, b) {
      forall p ensures (p in Canon(a) <==> p in Canon(b)) && (p in Canon(a) ==> Canon(a)[p] == Canon(b)[p]) {
        assert TokensAt(a, p) == TokensAt(b, p);
      }
      assert Canon(a) == Canon(b);
    }
  }

  lemma {:induction false} StepCongruent(net: Net, a: Marking, b: Marking, t: string, c: Marking, d: Marking)
    requires SameTokens(a, b) && SameTokens(c, d) && SearchStep(net, a, t, c)
    ensures SearchStep(net, b, t, d)
  {
    forall i | 0 <= i < |Inputs(net, t)| ensures TokensAt(b, Inputs(net, t)[i]) >= 1 {
      assert TokensAt(a, Inputs(net, t)[i]) >= 1;
    }
    forall p ensures TokensAt(d, p) == AfterApply(b, Inputs(net, t), Outputs(net, t), p) {
      assert TokensAt(a, p) == TokensAt(b, p) && TokensAt(c, p) == TokensAt(d, p);
    }
  }

  lemma {:induction false} ReachedCongruent(net: Net, initial: Marking, k: nat, c: Marking, d: Marking)
    requires ReachedIn(net, initial, k, c) && SameTokens(c, d)
    ensures ReachedIn(net, initial, k, d)
  {
    if k > 0 {
      var b, t :| ReachedIn(net, initial, k - 1, b) && SearchStep(net, b, t, c);
      StepCongruent(net, b, b, t, c, d);
    }
  }

  // ----- the invariant of the search -----

  /** For each token state seen so far, the depth at which it was found. */
  type Depths = map<Marking, nat>

  ghost predicate Closed(net: Net, seen: Depths, c: Marking)
    requires c in seen
  {
    forall t, d :: SearchStep(net, c, t, d) ==> Canon(d) in seen && seen[Canon(d)] <= seen[c] + 1
  }

  /** Everything shallower than d has its successors recorded. */
  ghost predicate ClosedBelow(net: Net, seen: Depths, d: nat) {
    forall c :: c in seen && seen[c] < d ==> Closed(net, seen, c)
  }

  /** Once everything shallower than d is expanded, whatever at most d steps reach has been seen at its depth. */
  lemma {:induction false} Covered(net: Net, initial: Marking, seen: Depths, d: nat, k: nat, c: Marking)
    requires Canon(initial) in seen && seen[Canon(initial)] == 0 && ClosedBelow(net, seen, d)
    requires k <= d && ReachedIn(net, initial, k, c)
    ensures Canon(c) in seen && seen[Canon(c)] <= k
  {
    if k == 0 {
      CanonEqual(initial, c);
    } else {
      var b, t :| ReachedIn(net, initial, k - 1, b) && SearchStep(net, b, t, c);
      Covered(net, initial, seen, d, k - 1, b);
      CanonTokens(b);
      StepCongruent(net, b, Canon(b), t, c, c);
    }
  }

  datatype Node = Node(marking: Marking, trace: seq<ReachStep>)

  ghost predicate IsNode(net: Net, initial: Marking, n: Node, bound: nat) {
    IsTrace(net, initial, n.trace, n.marking) && |n.trace| <= bound
    && Within(net, initial, n.marking)
  }

  /** What holds of the nodes whatever the ids and the goal are. */
  ghost predicate NodesOk(net: Net, initial: Marking, queue: seq<Node>, bound: nat, depth: nat) {
    && (forall i :: 0 <= i < |queue| ==> IsNode(net, initial, queue[i], bound))
    && (forall i :: 0 <= i < |queue| ==> depth <= |queue[i].trace| <= depth + 1)
    && (forall i, k :: 0 <= i < k < |queue| ==> |queue[i].trace| <= |queue[k].trace|)
  }

  ghost predicate Queued(queue: seq<Node>, c: Marking) {
    exists i :: 0 <= i < |queue| && Canon(queue[i].marking) == c
  }

  /** A canonical state that `depth` steps reach, and that fails the goal. */
  ghost predicate SeenAt(net: Net, initial: Marking, goal: Marking -> bool, c: Marking, depth: nat) {
    Canon(c) == c && ReachedIn(net, initial, depth, c) && !goal(c) && Within(net, initial, c)
  }

  /** Seen states are reachable at their depth and fail the goal. */
  ghost predicate SeenReached(net: Net, initial: Marking, goal: Marking -> bool, seen: Depths) {
    && Canon(initial) in seen && seen[Canon(initial)] == 0
    && forall c :: c in seen ==> SeenAt(net, initial, goal, c, seen[c])
  }

  /** The visited keys are exactly the keys of the seen states. */
  ghost predicate KeysExact(seen: Depths, visited: set<string>) {
    && (forall c, k :: c in seen && IsKey(k, c) ==> k in visited)
    && (forall k :: k in visited ==> exists c :: c in seen && IsKey(k, c))
  }

  ghost predicate SeenOk(net: Net, initial: Marking, goal: Marking -> bool, seen: Depths, visited: set<string>) {
    SeenReached(net, initial, goal, seen) && KeysExact(seen, visited)
  }

  /** Queued nodes are recorded at their depth; a recorded state is queued, expanded, open, or at the bound. */
  ghost predicate Progress(net: Net, queue: seq<Node>, seen: Depths, bound: nat, depth: nat, open: set<Marking>) {
    && (forall i :: 0 <= i < |queue| ==> Canon(queue[i].marking) in seen && seen[Canon(queue[i].marking)] == |queue[i].trace|)
    && (forall c :: c in seen ==> c in open || Queued(queue, c) || seen[c] >= bound || Closed(net, seen, c))
    && (forall c :: c in seen ==> seen[c] <= bound && seen[c] <= depth + 1)
    && (forall c :: c in open && c in seen ==> seen[c] == depth)
  }

  lemma {:induction false} ProgressCloses(net: Net, initial: Marking, queue: seq<Node>, seen: Depths, bound: nat, depth: nat, open: set<Marking>, d: nat)
    requires NodesOk(net, initial, queue, bound, depth) && Progress(net, queue, seen, bound, depth, open)
    requires d <= bound && ((queue == [] && open == {}) || d <= depth)
    ensures ClosedBelow(net, seen, d)
  {
    assert forall i :: 0 <= i < |queue| ==> Canon(queue[i].marking) in seen && seen[Canon(queue[i].marking)] >= depth;
    forall c | c in seen && seen[c] < d ensures Closed(net, seen, c) {
      assert !Queued(queue, c);
    }
  }

  /** No state that at most d steps reach meets the goal. */
  ghost predicate NoneWithin(net: Net, initial: Marking, goal: Marking -> bool, d: nat) {
    forall k: nat, c :: k <= d && ReachedIn(net, initial, k, c) ==> !goal(c)
  }

  lemma {:induction false} SeenExcludesGoal(net: Net, initial: Marking, goal: Marking -> bool, seen: Depths, visited: set<string>, d: nat)
    requires CountsOnly(goal) && SeenOk(net, initial, goal, seen, visited) && ClosedBelow(net, seen, d)
    ensures NoneWithin(net, initial, goal, d)
  {
    forall k: nat, c | k <= d && ReachedIn(net, initial, k, c) ensures !goal(c) {
      Covered(net, initial, seen, d, k, c);
      CanonTokens(c);
      assert SeenAt(net, initial, goal, Canon(c), seen[Canon(c)]);
      SameVerdict(goal, Canon(c), c);
    }
  }

  lemma {:induction false} KeyOfCanon(key: string, m: Marking)
    ensures IsKey(key, m) <==> IsKey(key, Canon(m))
  {
    assert forall entries :: Lists(entries, m) <==> Lists(entries, Canon(m));
  }

  /** A key already visited belongs to a recorded state with the same tokens. */
  lemma {:induction false} VisitedKnown(net: Net, initial: Marking, goal: Marking -> bool, seen: Depths, visited: set<string>, m: Marking, key: string)
    requires KeysTell(net, initial) && SeenOk(net, initial, goal, seen, visited)
    requires IsKey(key, m) && Within(net, initial, m)
    ensures key in visited <==> Canon(m) in seen
  {
    KeyOfCanon(key, m);
    CanonTokens(m);
    if key in visited {
      var c :| c in seen && IsKey(key, c);
      assert SeenAt(net, initial, goal, c, seen[c]);
      CanonEqual(m, c);
    }
  }

  /** Recording a new state keeps what is known of the recorded ones. */
  lemma {:induction false} RecordState(net: Net, initial: Marking, goal: Marking -> bool, seen: Depths, visited: set<string>,
                    m: Marking, key: string, depth: nat)
    requires CountsOnly(goal) && SeenOk(net, initial, goal, seen, visited)
    requires IsKey(key, m) && Within(net, initial, m)
    requires Canon(m) !in seen && !goal(m) && ReachedIn(net, initial, depth, m)
    ensures SeenOk(net, initial, goal, seen[Canon(m) := depth], visited + {key})
  {
    RecordReached(net, initial, goal, seen, m, depth);
    RecordKey(seen, visited, m, key, depth);
  }

  lemma {:induction false} CanonSeen(net: Net, initial: Marking, goal: Marking -> bool, m: Marking, depth: nat)
    requires CountsOnly(goal) && Within(net, initial, m) && !goal(m) && ReachedIn(net, initial, depth, m)
    ensures SeenAt(net, initial, goal, Canon(m), depth)
  {
    CanonTokens(m);
    SameVerdict(goal, Canon(m), m);
    ReachedCongruent(net, initial, depth, m, Canon(m));
  }

  lemma {:induction false} RecordReached(net: Net, initial: Marking, goal: Marking -> bool, seen: Depths, m: Marking, depth: nat)
    requires CountsOnly(goal) && SeenReached(net, initial, goal, seen) && Within(net, initial, m)
    requires Canon(m) !in seen && !goal(m) && ReachedIn(net, initial, depth, m)
    ensures SeenReached(net, initial, goal, seen[Canon(m) := depth])
  {
    CanonSeen(net, initial, goal, m, depth);
  }

  lemma {:induction false} RecordKey(seen: Depths, visited: set<string>, m: Marking, key: string, depth: nat)
    requires KeysExact(seen, visited) && IsKey(key, m)
    ensures KeysExact(seen[Canon(m) := depth], visited + {key})
  {
    CanonTokens(m);
    KeyOfCanon(key, m);
    forall k | IsKey(k, Canon(m)) ensures k == key { KeyCanonical(k, key, Canon(m), m); }
  }

  lemma {:induction false} RecordProgress(net: Net, queue: seq<Node>, seen: Depths, bound: nat, depth: nat, open: set<Marking>, node: Node)
    requires Progress(net, queue, seen, bound, depth, open) && Canon(node.marking) !in seen && |node.trace| == depth + 1 <= bound
    requires forall c :: c in open ==> c in seen
    ensures Progress(net, queue + [node], seen[Canon(node.marking) := depth + 1], bound, depth, open)
  {
    var after, more := queue + [node], seen[Canon(node.marking) := depth + 1];
    assert Canon(after[|queue|].marking) == Canon(node.marking);
    forall c | c in seen && Queued(queue, c) ensures Queued(after, c) {
      var i :| 0 <= i < |queue| && Canon(queue[i].marking) == c;
      assert after[i] == queue[i];
    }
    forall c | c in seen && Closed(net, seen, c) ensures Closed(net, more, c) {
      forall t, d | SearchStep(net, c, t, d) ensures Canon(d) in more && more[Canon(d)] <= more[c] + 1 {}
    }
  }

  /** Every marking that firing t yields is recorded. */
  ghost predicate Handled(net: Net, m: Marking, t: string, seen: Depths) {
    forall d :: SearchStep(net, m, t, d) ==> Canon(d) in seen
  }

  lemma {:induction false} HandledBy(net: Net, m: Marking, t: string, next: Marking, seen: Depths)
    requires SearchStep(net, m, t, next) && Canon(next) in seen
    ensures Handled(net, m, t, seen)
  {
    forall d | SearchStep(net, m, t, d) ensures Canon(d) in seen {
      forall p ensures TokensAt(d, p) == TokensAt(next, p) {}
      CanonEqual(d, next);
    }
  }

  /** Once every enabled transition is handled, the state is expanded. */
  lemma {:induction false} Expanded(net: Net, queue: seq<Node>, seen: Depths, bound: nat, depth: nat, m: Marking)
    requires Canon(m) in seen && seen[Canon(m)] == depth && Progress(net, queue, seen, bound, depth, {Canon(m)})
    requires forall e :: e in EnabledList(net, m, |net.transitions|) ==> Handled(net, m, e.transition.id, seen)
    ensures Progress(net, queue, seen, bound, depth, {})
  {
    CanonTokens(m);
    forall t, d | SearchStep(net, Canon(m), t, d) ensures Canon(d) in seen {
      StepCongruent(net, Canon(m), m, t, d, d);
      var i :| 0 <= i < |net.transitions| && net.transitions[i].id == t;
      var e := EnabledTransition(net.transitions[i], Inputs(net, t), Outputs(net, t));
      EnabledListExact(net, m, |net.transitions|, e);
    }
    assert Closed(net, seen, Canon(m));
  }

  lemma {:induction false} TraceExtends(net: Net, initial: Marking, node: Node, t: string, next: Marking)
    requires IsTrace(net, initial, node.trace, node.marking) && SearchStep(net, node.marking, t, next)
    ensures IsTrace(net, initial, node.trace + [ReachStep(node.marking, t)], next)
    ensures ReachedIn(net, initial, |node.trace| + 1, next)
  {
    var trace := node.trace + [ReachStep(node.marking, t)];
    assert trace[..|trace| - 1] == node.trace;
    TraceReaches(net, initial, trace, next);
  }

  // ----- termination -----

  /** Bounds the nodes a node with `left` remaining steps can still add, itself included. */
  ghost function Weight(width: nat, left: nat): nat {
    if left == 0 then 1 else 1 + width * Weight(width, left - 1)
  }

  ghost function QueueWeight(queue: seq<Node>, width: nat, bound: nat): nat {
    if queue == [] then 0
    else QueueWeight(queue[..|queue| - 1], width, bound)
         + Weight(width, Minus(bound, |queue[|queue| - 1].trace|))
  }

  lemma {:induction false} PopWeight(queue: seq<Node>, width: nat, bound: nat)
    requires queue != []
    ensures QueueWeight(queue, width, bound) == Weight(width, Minus(bound, |queue[0].trace|)) + QueueWeight(queue[1..], width, bound)
  {
    if |queue| > 1 {
      PopWeight(queue[..|queue| - 1], width, bound);
      assert queue[..|queue| - 1][1..] == queue[1..][..|queue| - 2];
    }
  }

  lemma {:induction false} PushWeight(queue: seq<Node>, node: Node, width: nat, bound: nat)
    ensures QueueWeight(queue + [node], width, bound) == QueueWeight(queue, width, bound) + Weight(width, Minus(bound, |node.trace|))
  {
    assert (queue + [node])[..|queue|] == queue;
  }

  lemma {:induction false} PushPays(queue: seq<Node>, node: Node, width: nat, bound: nat, depth: nat)
    requires |node.trace| == depth + 1 <= bound
    ensures QueueWeight(queue + [node], width, bound) == QueueWeight(queue, width, bound) + Weight(width, bound - depth - 1)
  {
    PushWeight(queue, node, width, bound);
    assert Minus(bound, |node.trace|) == bound - depth - 1;
  }

  lemma {:induction false} EnabledListShort(net: Net, m: Marking, n: nat)
    requires n <= |net.transitions|
    ensures |EnabledList(net, m, n)| <= n
  {
    if n > 0 { EnabledListShort(net, m, n - 1); }
  }

  // ----- the search -----

  datatype Bound = NotFinite | Steps(n: int)

  datatype ReachResult = ReachResult(reachable: bool, trace: seq<ReachStep>, explored: nat, maxSteps: nat)

  function Effective(maxSteps: Bound): (n: nat)
    ensures n >= 1
  {
    if maxSteps.NotFinite? || maxSteps.n < 1 then 1 else maxSteps.n
  }

  /** Exactly the token states that at most `bound` steps reach. */
  ghost predicate StatesWithin(net: Net, initial: Marking, bound: nat, states: set<Marking>) {
    forall c :: c in states <==> Canon(c) == c && exists k: nat :: k <= bound && ReachedIn(net, initial, k, c)
  }

  /** The invariant of the search, for goals and ids that the keys can tell apart. */
  ghost predicate Searching(net: Net, initial: Marking, goal: Marking -> bool, queue: seq<Node>, seen: Depths,
                            visited: set<string>, bound: nat, depth: nat, open: set<Marking>, explored: nat)
  {
    Faithful(net, initial, goal) ==>
      SeenOk(net, initial, goal, seen, visited) && Progress(net, queue, seen, bound, depth, open) && explored == |seen|
      && (forall c :: c in open ==> c in seen)
  }

  /** Pushing a state whose key is new. */
  lemma {:induction false} Push(net: Net, initial: Marking, goal: Marking -> bool, queue: seq<Node>, seen: Depths, visited: set<string>,
             bound: nat, depth: nat, open: set<Marking>, explored: nat, node: Node, key: string) returns (more: Depths)
    requires Searching(net, initial, goal, queue, seen, visited, bound, depth, open, explored)
    requires IsKey(key, node.marking) && key !in visited && Within(net, initial, node.marking)
    requires !goal(node.marking) && ReachedIn(net, initial, depth + 1, node.marking) && |node.trace| == depth + 1 <= bound
    ensures more == seen[Canon(node.marking) := depth + 1]
    ensures Searching(net, initial, goal, queue + [node], more, visited + {key}, bound, depth, open, explored + 1)
  {
    more := seen[Canon(node.marking) := depth + 1];
    if Faithful(net, initial, goal) {
      VisitedKnown(net, initial, goal, seen, visited, node.marking, key);
      RecordState(net, initial, goal, seen, visited, node.marking, key, depth + 1);
      RecordProgress(net, queue, seen, bound, depth, open, node);
    }
  }

  /** A goal found while depth is expanded is as near as any. */
  lemma {:induction false} Nearest(net: Net, initial: Marking, goal: Marking -> bool, queue: seq<Node>, seen: Depths, visited: set<string>,
                bound: nat, depth: nat, open: set<Marking>, explored: nat)
    requires Searching(net, initial, goal, queue, seen, visited, bound, depth, open, explored)
    requires NodesOk(net, initial, queue, bound, depth) && depth <= bound
    ensures Faithful(net, initial, goal) ==> NoneWithin(net, initial, goal, depth)
  {
    if Faithful(net, initial, goal) {
      ProgressCloses(net, initial, queue, seen, bound, depth, open, depth);
      SeenExcludesGoal(net, initial, goal, seen, visited, depth);
    }
  }

  /** A search that ran dry has seen every state within the bound, and no goal. */
  lemma {:induction false} Exhausted(net: Net, initial: Marking, goal: Marking -> bool, seen: Depths, visited: set<string>,
                  bound: nat, depth: nat, explored: nat)
    requires Searching(net, initial, goal, [], seen, visited, bound, depth, {}, explored)
    ensures Faithful(net, initial, goal) ==>
              NoneWithin(net, initial, goal, bound)
              && exists states :: StatesWithin(net, initial, bound, states) && explored == |states|
  {
    if Faithful(net, initial, goal) {
      ProgressCloses(net, initial, [], seen, bound, depth, {}, bound);
      SeenExcludesGoal(net, initial, goal, seen, visited, bound);
      SeenIsExact(net, initial, goal, seen, visited, bound);
    }
  }

  /** Handling the successor through one enabled transition; `found` carries a trace to the goal. */
  method Visit(net: Net, initial: Marking, goal: Marking -> bool, node: Node, e: EnabledTransition, queue: seq<Node>,
               visited: set<string>, explored: nat, ghost seen: Depths, ghost bound: nat)
    returns (found: bool, nextNode: Node, unseen: bool, key: string, ghost more: Depths)
    requires IsNode(net, initial, node, bound) && |node.trace| < bound
    requires e in EnabledList(net, node.marking, |net.transitions|)
    requires NodesOk(net, initial, queue, bound, |node.trace|)
    requires Searching(net, initial, goal, queue, seen, visited, bound, |node.trace|, {Canon(node.marking)}, explored)
    ensures IsNode(net, initial, nextNode, bound) && |nextNode.trace| == |node.trace| + 1
    ensures unseen <==> key !in visited
    ensures found <==> unseen && goal(nextNode.marking)
    ensures IsKey(key, nextNode.marking)
    ensures found && Faithful(net, initial, goal) ==> NoneWithin(net, initial, goal, |node.trace|)
    ensures !found && unseen ==>
              Searching(net, initial, goal, queue + [nextNode], more, visited + {key}, bound, |node.trace|, {Canon(node.marking)}, explored + 1)
    ensures !unseen ==> more == seen
    ensures !found && Faithful(net, initial, goal) ==>
              Handled(net, node.marking, e.transition.id, more) && seen.Keys <= more.Keys
  {
    var t := e.transition.id;
    EnabledListExact(net, node.marking, |net.transitions|, e);
    ArcPlaces(net.arcs, PlaceIds(net), t);
    var next := ApplyEnabled(node.marking, e);
    key := MarkingKey(next);
    TraceExtends(net, initial, node, t, next);
    nextNode := Node(next, node.trace + [ReachStep(node.marking, t)]);
    found, unseen, more := false, key !in visited, seen;
    if Faithful(net, initial, goal) {
      VisitedKnown(net, initial, goal, seen, visited, next, key);
    }
    if unseen && goal(next) {
      found := true;
      Nearest(net, initial, goal, queue, seen, visited, bound, |node.trace|, {Canon(node.marking)}, explored);
    } else {
      if unseen {
        more := Push(net, initial, goal, queue, seen, visited, bound, |node.trace|, {Canon(node.marking)}, explored, nextNode, key);
      }
      if Faithful(net, initial, goal) { HandledBy(net, node.marking, t, next, more); }
    }
  }

  /** The trace leads to a marking that meets the goal and whose key was not visited before. */
  ghost predicate HitsGoal(net: Net, initial: Marking, goal: Marking -> bool, trace: seq<ReachStep>, visited: set<string>) {
    exists end, key :: IsTrace(net, initial, trace, end) && goal(end) && IsKey(key, end) && key !in visited
  }

  /** Nothing was queued, or one node of the next depth. */
  ghost predicate Grown(queue: seq<Node>, more: seq<Node>, depth: nat) {
    more == queue || exists n :: more == queue + [n] && |n.trace| == depth + 1
  }

  /** One successor of a node: a hit, or queued when its key is new. */
  method Follow(net: Net, initial: Marking, goal: Marking -> bool, node: Node, e: EnabledTransition, queue: seq<Node>,
                visited: set<string>, explored: nat, ghost seen: Depths, ghost bound: nat)
    returns (found: bool, trace: seq<ReachStep>, queue': seq<Node>, visited': set<string>, explored': nat, ghost more: Depths)
    requires IsNode(net, initial, node, bound) && |node.trace| < bound
    requires e in EnabledList(net, node.marking, |net.transitions|)
    requires NodesOk(net, initial, queue, bound, |node.trace|)
    requires Searching(net, initial, goal, queue, seen, visited, bound, |node.trace|, {Canon(node.marking)}, explored)
    ensures found ==> |trace| == |node.trace| + 1 && HitsGoal(net, initial, goal, trace, visited)
    ensures found && Faithful(net, initial, goal) ==> NoneWithin(net, initial, goal, |node.trace|)
    ensures !found ==> NodesOk(net, initial, queue', bound, |node.trace|)
    ensures !found ==> Searching(net, initial, goal, queue', more, visited', bound, |node.trace|, {Canon(node.marking)}, explored')
    ensures !found && Faithful(net, initial, goal) ==>
              Handled(net, node.marking, e.transition.id, more) && seen.Keys <= more.Keys
    ensures visited <= visited' && Grown(queue, queue', |node.trace|)
  {
    var nextNode, unseen, key;
    found, nextNode, unseen, key, more := Visit(net, initial, goal, node, e, queue, visited, explored, seen, bound);
    if found {
      assert IsTrace(net, initial, nextNode.trace, nextNode.marking);
      return true, nextNode.trace, queue, visited, explored + 1, more;
    }
    if unseen {
      PushNode(net, initial, queue, bound, |node.trace|, nextNode);
      return false, [], queue + [nextNode], visited + {key}, explored + 1, more;
    }
    return false, [], queue, visited, explored, more;
  }

  /** The inner loop: the successors of one node, in net order, until one meets the goal. */
  method ExpandNode(net: Net, initial: Marking, goal: Marking -> bool, node: Node, queue: seq<Node>, visited: set<string>,
                    explored: nat, ghost seen: Depths, ghost bound: nat)
    returns (found: bool, trace: seq<ReachStep>, queue': seq<Node>, visited': set<string>, explored': nat, ghost seen': Depths)
    requires IsNode(net, initial, node, bound) && |node.trace| < bound && NodesOk(net, initial, queue, bound, |node.trace|)
    requires Searching(net, initial, goal, queue, seen, visited, bound, |node.trace|, {Canon(node.marking)}, explored)
    ensures found ==> |trace| == |node.trace| + 1 && HitsGoal(net, initial, goal, trace, visited)
    ensures found && Faithful(net, initial, goal) ==> NoneWithin(net, initial, goal, |node.trace|)
    ensures !found ==> NodesOk(net, initial, queue', bound, |node.trace|)
    ensures !found ==> Searching(net, initial, goal, queue', seen', visited', bound, |node.trace|, {}, explored')
    ensures visited <= visited' && GrownBy(queue, queue', |node.trace|, |net.transitions|)
  {
    trace, queue', visited', explored', seen' := [], queue, visited, explored, seen;
    var enabled := EnabledTransitions(net, node.marking);
    EnabledListShort(net, node.marking, |net.transitions|);
    NotGrown(queue, |node.trace|);
    for i := 0 to |enabled|
      invariant NodesOk(net, initial, queue', bound, |node.trace|)
      invariant Searching(net, initial, goal, queue', seen', visited', bound, |node.trace|, {Canon(node.marking)}, explored')
      invariant Faithful(net, initial, goal) ==> HandledUpTo(net, node.marking, enabled, i, seen')
      invariant visited <= visited' && GrownBy(queue, queue', |node.trace|, i)
    {
      ghost var now, known, before := queue', visited', seen';
      found, trace, queue', visited', explored', seen' :=
        Follow(net, initial, goal, node, enabled[i], queue', visited', explored', seen', bound);
      GrownNext(queue, now, queue', |node.trace|, i);
      GrownMore(queue, queue', |node.trace|, i + 1, |net.transitions|);
      if found {
        HitsEarlier(net, initial, goal, trace, visited, known);
        return;
      }
      if Faithful(net, initial, goal) { HandledNext(net, node.marking, enabled, i, before, seen'); }
    }
    found := false;
    GrownMore(queue, queue', |node.trace|, |enabled|, |net.transitions|);
    Finish(net, initial, goal, queue', seen', visited', bound, |node.trace|, explored', node.marking, enabled);
  }

  lemma {:induction false} HitsEarlier(net: Net, initial: Marking, goal: Marking -> bool, trace: seq<ReachStep>, visited: set<string>, more: set<string>)
    requires HitsGoal(net, initial, goal, trace, more) && visited <= more
    ensures HitsGoal(net, initial, goal, trace, visited)
  {
    var end, key :| IsTrace(net, initial, trace, end) && goal(end) && IsKey(key, end) && key !in more;
    assert key !in visited;
  }

  /** The first i enabled transitions are handled. */
  ghost predicate HandledUpTo(net: Net, m: Marking, enabled: seq<EnabledTransition>, i: nat, seen: Depths) {
    i <= |enabled| && forall k :: 0 <= k < i ==> Handled(net, m, enabled[k].transition.id, seen)
  }

  lemma {:induction false} HandledStill(net: Net, m: Marking, t: string, seen: Depths, more: Depths)
    requires Handled(net, m, t, seen) && seen.Keys <= more.Keys
    ensures Handled(net, m, t, more)
  {
    forall d | SearchStep(net, m, t, d) ensures Canon(d) in more { assert Canon(d) in seen.Keys; }
  }

  lemma {:induction false} HandledNext(net: Net, m: Marking, enabled: seq<EnabledTransition>, i: nat, seen: Depths, more: Depths)
    requires HandledUpTo(net, m, enabled, i, seen) && i < |enabled|
    requires Handled(net, m, enabled[i].transition.id, more) && seen.Keys <= more.Keys
    ensures HandledUpTo(net, m, enabled, i + 1, more)
  {
    forall k | 0 <= k < i ensures Handled(net, m, enabled[k].transition.id, more) { HandledStill(net, m, enabled[k].transition.id, seen, more); }
  }

  lemma {:induction false} PushNode(net: Net, initial: Marking, queue: seq<Node>, bound: nat, depth: nat, node: Node)
    requires NodesOk(net, initial, queue, bound, depth) && IsNode(net, initial, node, bound) && |node.trace| == depth + 1
    ensures NodesOk(net, initial, queue + [node], bound, depth)
  {
  }

  /** At most n nodes of the next depth were queued. */
  ghost predicate GrownBy(queue: seq<Node>, more: seq<Node>, depth: nat, n: nat) {
    |queue| <= |more| <= |queue| + n && more[..|queue|] == queue
    && forall i :: |queue| <= i < |more| ==> |more[i].trace| == depth + 1
  }

  lemma {:induction false} NotGrown(queue: seq<Node>, depth: nat)
    ensures GrownBy(queue, queue, depth, 0)
  {
  }

  lemma {:induction false} GrownNext(queue: seq<Node>, now: seq<Node>, more: seq<Node>, depth: nat, n: nat)
    requires GrownBy(queue, now, depth, n) && Grown(now, more, depth)
    ensures GrownBy(queue, more, depth, n + 1)
  {
    if more != now {
      var node :| more == now + [node] && |node.trace| == depth + 1;
      assert more[..|queue|] == now[..|queue|];
    }
  }

  lemma {:induction false} GrownMore(queue: seq<Node>, more: seq<Node>, depth: nat, n: nat, k: nat)
    requires GrownBy(queue, more, depth, n) && n <= k
    ensures GrownBy(queue, more, depth, k)
  {
  }

  /** What the new nodes weigh. */
  lemma {:induction false} GrownWeight(queue: seq<Node>, more: seq<Node>, depth: nat, n: nat, width: nat, bound: nat)
    requires GrownBy(queue, more, depth, n) && depth < bound
    ensures QueueWeight(more, width, bound) <= QueueWeight(queue, width, bound) + n * Weight(width, bound - depth - 1)
    decreases |more|
  {
    if |more| == |queue| {
      assert more == queue;
    } else {
      var front, node := more[..|more| - 1], more[|more| - 1];
      assert front[..|queue|] == queue && more == front + [node];
      GrownWeight(queue, front, depth, n - 1, width, bound);
      PushPays(front, node, width, bound, depth);
      OneMore(n, Weight(width, bound - depth - 1));
    }
  }

  lemma {:induction false} OneMore(n: nat, x: nat)
    requires n > 0
    ensures (n - 1) * x + x == n * x
  {
  }

  ghost predicate SharedKey(a: Marking, b: Marking) {
    exists k :: IsKey(k, a) && IsKey(k, b)
  }

  /** A trace within the bound that leads to the goal, and away from the key of the initial marking. */
  ghost predicate GenuineHit(net: Net, initial: Marking, goal: Marking -> bool, r: ReachResult) {
    exists end :: IsTrace(net, initial, r.trace, end) && goal(end) && |r.trace| <= r.maxSteps && (r.trace != [] ==> !SharedKey(initial, end))
  }

  lemma {:induction false} HitIsGenuine(net: Net, initial: Marking, goal: Marking -> bool, r: ReachResult, visited: set<string>, initialKey: string)
    requires HitsGoal(net, initial, goal, r.trace, visited) && |r.trace| <= r.maxSteps
    requires IsKey(initialKey, initial) && initialKey in visited
    ensures GenuineHit(net, initial, goal, r)
  {
    var end, key :| IsTrace(net, initial, r.trace, end) && goal(end) && IsKey(key, end) && key !in visited;
    if SharedKey(initial, end) {
      var k :| IsKey(k, initial) && IsKey(k, end);
      KeyCanonical(k, initialKey, initial, initial);
      KeyCanonical(k, key, end, end);
    }
  }

  /** A node and what it queues weigh more than what it queues. */
  lemma {:induction false} ExpansionPays(queue: seq<Node>, more: seq<Node>, width: nat, bound: nat)
    requires queue != [] && |queue[0].trace| < bound && GrownBy(queue[1..], more, |queue[0].trace|, width)
    ensures QueueWeight(more, width, bound) < QueueWeight(queue, width, bound)
  {
    PopWeight(queue, width, bound);
    GrownWeight(queue[1..], more, |queue[0].trace|, width, width, bound);
  }

  lemma {:induction false} RestWeighsLess(queue: seq<Node>, width: nat, bound: nat)
    requires queue != []
    ensures QueueWeight(queue[1..], width, bound) < QueueWeight(queue, width, bound)
  {
    PopWeight(queue, width, bound);
  }

  /**
   * The search. A positive verdict always carries a genuine trace; for a goal on token counts and
   * keys that tell states apart, no shorter run meets the goal, and a negative verdict means that no
   * run within the bound does, `explored` being the number of token states within it.
   */
  method Reachable(net: Net, initial: Marking, goal: Marking -> bool, maxSteps: Bound) returns (r: ReachResult)
    ensures r.maxSteps == Effective(maxSteps)
    ensures r.reachable ==> GenuineHit(net, initial, goal, r)
    ensures !r.reachable ==> r.trace == []
    ensures Faithful(net, initial, goal) && r.reachable ==> |r.trace| == 0 || NoneWithin(net, initial, goal, |r.trace| - 1)
    ensures Faithful(net, initial, goal) && !r.reachable ==>
              NoneWithin(net, initial, goal, r.maxSteps)
              && exists states :: StatesWithin(net, initial, r.maxSteps, states) && r.explored == |states|
  {
    var bound := Effective(maxSteps);
    if goal(initial) {
      assert IsTrace(net, initial, [], initial);
      return ReachResult(true, [], 1, bound);
    }
    var initialKey := MarkingKey(initial);
    var visited := {initialKey};
    var queue := [Node(initial, [])];
    var explored: nat := 1;
    ghost var seen: Depths := map[Canon(initial) := 0];
    ghost var depth: nat := 0;
    StartOk(net, initial, goal, initialKey, bound);
    while |queue| > 0
      invariant NodesOk(net, initial, queue, bound, depth) && initialKey in visited
      invariant Searching(net, initial, goal, queue, seen, visited, bound, depth, {}, explored)
      decreases QueueWeight(queue, |net.transitions|, bound)
    {
      var node := queue[0];
      ghost var before := queue;
      Pop(net, initial, goal, queue, seen, visited, bound, depth, explored);
      RestWeighsLess(queue, |net.transitions|, bound);
      queue := queue[1..];
      depth := |node.trace|;
      if |node.trace| >= bound { continue; }
      var found, trace;
      ghost var more, known := seen, visited;
      found, trace, queue, visited, explored, more := ExpandNode(net, initial, goal, node, queue, visited, explored, seen, bound);
      if found {
        r := ReachResult(true, trace, explored, bound);
        HitIsGenuine(net, initial, goal, r, known, initialKey);
        return;
      }
      ExpansionPays(before, queue, |net.transitions|, bound);
      seen := more;
    }
    Exhausted(net, initial, goal, seen, visited, bound, depth, explored);
    return ReachResult(false, [], explored, bound);
  }

  /** Taking the first node makes its state the open one; a node at the bound needs no expansion. */
  lemma {:induction false} Pop(net: Net, initial: Marking, goal: Marking -> bool, queue: seq<Node>, seen: Depths, visited: set<string>,
            bound: nat, depth: nat, explored: nat)
    requires queue != [] && NodesOk(net, initial, queue, bound, depth)
    requires Searching(net, initial, goal, queue, seen, visited, bound, depth, {}, explored)
    ensures NodesOk(net, initial, queue[1..], bound, |queue[0].trace|)
    ensures Searching(net, initial, goal, queue[1..], seen, visited, bound, |queue[0].trace|, {Canon(queue[0].marking)}, explored)
    ensures |queue[0].trace| >= bound ==> Searching(net, initial, goal, queue[1..], seen, visited, bound, |queue[0].trace|, {}, explored)
  {
    if Faithful(net, initial, goal) { PopProgress(net, queue, seen, bound, depth); }
  }

  lemma {:induction false} PopProgress(net: Net, queue: seq<Node>, seen: Depths, bound: nat, depth: nat)
    requires queue != [] && Progress(net, queue, seen, bound, depth, {}) && depth <= |queue[0].trace|
    ensures Progress(net, queue[1..], seen, bound, |queue[0].trace|, {Canon(queue[0].marking)})
    ensures |queue[0].trace| >= bound ==> Progress(net, queue[1..], seen, bound, |queue[0].trace|, {})
  {
    forall c | Queued(queue, c) ensures c == Canon(queue[0].marking) || Queued(queue[1..], c) {
      var i :| 0 <= i < |queue| && Canon(queue[i].marking) == c;
      assert i > 0 ==> queue[1..][i - 1] == queue[i];
    }
  }

  lemma {:induction false} Finish(net: Net, initial: Marking, goal: Marking -> bool, queue: seq<Node>, seen: Depths, visited: set<string>,
               bound: nat, depth: nat, explored: nat, m: Marking, enabled: seq<EnabledTransition>)
    requires Searching(net, initial, goal, queue, seen, visited, bound, depth, {Canon(m)}, explored)
    requires enabled == EnabledList(net, m, |net.transitions|)
    requires Faithful(net, initial, goal) ==> HandledUpTo(net, m, enabled, |enabled|, seen)
    ensures Searching(net, initial, goal, queue, seen, visited, bound, depth, {}, explored)
  {
    if Faithful(net, initial, goal) {
      assert Canon(m) in {Canon(m)};
      Expanded(net, queue, seen, bound, depth, m);
    }
  }

  lemma {:induction false} SeenIsExact(net: Net, initial: Marking, goal: Marking -> bool, seen: Depths, visited: set<string>, bound: nat)
    requires SeenOk(net, initial, goal, seen, visited) && ClosedBelow(net, seen, bound)
    requires forall c :: c in seen ==> seen[c] <= bound
    ensures StatesWithin(net, initial, bound, seen.Keys) && |seen.Keys| == |seen|
  {
    forall c | Canon(c) == c && exists k: nat :: k <= bound && ReachedIn(net, initial, k, c) ensures c in seen {
      var k: nat :| k <= bound && ReachedIn(net, initial, k, c);
      Covered(net, initial, seen, bound, k, c);
    }
  }

  lemma {:induction false} StartOk(net: Net, initial: Marking, goal: Marking -> bool, key: string, bound: nat)
    requires IsKey(key, initial) && !goal(initial)
    ensures Searching(net, initial, goal, [Node(initial, [])], map[Canon(initial) := 0], {key}, bound, 0, {}, 1)
  {
    CanonTokens(initial);
    KeyOfCanon(key, initial);
    forall k | IsKey(k, Canon(initial)) ensures k == key { KeyCanonical(k, key, Canon(initial), initial); }
    assert Canon([Node(initial, [])][0].marking) == Canon(initial);
  }

  // ----- the verdict in terms of the token game -----

  ghost predicate NoParallelInputs(net: Net) {
    forall t :: Known(net, t) ==> SingleInputs(net, t)
  }

  /** A firing sequence of the token game from `initial`, k fires long, that ends with the tokens of c. */
  ghost predicate FiresTo(net: Net, initial: Marking, markings: seq<Marking>, fired: seq<string>, k: nat, c: Marking) {
    IsRun(net, markings, fired) && |fired| == k && markings[0] == initial && SameTokens(markings[k], c)
  }

  lemma {:induction false} FiresOnce(net: Net, initial: Marking, markings: seq<Marking>, fired: seq<string>, k: nat, b: Marking, t: string, c: Marking)
    requires NoParallelInputs(net) && FiresTo(net, initial, markings, fired, k, b) && SearchStep(net, b, t, c)
    ensures FiresTo(net, initial, markings + [c], fired + [t], k + 1, c)
  {
    StepCongruent(net, b, markings[k], t, c, c);
    SearchRunsFire(net, t, markings[k], c);
    RunExtends(net, markings, fired, t, c);
  }

  lemma {:induction false} ReachedFires(net: Net, initial: Marking, k: nat, c: Marking) returns (markings: seq<Marking>, fired: seq<string>)
    requires NoParallelInputs(net) && ReachedIn(net, initial, k, c)
    ensures FiresTo(net, initial, markings, fired, k, c)
  {
    if k == 0 {
      markings, fired := [initial], [];
    } else {
      var b, t :| ReachedIn(net, initial, k - 1, b) && SearchStep(net, b, t, c);
      markings, fired := ReachedFires(net, initial, k - 1, b);
      FiresOnce(net, initial, markings, fired, k - 1, b, t, c);
      markings, fired := markings + [c], fired + [t];
    }
  }

  lemma {:induction false} RunExtends(net: Net, markings: seq<Marking>, fired: seq<string>, t: string, c: Marking)
    requires IsRun(net, markings, fired) && FireStep(net, markings[|fired|], t, c)
    ensures IsRun(net, markings + [c], fired + [t])
  {
    var ms, ts := markings + [c], fired + [t];
    forall i | 0 <= i < |ts| ensures FireStep(net, ms[i], ts[i], ms[i + 1]) {
      assert i < |fired| ==> ms[i + 1] == markings[i + 1];
    }
  }

  lemma {:induction false} FiresReached(net: Net, initial: Marking, markings: seq<Marking>, fired: seq<string>, k: nat, c: Marking)
    requires NoParallelInputs(net) && FiresTo(net, initial, markings, fired, k, c)
    ensures ReachedIn(net, initial, k, c)
  {
    if k > 0 {
      var b, t := markings[k - 1], fired[k - 1];
      assert forall i :: 0 <= i < k - 1 ==> FireStep(net, markings[..k][i], fired[..k - 1][i], markings[..k][i + 1]);
      FiresReached(net, initial, markings[..k], fired[..k - 1], k - 1, b);
      SearchRunsFire(net, t, b, markings[k]);
      StepCongruent(net, b, b, t, markings[k], c);
    }
  }

  /**
   * For nets without parallel input arcs a negative verdict of the search is a statement about the
   * token game: no firing sequence of at most d fires ends in a marking that meets the goal.
   */
  lemma {:induction false} VerdictIsAboutFiring(net: Net, initial: Marking, goal: Marking -> bool, d: nat)
    requires NoParallelInputs(net) && CountsOnly(goal)
    ensures NoneWithin(net, initial, goal, d) <==>
              forall markings, fired :: IsRun(net, markings, fired) && markings[0] == initial && |fired| <= d ==> !goal(markings[|fired|])
  {
    if NoneWithin(net, initial, goal, d) {
      forall markings, fired | IsRun(net, markings, fired) && markings[0] == initial && |fired| <= d ensures !goal(markings[|fired|]) {
        FiresReached(net, initial, markings, fired, |fired|, markings[|fired|]);
      }
    }
    if forall markings, fired :: IsRun(net, markings, fired) && markings[0] == initial && |fired| <= d ==> !goal(markings[|fired|]) {
      forall k: nat, c | k <= d && ReachedIn(net, initial, k, c) ensures !goal(c) {
        var markings, fired := ReachedFires(net, initial, k, c);
        assert !goal(markings[|fired|]);
      }
    }
  }

  /** The trace of a positive verdict is a firing sequence of the token game. */
  lemma {:induction false} TraceFires(net: Net, initial: Marking, trace: seq<ReachStep>, end: Marking)
    requires NoParallelInputs(net) && IsTrace(net, initial, trace, end)
    ensures IsRun(net, TraceMarkings(trace) + [end], TraceFired(trace)) && (TraceMarkings(trace) + [end])[0] == initial
  {
    if trace != [] {
      var front, last := trace[..|trace| - 1], trace[|trace| - 1];
      TraceFires(net, initial, front, last.marking);
      SearchRunsFire(net, last.firedTransition, last.marking, end);
      var before, after := TraceMarkings(front) + [last.marking], TraceMarkings(trace) + [end];
      assert before == TraceMarkings(trace);
      assert TraceFired(trace) == TraceFired(front) + [last.firedTransition];
      assert forall i :: 0 <= i < |before| ==> after[i] == before[i];
    }
  }

  function TraceMarkings(trace: seq<ReachStep>): (m: seq<Marking>)
    ensures |m| == |trace|
  {
    seq(|trace|, i requires 0 <= i < |trace| => trace[i].marking)
  }

  function TraceFired(trace: seq<ReachStep>): (f: seq<string>)
    ensures |f| == |trace|
  {
    seq(|trace|, i requires 0 <= i < |trace| => trace[i].firedTransition)
  }
}
