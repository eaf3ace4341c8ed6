/** What compaction guarantees about a whole transcript, for every limit and every goal. */
module CompactionSafety {
  import opened Transcript
  import opened Compaction

  // ----- selected messages -----

  lemma {:induction false} ExtractedFrom(ms: seq<Message>, selected: set<nat>, i: nat, m: Message) returns (q: nat)
    requires i <= |ms| && m in Extract(ms, selected, i)
    ensures i <= q < |ms| && q in selected && m == ms[q]
    decreases |ms| - i
  {
    if i in selected && m == ms[i] { q := i; } else { q := ExtractedFrom(ms, selected, i + 1, m); }
  }

  lemma {:induction false} Extracted(ms: seq<Message>, selected: set<nat>, i: nat, k: nat)
    requires i <= k < |ms| && k in selected
    ensures ms[k] in Extract(ms, selected, i)
    decreases |ms| - i
  {
    if i < k { Extracted(ms, selected, i + 1, k); }
  }

  lemma {:induction false} ExtractUnmarked(ms: seq<Message>, selected: set<nat>)
    requires !HasMarker(ms)
    ensures !HasMarker(Extract(ms, selected, 0))
  {
    var r := Extract(ms, selected, 0);
    forall k | 0 <= k < |r| ensures !IsMarker(r[k]) {
      var q := ExtractedFrom(ms, selected, 0, r[k]);
    }
  }

  lemma {:induction false} ExtractAll(ms: seq<Message>, selected: set<nat>, i: nat)
    requires i <= |ms| && forall k: nat :: i <= k < |ms| ==> k in selected
    ensures Extract(ms, selected, i) == ms[i..]
    decreases |ms| - i
  {
    if i < |ms| { ExtractAll(ms, selected, i + 1); }
  }

  // ----- the shape of the result -----

  function WithMarker(retained: seq<Message>, dropped: nat): seq<Message> {
    Inserted(retained, SystemIndex(retained, 0) + 1, Marker(dropped))
  }

  lemma {:induction false} RetainedBounds(ms: seq<Message>, limit: nat, goal: Message)
    requires limit >= 1
    ensures var slots := Slots(Core(ms), Dropped(ms), limit, goal); |Retained(ms, limit, goal)| + slots <= limit
    ensures |Retained(ms, limit, goal)| <= |Core(ms)| && !HasMarker(Retained(ms, limit, goal))
  {
    var core := Core(ms);
    var slots := Slots(core, Dropped(ms), limit, goal);
    SelectBounds(core, limit, goal, slots);
    RequiredBounds(core, limit, goal);
    CountBounds(Select(core, limit, goal, slots), 0, |core|);
    ExtractUnmarked(core, Select(core, limit, goal, slots));
  }

  lemma {:induction false} ExtractParts(ms: seq<Message>, selected: set<nat>, i: nat, s: nat) returns (a: seq<Message>, b: seq<Message>)
    requires i <= s < |ms| && s in selected
    ensures Extract(ms, selected, i) == a + [ms[s]] + b
    ensures forall m :: m in a ==> exists q :: i <= q < s && ms[q] == m
    decreases s - i
  {
    if i == s {
      a, b := [], Extract(ms, selected, i + 1);
    } else {
      a, b := ExtractParts(ms, selected, i + 1, s);
      if i in selected {
        assert [ms[i]] + (a + [ms[s]] + b) == ([ms[i]] + a) + [ms[s]] + b;
        a := [ms[i]] + a;
      }
    }
  }

  lemma {:induction false} FirstSystem(a: seq<Message>, m: Message, b: seq<Message>)
    requires m.System? && forall k :: 0 <= k < |a| ==> !a[k].System?
    ensures SystemIndex(a + [m] + b, 0) == |a| && IndexOf(a + [m] + b, m, 0) == |a|
  {
    var r := a + [m] + b;
    assert r[|a|] == m && forall k :: 0 <= k < |a| ==> r[k] == a[k];
  }

  /** The first system message, when it is selected, is the first of the retained ones. */
  lemma {:induction false} SystemExtracted(core: seq<Message>, selected: set<nat>, s: nat)
    requires s < |core| && SystemIndex(core, 0) == s && s in selected
    ensures var r := Extract(core, selected, 0); SystemIndex(r, 0) >= 0 && IndexOf(r, core[s], 0) == SystemIndex(r, 0)
  {
    var a, b := ExtractParts(core, selected, 0, s);
    forall k | 0 <= k < |a| ensures !a[k].System? {
      assert a[k] in a;
    }
    FirstSystem(a, core[s], b);
  }

  lemma {:induction false} NoSystem(core: seq<Message>, selected: set<nat>)
    requires SystemIndex(core, 0) < 0
    ensures SystemIndex(Extract(core, selected, 0), 0) < 0
  {
    var r := Extract(core, selected, 0);
    forall k | 0 <= k < |r| ensures !r[k].System? {
      var q := ExtractedFrom(core, selected, 0, r[k]);
    }
  }

  /** With room for a marker, the first system message is among the required ones. */
  lemma {:induction false} SystemRequired(core: seq<Message>, limit: nat, goal: Message)
    requires SystemIndex(core, 0) >= 0 && limit >= 1
    requires |Required(core, limit, goal)| < limit || limit >= 2 || IndexOf(core, goal, 0) < 0
    ensures SystemIndex(core, 0) in Required(core, limit, goal)
  {
    UnitsApart(core, 0);
    CardUp(BaseRequired(core, limit, goal), Required(core, limit, goal));
  }

  lemma {:induction false} CardUp(a: set<nat>, b: set<nat>)
    requires a <= b
    ensures |a| <= |b|
  {
    assert b == a + (b - a);
  }

  /** The marker goes behind the first retained system message. */
  lemma {:induction false} PlaceInRetained(ms: seq<Message>, limit: nat, goal: Message)
    requires limit >= 1 && Slots(Core(ms), Dropped(ms), limit, goal) == 1
    ensures MarkerPlace(Core(ms), Retained(ms, limit, goal)) == SystemIndex(Retained(ms, limit, goal), 0) + 1
  {
    var core := Core(ms);
    var selected := Select(core, limit, goal, 1);
    var s := SystemIndex(core, 0);
    if s < 0 {
      NoSystem(core, selected);
    } else {
      SystemRequired(core, limit, goal);
      SystemExtracted(core, selected, s);
    }
  }

  lemma {:induction false} WindowShape(core: seq<Message>, retained: seq<Message>, dropped: int, slots: nat, limit: nat)
    requires |retained| + (if dropped > 0 && slots != 0 then 1 else 0) <= limit
    requires dropped > 0 && slots != 0 ==> MarkerPlace(core, retained) == SystemIndex(retained, 0) + 1
    ensures Window(core, retained, dropped, slots, limit) == if dropped > 0 && slots != 0 then WithMarker(retained, dropped) else retained
  {
  }

  /** A window is the retained messages, with at most a marker behind the first system message. */
  lemma {:induction false} CompactShape(ms: seq<Message>, limit: nat, goal: Message)
    requires limit >= 1
    ensures var retained := Retained(ms, limit, goal);
            Compact(ms, limit, goal) == if Marks(ms, limit, goal) then WithMarker(retained, DroppedBy(ms, limit, goal)) else retained
  {
    RetainedBounds(ms, limit, goal);
    if Marks(ms, limit, goal) { PlaceInRetained(ms, limit, goal); }
    WindowShape(Core(ms), Retained(ms, limit, goal), DroppedBy(ms, limit, goal), Slots(Core(ms), Dropped(ms), limit, goal), limit);
  }

  lemma {:induction false} MarkedParts(a: seq<Message>, m: Message, b: seq<Message>)
    requires !HasMarker(a) && !HasMarker(b) && IsMarker(m)
    ensures Core(a + [m] + b) == a + b && Dropped(a + [m] + b) == MarkerCount(m)
  {
    CoreAppend(a + [m], b);
    CoreAppend(a, [m]);
    CoreOfMarker(m);
    assert a + [] == a;
    assert Core(a) == a && Dropped(a) == 0 by { CoreUnmarked(a); }
    assert Core(b) == b && Dropped(b) == 0 by { CoreUnmarked(b); }
  }

  lemma {:induction false} WithMarkerParts(retained: seq<Message>, dropped: nat)
    requires !HasMarker(retained)
    ensures Core(WithMarker(retained, dropped)) == retained && Dropped(WithMarker(retained, dropped)) == dropped
  {
    var at := SystemIndex(retained, 0) + 1;
    assert retained == retained[..at] + retained[at..];
    MarkerSplit(retained[..at], retained[at..]);
    MarkedParts(retained[..at], Marker(dropped), retained[at..]);
    MarkerRoundTrip(dropped);
  }

  /** Reading a window back: its messages in their old order, and the count its marker carries. */
  lemma {:induction false} CompactContents(ms: seq<Message>, limit: nat, goal: Message)
    requires limit >= 1
    ensures Core(Compact(ms, limit, goal)) == Retained(ms, limit, goal)
    ensures Dropped(Compact(ms, limit, goal)) == if Marks(ms, limit, goal) then DroppedBy(ms, limit, goal) else 0
  {
    CompactShape(ms, limit, goal);
    RetainedBounds(ms, limit, goal);
    var retained := Retained(ms, limit, goal);
    if Marks(ms, limit, goal) { WithMarkerParts(retained, DroppedBy(ms, limit, goal)); } else { CoreUnmarked(retained); }
  }

  // ----- size, priorities, counts -----

  /** A window never exceeds its limit, and the final cut never removes anything. */
  lemma {:induction false} CompactFits(ms: seq<Message>, maxMessages: int, goal: Message)
    ensures |Compact(ms, maxMessages, goal)| <= if maxMessages > 0 then maxMessages else 0
    ensures maxMessages > 0 ==> |Compact(ms, maxMessages, goal)| == |Retained(ms, maxMessages, goal)| + if Marks(ms, maxMessages, goal) then 1 else 0
  {
    if maxMessages > 0 {
      CompactShape(ms, maxMessages, goal);
      RetainedBounds(ms, maxMessages, goal);
    }
  }

  lemma {:induction false} CoreKeeps(ms: seq<Message>, m: Message)
    ensures m in Core(ms) <==> m in ms && !IsMarker(m)
  {
    if ms != [] {
      assert ms == [ms[0]] + ms[1..];
      CoreKeeps(ms[1..], m);
    }
  }

  lemma {:induction false} Retains(ms: seq<Message>, limit: nat, goal: Message, k: nat)
    requires limit >= 1 && k in Required(Core(ms), limit, goal) && k < |Core(ms)|
    ensures Core(ms)[k] in Compact(ms, limit, goal)
  {
    var core := Core(ms);
    Extracted(core, Select(core, limit, goal, Slots(core, Dropped(ms), limit, goal)), 0, k);
    CompactContents(ms, limit, goal);
    CoreKeeps(Compact(ms, limit, goal), core[k]);
  }

  /** The goal of the run is never compacted away. */
  lemma {:induction false} GoalKept(ms: seq<Message>, limit: nat, goal: Message)
    requires limit >= 1 && goal.User? && goal in ms
    ensures goal in Compact(ms, limit, goal)
  {
    CoreKeeps(ms, goal);
    var g := IndexOf(Core(ms), goal, 0);
    UnitsApart(Core(ms), 0);
    Retains(ms, limit, goal, g);
  }

  /** The first system message is kept whenever the goal leaves a place for it. */
  lemma {:induction false} SystemKept(ms: seq<Message>, limit: nat, goal: Message)
    requires limit >= 2 || (limit == 1 && IndexOf(Core(ms), goal, 0) < 0)
    requires SystemIndex(Core(ms), 0) >= 0
    ensures Core(ms)[SystemIndex(Core(ms), 0)] in Compact(ms, limit, goal)
  {
    SystemRequired(Core(ms), limit, goal);
    Retains(ms, limit, goal, SystemIndex(Core(ms), 0));
  }

  /** Nothing is lost from the count exactly when a marker is written or nothing was ever dropped. */
  lemma {:induction false} CountMarked(ms: seq<Message>, limit: nat, goal: Message)
    requires limit >= 1
    ensures var r := Compact(ms, limit, goal);
            Dropped(r) + |Core(r)| == Dropped(ms) + |Core(ms)| <==> Marks(ms, limit, goal) || DroppedBy(ms, limit, goal) == 0
    ensures HasMarker(Compact(ms, limit, goal)) <==> Marks(ms, limit, goal)
  {
    CompactShape(ms, limit, goal);
    CompactContents(ms, limit, goal);
    RetainedBounds(ms, limit, goal);
    var retained := Retained(ms, limit, goal);
    if Marks(ms, limit, goal) {
      var at := SystemIndex(retained, 0) + 1;
      assert IsMarker(WithMarker(retained, DroppedBy(ms, limit, goal))[at]);
    }
  }

  // ----- repeated compaction -----

  function Sizes(units: seq<Unit>, n: nat): int
    requires n <= |units|
  {
    if n == 0 then 0 else Sizes(units, n - 1) + units[n - 1].Size()
  }

  lemma {:induction false} SizesSplit(units: seq<Unit>, rest: seq<Unit>, n: nat)
    requires n <= |rest|
    ensures Sizes(units + rest, |units| + n) == Sizes(units, |units|) + Sizes(rest, n)
  {
    if n == 0 {
      SizesPrefix(units, rest, |units|);
    } else {
      SizesSplit(units, rest, n - 1);
    }
  }

  lemma {:induction false} SizesPrefix(units: seq<Unit>, rest: seq<Unit>, n: nat)
    requires n <= |units|
    ensures Sizes(units + rest, n) == Sizes(units, n)
  {
    if n > 0 { SizesPrefix(units, rest, n - 1); }
  }

  /** Candidates and required messages together are no more than the transcript. */
  lemma {:induction false} CandidateRoom(ms: seq<Message>, required: set<nat>, i: nat)
    requires i <= |ms|
    ensures var c := Candidates(Units(ms, i), required); Sizes(c, |c|) + CountIn(required, i, |ms|) <= |ms| - i
    decreases |ms| - i
  {
    if i < |ms| {
      var u := UnitAt(ms, i);
      CandidateRoom(ms, required, u.hi);
      CountSplit(required, i, u.hi, |ms|);
      CountBounds(required, i, u.hi);
      var units := Units(ms, i);
      assert units[0] == u && units[1..] == Units(ms, u.hi);
      var rest := Candidates(units[1..], required);
      assert Sizes([u], 1) == Sizes([u], 0) + [u][0].Size();
      if Avoids(required, u) {
        SizesSplit([u], rest, |rest|);
        assert Candidates(units, required) == [u] + rest;
      } else {
        assert Candidates(units, required) == rest;
      }
    }
  }

  lemma {:induction false} PickAll(candidates: seq<Unit>, n: nat, remaining: int, v: nat)
    requires v < n <= |candidates| && Sizes(candidates, n) <= remaining
    requires forall k :: 0 <= k < n ==> candidates[k].Size() > 0
    ensures Covers(Pick(candidates, n, remaining), candidates[v])
  {
    var u := candidates[n - 1];
    SizesPositive(candidates, n - 1);
    if v < n - 1 { PickAll(candidates, n - 1, remaining - u.Size(), v); }
  }

  lemma {:induction false} SizesPositive(units: seq<Unit>, n: nat)
    requires n <= |units| && forall k :: 0 <= k < n ==> units[k].Size() > 0
    ensures Sizes(units, n) >= 0
  {
    if n > 0 { SizesPositive(units, n - 1); }
  }

  lemma {:induction false} MemberPicked(units: seq<Unit>, required: set<nat>, remaining: int, n: nat, u: Unit)
    requires Apart(units) && Inside(units, 0, n) && u in Candidates(units, required)
    requires Sizes(Candidates(units, required), |Candidates(units, required)|) <= remaining
    ensures Covers(PickFrom(units, required, remaining), u)
  {
    CandidatesApart(units, required, n);
    var candidates := Candidates(units, required);
    var v :| 0 <= v < |candidates| && candidates[v] == u;
    PickAll(candidates, |candidates|, remaining, v);
  }

  /** With room for the whole transcript, there is room for every candidate. */
  lemma {:induction false} RoomLeft(core: seq<Message>, limit: nat, goal: Message, slots: nat)
    requires limit >= 1 && |core| + slots <= limit
    ensures var c := Candidates(Units(core, 0), Required(core, limit, goal));
            Sizes(c, |c|) <= limit - |Required(core, limit, goal)| - slots
  {
    CandidateRoom(core, Required(core, limit, goal), 0);
    RequiredBounds(core, limit, goal);
    CountIsCard(Required(core, limit, goal), |core|);
  }

  lemma {:induction false} AllPicked(core: seq<Message>, limit: nat, goal: Message, slots: nat, u: Unit)
    requires limit >= 1 && |core| + slots <= limit && u in Candidates(Units(core, 0), Required(core, limit, goal))
    ensures Covers(Picked(core, limit, goal, slots), u)
  {
    var required := Required(core, limit, goal);
    UnitsApart(core, 0);
    RoomLeft(core, limit, goal, slots);
    MemberPicked(Units(core, 0), required, limit - |required| - slots, |core|, u);
  }

  /** When everything fits beside the marker, everything is selected. */
  lemma {:induction false} SelectAll(core: seq<Message>, limit: nat, goal: Message, slots: nat)
    requires limit >= 1 && goal.User? && |core| + slots <= limit
    ensures Extract(core, Select(core, limit, goal, slots), 0) == core
  {
    forall k: nat | k < |core| ensures k in Select(core, limit, goal, slots) {
      var u := UnitOf(core, 0, k);
      RequiredWhole(core, limit, goal, u);
      CandidateMembers(Units(core, 0), Required(core, limit, goal), u);
      if Avoids(Required(core, limit, goal), u) { AllPicked(core, limit, goal, slots, u); }
    }
    ExtractAll(core, Select(core, limit, goal, slots), 0);
  }

  /** A transcript without markers that fits is left as it is. */
  lemma {:induction false} CompactIdentity(ms: seq<Message>, limit: nat, goal: Message)
    requires limit >= 1 && goal.User? && !HasMarker(ms) && |ms| <= limit
    ensures Compact(ms, limit, goal) == ms
  {
    CoreUnmarked(ms);
    SelectAll(ms, limit, goal, 0);
    CompactShape(ms, limit, goal);
  }

  /** Compacting a window again with the same limit and goal changes nothing. */
  lemma {:induction false} CompactIdempotent(ms: seq<Message>, maxMessages: int, goal: Message)
    requires goal.User?
    ensures Compact(Compact(ms, maxMessages, goal), maxMessages, goal) == Compact(ms, maxMessages, goal)
  {
    if maxMessages > 0 {
      var r := Compact(ms, maxMessages, goal);
      CompactContents(ms, maxMessages, goal);
      RetainedBounds(ms, maxMessages, goal);
      Settled(r, maxMessages, goal, if Marks(ms, maxMessages, goal) then 1 else 0);
      CompactShape(ms, maxMessages, goal);
      CompactShape(r, maxMessages, goal);
    }
  }

  /** Nothing more is dropped from a transcript that fits beside its marker. */
  lemma {:induction false} Settled(r: seq<Message>, limit: nat, goal: Message, slots: nat)
    requires limit >= 1 && goal.User? && slots <= 1 && |Core(r)| + slots <= limit && (Dropped(r) > 0 <==> slots == 1)
    ensures Slots(Core(r), Dropped(r), limit, goal) == slots && Retained(r, limit, goal) == Core(r)
  {
    var core := Core(r);
    RequiredBounds(core, limit, goal);
    RequiredFits(core, limit, goal);
    SelectAll(core, limit, goal, 0);
    SelectBounds(core, limit, goal, 0);
    if slots == 1 {
      SelectAll(core, limit, goal, 1);
      SelectBounds(core, limit, goal, 1);
    }
  }

  lemma {:induction false} RequiredFits(core: seq<Message>, limit: nat, goal: Message)
    requires limit >= 1
    ensures |Required(core, limit, goal)| <= |core|
  {
    RequiredBounds(core, limit, goal);
    CountIsCard(Required(core, limit, goal), |core|);
    CountBounds(Required(core, limit, goal), 0, |core|);
  }

  /** The marker may have its slot: one is left beside the required messages, and it costs no other message. */
  predicate MarkerFree(core: seq<Message>, limit: nat, goal: Message) {
    |Required(core, limit, goal)| < limit && |Select(core, limit, goal, 0)| <= |Select(core, limit, goal, 1)|
  }

  /** The count is conserved exactly when everything fits and nothing was dropped before, or the marker may have its slot. */
  lemma {:induction false} CountConserved(ms: seq<Message>, limit: nat, goal: Message)
    requires limit >= 1 && goal.User?
    ensures var r := Compact(ms, limit, goal);
            Dropped(r) + |Core(r)| == Dropped(ms) + |Core(ms)|
            <==> (Dropped(ms) == 0 && |Core(ms)| <= limit) || MarkerFree(Core(ms), limit, goal)
  {
    CountMarked(ms, limit, goal);
    RetainedBounds(ms, limit, goal);
    if Dropped(ms) == 0 && |Core(ms)| <= limit { SelectAll(Core(ms), limit, goal, 0); }
  }

  /** With room for the goal alone a second message is dropped without a trace. */
  lemma {:induction false} CountLost(ms: seq<Message>, goal: Message)
    requires goal == User(1, "g") && ms == [goal, User(COPY, "x")]
    ensures Dropped(Compact(ms, 1, goal)) + |Core(Compact(ms, 1, goal))| < Dropped(ms) + |Core(ms)|
  {
    assert forall i :: 0 <= i < |ms| ==> !IsMarker(ms[i]);
    CoreUnmarked(ms);
    GoalKept(ms, 1, goal);
    assert IndexOf(ms, goal, 0) == 0;
    AddLatestBounds(BaseRequired(ms, 1, goal), LatestToolUnit(ms), 1);
    RequiredBounds(ms, 1, goal);
    CardUp({0}, Required(ms, 1, goal));
    CountConserved(ms, 1, goal);
    CompactContents(ms, 1, goal);
    RetainedBounds(ms, 1, goal);
  }
}
