/** The bounded context window: what compaction keeps, and that it may be repeated safely. */
module Compaction {
  import opened Options
  import opened Transcript
  import Sequences

  // ----- units -----

  /** A message alone, or an assistant message with the tool results behind it: indices lo up to hi. */
  datatype Unit = Unit(lo: nat, hi: nat) {
    function Size(): int { hi - lo }
  }

  function ToolRunEnd(ms: seq<Message>, i: nat): (e: nat)
    requires i <= |ms|
    ensures i <= e <= |ms| && (forall k :: i <= k < e ==> ms[k].Tool?) && (e < |ms| ==> !ms[e].Tool?)
    decreases |ms| - i
  {
    if i < |ms| && ms[i].Tool? then ToolRunEnd(ms, i + 1) else i
  }

  function UnitAt(ms: seq<Message>, i: nat): (u: Unit)
    requires i < |ms|
    ensures u.lo == i < u.hi <= |ms|
  {
    Unit(i, if Requests(ms[i]) then ToolRunEnd(ms, i + 1) else i + 1)
  }

  function Units(ms: seq<Message>, i: nat): seq<Unit>
    requires i <= |ms|
    decreases |ms| - i
  {
    if i == |ms| then [] else [UnitAt(ms, i)] + Units(ms, UnitAt(ms, i).hi)
  }

  method MessageUnits(ms: seq<Message>) returns (units: seq<Unit>)
    ensures units == Units(ms, 0)
  {
    units := [];
    var index := 0;
    while index < |ms|
      invariant 0 <= index <= |ms|
      invariant Units(ms, 0) == units + Units(ms, index)
    {
      var cursor := index + 1;
      if Requests(ms[index]) {
        while cursor < |ms| && ms[cursor].Tool?
          invariant index < cursor <= |ms| && ToolRunEnd(ms, cursor) == ToolRunEnd(ms, index + 1)
        {
          cursor := cursor + 1;
        }
      }
      assert Unit(index, cursor) == UnitAt(ms, index);
      Sequences.Associative(units, [Unit(index, cursor)], Units(ms, cursor));
      units := units + [Unit(index, cursor)];
      index := cursor;
    }
  }

  /** What the units of a transcript look like, from index i on. */
  lemma {:induction false} UnitsShape(ms: seq<Message>, i: nat, u: Unit)
    requires i <= |ms| && u in Units(ms, i)
    ensures i <= u.lo < u.hi <= |ms| && u == UnitAt(ms, u.lo)
    ensures forall k :: u.lo < k < u.hi ==> ms[k].Tool? && Requests(ms[u.lo])
    decreases |ms| - i
  {
    if i < |ms| && u != UnitAt(ms, i) { UnitsShape(ms, UnitAt(ms, i).hi, u); }
  }

  /** Later units lie behind earlier ones. */
  predicate Apart(units: seq<Unit>) {
    forall a, b :: 0 <= a < b < |units| ==> units[a].hi <= units[b].lo
  }

  predicate Inside(units: seq<Unit>, i: nat, n: nat) {
    forall a :: 0 <= a < |units| ==> i <= units[a].lo < units[a].hi <= n
  }

  lemma {:induction false} UnitsApart(ms: seq<Message>, i: nat)
    requires i <= |ms|
    ensures Apart(Units(ms, i)) && Inside(Units(ms, i), i, |ms|)
    decreases |ms| - i
  {
    if i < |ms| { UnitsApart(ms, UnitAt(ms, i).hi); }
  }

  /** Every index lies in a unit. */
  lemma {:induction false} UnitOf(ms: seq<Message>, i: nat, k: nat) returns (u: Unit)
    requires i <= k < |ms|
    ensures u in Units(ms, i) && u.lo <= k < u.hi
    decreases |ms| - i
  {
    u := UnitAt(ms, i);
    if k >= u.hi { u := UnitOf(ms, u.hi, k); }
  }

  // ----- index sets -----

  function Range(lo: nat, hi: nat): (s: set<nat>)
    ensures forall i: nat :: i in s <==> lo <= i < hi
    decreases hi - lo
  {
    if lo >= hi then {} else Range(lo, hi - 1) + {hi - 1}
  }

  /** How many indices from i up to n are selected. */
  function CountIn(selected: set<nat>, i: nat, n: nat): nat
    decreases n - i
  {
    if i >= n then 0 else (if i in selected then 1 else 0) + CountIn(selected, i + 1, n)
  }

  lemma {:induction false} CountSplit(selected: set<nat>, i: nat, k: nat, n: nat)
    requires i <= k <= n
    ensures CountIn(selected, i, n) == CountIn(selected, i, k) + CountIn(selected, k, n)
    decreases k - i
  {
    if i < k { CountSplit(selected, i + 1, k, n); }
  }

  lemma {:induction false} CountBounds(selected: set<nat>, i: nat, n: nat)
    requires i <= n
    ensures CountIn(selected, i, n) <= n - i
    ensures (forall k: nat :: i <= k < n ==> k in selected) ==> CountIn(selected, i, n) == n - i
    ensures (forall k: nat :: i <= k < n ==> k !in selected) ==> CountIn(selected, i, n) == 0
    decreases n - i
  {
    if i < n { CountBounds(selected, i + 1, n); }
  }

  lemma {:induction false} CountIsCard(selected: set<nat>, n: nat)
    requires forall k :: k in selected ==> k < n
    ensures CountIn(selected, 0, n) == |selected|
  {
    if n == 0 {
      assert selected == {};
    } else {
      var rest := selected - {n - 1};
      CountIsCard(rest, n - 1);
      CountSame(selected, rest, 0, n - 1);
      CountSplit(selected, 0, n - 1, n);
      assert selected == if n - 1 in selected then rest + {n - 1} else rest;
    }
  }

  lemma {:induction false} CountSame(a: set<nat>, b: set<nat>, i: nat, n: nat)
    requires forall k: nat :: i <= k < n ==> (k in a <==> k in b)
    ensures CountIn(a, i, n) == CountIn(b, i, n)
    decreases n - i
  {
    if i < n { CountSame(a, b, i + 1, n); }
  }

  /** The selected messages from index i on, in order. */
  function Extract(ms: seq<Message>, selected: set<nat>, i: nat): (r: seq<Message>)
    requires i <= |ms|
    ensures |r| == CountIn(selected, i, |ms|)
    decreases |ms| - i
  {
    if i == |ms| then [] else (if i in selected then [ms[i]] else []) + Extract(ms, selected, i + 1)
  }

  // ----- the choice -----

  function Core(ms: seq<Message>): (core: seq<Message>)
    ensures !HasMarker(core)
  {
    if ms == [] then [] else (if IsMarker(ms[0]) then [] else [ms[0]]) + Core(ms[1..])
  }

  /** Sum of the counts the markers of a transcript carry. */
  function Dropped(ms: seq<Message>): nat {
    if ms == [] then 0 else MarkerCount(ms[0]) + Dropped(ms[1..])
  }

  lemma {:induction false} CoreAppend(a: seq<Message>, b: seq<Message>)
    ensures Core(a + b) == Core(a) + Core(b) && Dropped(a + b) == Dropped(a) + Dropped(b)
  {
    if a == [] {
      Sequences.Unit(b);
      Sequences.Unit(Core(b));
    } else {
      Sequences.Head(a, b);
      CoreAppend(a[1..], b);
      Sequences.Associative(if IsMarker(a[0]) then [] else [a[0]], Core(a[1..]), Core(b));
    }
  }

  lemma {:induction false} CoreUnmarked(ms: seq<Message>)
    requires !HasMarker(ms)
    ensures Core(ms) == ms && Dropped(ms) == 0
  {
    if ms != [] {
      assert ms == [ms[0]] + ms[1..];
      MarkerSplit([ms[0]], ms[1..]);
      assert !IsMarker(ms[0]);
      CoreUnmarked(ms[1..]);
    }
  }

  lemma {:induction false} CoreOfMarker(m: Message)
    requires IsMarker(m)
    ensures Core([m]) == [] && Dropped([m]) == MarkerCount(m)
  {
    assert [m][1..] == [];
  }

  function IndexOf(ms: seq<Message>, m: Message, i: nat): (k: int)
    requires i <= |ms|
    ensures k == -1 || i <= k < |ms|
    ensures k == -1 <==> forall q :: i <= q < |ms| ==> ms[q] != m
    ensures k >= 0 ==> ms[k] == m && forall q :: i <= q < k ==> ms[q] != m
    decreases |ms| - i
  {
    if i == |ms| then -1 else if ms[i] == m then i else IndexOf(ms, m, i + 1)
  }

  function SystemIndex(ms: seq<Message>, i: nat): (k: int)
    requires i <= |ms|
    ensures k == -1 || i <= k < |ms|
    ensures k == -1 <==> forall q :: i <= q < |ms| ==> !ms[q].System?
    ensures k >= 0 ==> ms[k].System? && forall q :: i <= q < k ==> !ms[q].System?
    decreases |ms| - i
  {
    if i == |ms| then -1 else if ms[i].System? then i else SystemIndex(ms, i + 1)
  }

  function GoalRequired(core: seq<Message>, goal: Message): (r: set<nat>)
    ensures |r| <= 1 && (forall k :: k in r <==> 0 <= k == IndexOf(core, goal, 0))
  {
    var g := IndexOf(core, goal, 0);
    if g >= 0 then {g} else {}
  }

  /** The goal, then the first system message if the limit leaves room for it. */
  function BaseRequired(core: seq<Message>, limit: nat, goal: Message): (r: set<nat>)
    ensures |r| <= limit || limit == 0
    ensures forall k :: k in r ==> k < |core|
  {
    var s := SystemIndex(core, 0);
    if s >= 0 && |GoalRequired(core, goal)| < limit then GoalRequired(core, goal) + {s} else GoalRequired(core, goal)
  }

  /** The last unit among the first n that requests tools. */
  function LatestAmong(core: seq<Message>, units: seq<Unit>, n: nat): (u: Option<Unit>)
    requires n <= |units| && Inside(units, 0, |core|)
    ensures u.Some? ==> u.value in units && u.value.lo < u.value.hi <= |core| && Requests(core[u.value.lo])
  {
    if n == 0 then None
    else if Requests(core[units[n - 1].lo]) then Some(units[n - 1])
    else LatestAmong(core, units, n - 1)
  }

  function LatestToolUnit(core: seq<Message>): (u: Option<Unit>)
    ensures u.Some? ==> u.value in Units(core, 0) && u.value.lo < u.value.hi <= |core| && Requests(core[u.value.lo])
  {
    UnitsApart(core, 0);
    LatestAmong(core, Units(core, 0), |Units(core, 0)|)
  }

  /** The newest tool unit too, when it fits beside the base. */
  function AddLatest(base: set<nat>, latest: Option<Unit>, limit: nat): set<nat>
    requires latest.Some? ==> latest.value.lo < latest.value.hi
  {
    if latest.Some? && latest.value.Size() <= limit - |base| then base + Range(latest.value.lo, latest.value.hi) else base
  }

  function Required(core: seq<Message>, limit: nat, goal: Message): (r: set<nat>)
  {
    AddLatest(BaseRequired(core, limit, goal), LatestToolUnit(core), limit)
  }

  predicate Covers(selected: set<nat>, u: Unit) {
    forall k: nat :: u.lo <= k < u.hi ==> k in selected
  }

  predicate Avoids(selected: set<nat>, u: Unit) {
    forall k: nat :: u.lo <= k < u.hi ==> k !in selected
  }

  function Candidates(units: seq<Unit>, required: set<nat>): seq<Unit> {
    if units == [] then []
    else (if Avoids(required, units[0]) then [units[0]] else []) + Candidates(units[1..], required)
  }

  /** Newest first, every one of the first n candidates that still fits. */
  function Pick(candidates: seq<Unit>, n: nat, remaining: int): set<nat>
    requires n <= |candidates|
  {
    if n == 0 then {}
    else
      var u := candidates[n - 1];
      if u.Size() > remaining then Pick(candidates, n - 1, remaining)
      else Range(u.lo, u.hi) + Pick(candidates, n - 1, remaining - u.Size())
  }

  function PickFrom(units: seq<Unit>, required: set<nat>, remaining: int): set<nat> {
    var candidates := Candidates(units, required);
    Pick(candidates, |candidates|, remaining)
  }

  /** The indices Select adds to the required ones. */
  function Picked(core: seq<Message>, limit: nat, goal: Message, slots: nat): set<nat> {
    var required := Required(core, limit, goal);
    PickFrom(Units(core, 0), required, limit - |required| - slots)
  }

  function Select(core: seq<Message>, limit: nat, goal: Message, slots: nat): set<nat> {
    Required(core, limit, goal) + Picked(core, limit, goal, slots)
  }

  predicate WantsMarker(core: seq<Message>, previous: nat, limit: nat, goal: Message) {
    (previous > 0 || |core| > limit) && |Required(core, limit, goal)| < limit
  }

  /** The slot for a marker, unless it would cost a message that fits otherwise. */
  function Slots(core: seq<Message>, previous: nat, limit: nat, goal: Message): nat {
    if WantsMarker(core, previous, limit, goal) && |Select(core, limit, goal, 0)| <= |Select(core, limit, goal, 1)| then 1 else 0
  }

  function Take(ms: seq<Message>, limit: nat): seq<Message> {
    if |ms| > limit then ms[..limit] else ms
  }

  function RetainedFrom(core: seq<Message>, previous: nat, limit: nat, goal: Message): seq<Message> {
    Extract(core, Select(core, limit, goal, Slots(core, previous, limit, goal)), 0)
  }

  /** What compaction retains, before a marker is put in. */
  function Retained(ms: seq<Message>, limit: nat, goal: Message): seq<Message> {
    RetainedFrom(Core(ms), Dropped(ms), limit, goal)
  }

  /** Messages dropped before, according to the markers, and now. */
  function DroppedBy(ms: seq<Message>, limit: nat, goal: Message): int {
    Dropped(ms) + |Core(ms)| - |Retained(ms, limit, goal)|
  }

  predicate Marks(ms: seq<Message>, limit: nat, goal: Message) {
    DroppedBy(ms, limit, goal) > 0 && Slots(Core(ms), Dropped(ms), limit, goal) != 0
  }

  /** The marker stands behind the first system message of the core. */
  function MarkerPlace(core: seq<Message>, retained: seq<Message>): (at: nat)
    ensures at <= |retained|
  {
    var s := SystemIndex(core, 0);
    if s < 0 then 0 else IndexOf(retained, core[s], 0) + 1
  }

  function Inserted(ms: seq<Message>, at: nat, m: Message): seq<Message>
    requires at <= |ms|
  {
    ms[..at] + [m] + ms[at..]
  }

  function Window(core: seq<Message>, retained: seq<Message>, dropped: int, slots: nat, limit: nat): seq<Message> {
    if dropped <= 0 || slots == 0 then Take(retained, limit)
    else Take(Inserted(retained, MarkerPlace(core, retained), Marker(dropped)), limit)
  }

  function Compact(ms: seq<Message>, maxMessages: int, goal: Message): seq<Message> {
    if maxMessages <= 0 then []
    else Window(Core(ms), Retained(ms, maxMessages, goal), DroppedBy(ms, maxMessages, goal), Slots(Core(ms), Dropped(ms), maxMessages, goal), maxMessages)
  }

  // ----- whole units -----

  lemma {:induction false} RangeCard(lo: nat, hi: nat)
    requires lo <= hi
    ensures |Range(lo, hi)| == hi - lo
  {
    var r := Range(lo, hi);
    CountIsCard(r, hi);
    CountSplit(r, 0, lo, hi);
    CountBounds(r, 0, lo);
    CountBounds(r, lo, hi);
  }

  /** A message that is neither a tool result nor a request is a unit of its own. */
  lemma {:induction false} SingleUnit(core: seq<Message>, u: Unit, k: nat)
    requires u in Units(core, 0) && u.lo <= k < u.hi && k < |core| && !core[k].Tool? && !Requests(core[k])
    ensures u.lo == k && u.hi == k + 1
  {
    UnitsShape(core, 0, u);
  }

  lemma {:induction false} UnitsDisjoint(units: seq<Unit>, n: nat, u: Unit, v: Unit)
    requires Apart(units) && Inside(units, 0, n) && u in units && v in units && u != v
    ensures u.hi <= v.lo || v.hi <= u.lo
  {
    var i :| 0 <= i < |units| && units[i] == u;
    var k :| 0 <= k < |units| && units[k] == v;
  }

  /** Two units with a common index are the same. */
  lemma {:induction false} SameUnit(units: seq<Unit>, n: nat, u: Unit, v: Unit, k: nat)
    requires Apart(units) && Inside(units, 0, n) && u in units && v in units
    requires u.lo <= k < u.hi && v.lo <= k < v.hi
    ensures u == v
  {
  }

  lemma {:induction false} BaseWhole(core: seq<Message>, limit: nat, goal: Message, u: Unit)
    requires goal.User? && u in Units(core, 0)
    ensures Covers(BaseRequired(core, limit, goal), u) || Avoids(BaseRequired(core, limit, goal), u)
  {
    var base := BaseRequired(core, limit, goal);
    UnitsShape(core, 0, u);
    if k: nat :| u.lo <= k < u.hi && k in base {
      assert core[k] == goal || core[k].System?;
      SingleUnit(core, u, k);
    }
  }

  lemma {:induction false} AddLatestWhole(base: set<nat>, latest: Option<Unit>, limit: nat, u: Unit)
    requires latest.Some? ==> latest.value.lo < latest.value.hi && (u == latest.value || u.hi <= latest.value.lo || latest.value.hi <= u.lo)
    requires Covers(base, u) || Avoids(base, u)
    ensures Covers(AddLatest(base, latest, limit), u) || Avoids(AddLatest(base, latest, limit), u)
  {
  }

  lemma {:induction false} RequiredWhole(core: seq<Message>, limit: nat, goal: Message, u: Unit)
    requires goal.User? && u in Units(core, 0)
    ensures Covers(Required(core, limit, goal), u) || Avoids(Required(core, limit, goal), u)
  {
    UnitsApart(core, 0);
    var latest := LatestToolUnit(core);
    BaseWhole(core, limit, goal, u);
    if latest.Some? && u != latest.value { UnitsDisjoint(Units(core, 0), |core|, u, latest.value); }
    AddLatestWhole(BaseRequired(core, limit, goal), latest, limit, u);
  }

  lemma {:induction false} AddLatestBounds(base: set<nat>, latest: Option<Unit>, limit: nat)
    requires latest.Some? ==> latest.value.lo < latest.value.hi
    ensures |base| <= limit ==> |AddLatest(base, latest, limit)| <= limit
    ensures forall k :: k in AddLatest(base, latest, limit) ==> k in base || (latest.Some? && latest.value.lo <= k < latest.value.hi)
    ensures base <= AddLatest(base, latest, limit)
  {
    if latest.Some? {
      var range := Range(latest.value.lo, latest.value.hi);
      RangeCard(latest.value.lo, latest.value.hi);
      assert |base + range| <= |base| + |range|;
    }
  }

  lemma {:induction false} RequiredBounds(core: seq<Message>, limit: nat, goal: Message)
    requires limit >= 1
    ensures |Required(core, limit, goal)| <= limit
    ensures forall k :: k in Required(core, limit, goal) ==> k < |core|
  {
    AddLatestBounds(BaseRequired(core, limit, goal), LatestToolUnit(core), limit);
  }

  lemma {:induction false} CandidateMembers(units: seq<Unit>, required: set<nat>, u: Unit)
    ensures u in Candidates(units, required) <==> u in units && Avoids(required, u)
  {
    if units != [] { CandidateMembers(units[1..], required, u); }
  }

  lemma {:induction false} BehindHead(units: seq<Unit>, u: Unit)
    requires units != [] && Apart(units) && u in units[1..]
    ensures units[0].hi <= u.lo
  {
    var b :| 0 <= b < |units[1..]| && units[1..][b] == u;
    assert units[b + 1] == u;
  }

  lemma {:induction false} CandidatesInside(units: seq<Unit>, required: set<nat>, n: nat)
    requires Inside(units, 0, n)
    ensures Inside(Candidates(units, required), 0, n)
  {
    if units != [] { CandidatesInside(units[1..], required, n); }
  }

  lemma {:induction false} CandidatesApart(units: seq<Unit>, required: set<nat>, n: nat)
    requires Apart(units) && Inside(units, 0, n)
    ensures Apart(Candidates(units, required)) && Inside(Candidates(units, required), 0, n)
  {
    CandidatesInside(units, required, n);
    if units != [] {
      var rest := Candidates(units[1..], required);
      CandidatesApart(units[1..], required, n);
      forall a | 0 <= a < |rest| ensures units[0].hi <= rest[a].lo {
        CandidateMembers(units[1..], required, rest[a]);
        BehindHead(units, rest[a]);
      }
    }
  }

  /** Where picked indices come from, and how many there are. */
  lemma {:induction false} PickBounds(candidates: seq<Unit>, n: nat, remaining: int, size: nat)
    requires n <= |candidates| && Apart(candidates) && Inside(candidates, 0, size)
    ensures forall k :: k in Pick(candidates, n, remaining) ==> n > 0 && k < candidates[n - 1].hi
    ensures |Pick(candidates, n, remaining)| <= if remaining > 0 then remaining else 0
  {
    if n > 0 {
      var u := candidates[n - 1];
      assert n >= 2 ==> candidates[n - 2].hi <= u.lo;
      if u.Size() > remaining {
        PickBounds(candidates, n - 1, remaining, size);
      } else {
        PickBounds(candidates, n - 1, remaining - u.Size(), size);
        RangeCard(u.lo, u.hi);
      }
    }
  }

  lemma {:induction false} PickedFrom(candidates: seq<Unit>, n: nat, remaining: int, size: nat, k: nat) returns (u: Unit)
    requires Inside(candidates, 0, size) && n <= |candidates| && k in Pick(candidates, n, remaining)
    ensures u in candidates && u.lo <= k < u.hi && u.Size() <= remaining
  {
    u := candidates[n - 1];
    if u.Size() > remaining {
      u := PickedFrom(candidates, n - 1, remaining, size, k);
    } else if k !in Range(u.lo, u.hi) {
      u := PickedFrom(candidates, n - 1, remaining - u.Size(), size, k);
    }
  }

  /** A candidate is picked whole or not at all. */
  lemma {:induction false} PickWhole(candidates: seq<Unit>, n: nat, remaining: int, size: nat, v: nat)
    requires v < n <= |candidates| && Apart(candidates) && Inside(candidates, 0, size)
    ensures Covers(Pick(candidates, n, remaining), candidates[v]) || Avoids(Pick(candidates, n, remaining), candidates[v])
  {
    var u := candidates[n - 1];
    var left := if u.Size() > remaining then remaining else remaining - u.Size();
    if v < n - 1 {
      PickWhole(candidates, n - 1, left, size, v);
    } else {
      PickBounds(candidates, n - 1, left, size);
      assert n >= 2 ==> candidates[n - 2].hi <= u.lo;
    }
  }

  lemma {:induction false} MemberWhole(units: seq<Unit>, required: set<nat>, remaining: int, n: nat, u: Unit)
    requires Apart(units) && Inside(units, 0, n) && u in Candidates(units, required)
    ensures Covers(PickFrom(units, required, remaining), u) || Avoids(PickFrom(units, required, remaining), u)
  {
    CandidatesApart(units, required, n);
    var candidates := Candidates(units, required);
    var v :| 0 <= v < |candidates| && candidates[v] == u;
    PickWhole(candidates, |candidates|, remaining, n, v);
  }

  lemma {:induction false} SelectFromWhole(units: seq<Unit>, required: set<nat>, remaining: int, n: nat, u: Unit)
    requires Apart(units) && Inside(units, 0, n) && u in units && (Covers(required, u) || Avoids(required, u))
    ensures Covers(required + PickFrom(units, required, remaining), u) || Avoids(required + PickFrom(units, required, remaining), u)
  {
    CandidateMembers(units, required, u);
    if Avoids(required, u) { MemberWhole(units, required, remaining, n, u); }
  }

  /** Every unit is selected whole or not at all. */
  lemma {:induction false} SelectWhole(core: seq<Message>, limit: nat, goal: Message, slots: nat, u: Unit)
    requires goal.User? && u in Units(core, 0)
    ensures Covers(Select(core, limit, goal, slots), u) || Avoids(Select(core, limit, goal, slots), u)
  {
    var required := Required(core, limit, goal);
    RequiredWhole(core, limit, goal, u);
    UnitsApart(core, 0);
    SelectFromWhole(Units(core, 0), required, limit - |required| - slots, |core|, u);
  }

  lemma {:induction false} SelectBounds(core: seq<Message>, limit: nat, goal: Message, slots: nat)
    requires limit >= 1
    ensures forall k :: k in Select(core, limit, goal, slots) ==> k < |core|
    ensures |Required(core, limit, goal)| + slots <= limit ==> |Select(core, limit, goal, slots)| <= limit - slots
    ensures |Select(core, limit, goal, slots)| == |Extract(core, Select(core, limit, goal, slots), 0)|
  {
    var units, required := Units(core, 0), Required(core, limit, goal);
    var candidates := Candidates(units, required);
    UnitsApart(core, 0);
    CandidatesApart(units, required, |core|);
    RequiredBounds(core, limit, goal);
    PickBounds(candidates, |candidates|, limit - |required| - slots, |core|);
    CountIsCard(Select(core, limit, goal, slots), |core|);
  }

  // ----- the algorithm -----

  method FilterMarkers(ms: seq<Message>) returns (core: seq<Message>, previouslyDropped: nat)
    ensures core == Core(ms) && previouslyDropped == Dropped(ms)
  {
    core, previouslyDropped := [], 0;
    for i := 0 to |ms|
      invariant core == Core(ms[..i]) && previouslyDropped == Dropped(ms[..i])
    {
      assert ms[..i + 1] == ms[..i] + [ms[i]];
      CoreAppend(ms[..i], [ms[i]]);
      if IsMarker(ms[i]) {
        CoreOfMarker(ms[i]);
        previouslyDropped := previouslyDropped + MarkerCount(ms[i]);
      } else {
        CoreUnmarked([ms[i]]);
        core := core + [ms[i]];
      }
    }
    assert ms[..|ms|] == ms;
  }

  method FilterCandidates(units: seq<Unit>, required: set<nat>) returns (candidates: seq<Unit>)
    ensures candidates == Candidates(units, required)
  {
    candidates := [];
    for i := 0 to |units|
      invariant Candidates(units, required) == candidates + Candidates(units[i..], required)
    {
      assert units[i..][1..] == units[i + 1..] && units[i..][0] == units[i];
      if forall k: nat | units[i].lo <= k < units[i].hi :: k !in required { candidates := candidates + [units[i]]; }
    }
  }

  method PickNewest(candidates: seq<Unit>, required: set<nat>, room: int) returns (selected: set<nat>)
    ensures selected == required + Pick(candidates, |candidates|, room)
  {
    selected := required;
    var remaining, n := room, |candidates|;
    while n > 0
      invariant 0 <= n <= |candidates|
      invariant selected + Pick(candidates, n, remaining) == required + Pick(candidates, |candidates|, room)
    {
      n := n - 1;
      if candidates[n].Size() <= remaining {
        selected := selected + Range(candidates[n].lo, candidates[n].hi);
        remaining := remaining - candidates[n].Size();
      }
    }
  }

  method FindLatest(core: seq<Message>, units: seq<Unit>) returns (u: Option<Unit>)
    requires Inside(units, 0, |core|)
    ensures u == LatestAmong(core, units, |units|)
  {
    var n := |units|;
    while n > 0
      invariant 0 <= n <= |units| && LatestAmong(core, units, |units|) == LatestAmong(core, units, n)
    {
      n := n - 1;
      if Requests(core[units[n].lo]) { return Some(units[n]); }
    }
    u := None;
  }

  method SelectWithMarkerSlots(core: seq<Message>, candidates: seq<Unit>, required: set<nat>, limit: nat, goal: Message, slots: nat) returns (selected: set<nat>)
    requires required == Required(core, limit, goal) && candidates == Candidates(Units(core, 0), required)
    ensures selected == Select(core, limit, goal, slots)
  {
    selected := PickNewest(candidates, required, limit - |required| - slots);
  }

  method ChooseRequired(core: seq<Message>, units: seq<Unit>, limit: nat, goal: Message) returns (required: set<nat>)
    requires units == Units(core, 0)
    ensures required == Required(core, limit, goal)
  {
    UnitsApart(core, 0);
    var latest := FindLatest(core, units);
    required := AddLatest(BaseRequired(core, limit, goal), latest, limit);
  }

  method Choose(core: seq<Message>, previouslyDropped: nat, limit: nat, goal: Message) returns (selected: set<nat>, slots: nat)
    ensures slots == Slots(core, previouslyDropped, limit, goal) && selected == Select(core, limit, goal, slots)
  {
    var units := MessageUnits(core);
    var required := ChooseRequired(core, units, limit, goal);
    var candidates := FilterCandidates(units, required);
    slots := if (previouslyDropped > 0 || |core| > limit) && |required| < limit then 1 else 0;
    selected := SelectWithMarkerSlots(core, candidates, required, limit, goal, slots);
    if slots == 1 {
      var without := SelectWithMarkerSlots(core, candidates, required, limit, goal, 0);
      if |without| > |selected| { slots, selected := 0, without; }
    }
  }

  method Retain(core: seq<Message>, previouslyDropped: nat, limit: nat, goal: Message) returns (retained: seq<Message>, slots: nat)
    ensures slots == Slots(core, previouslyDropped, limit, goal)
    ensures retained == RetainedFrom(core, previouslyDropped, limit, goal)
  {
    var selected;
    selected, slots := Choose(core, previouslyDropped, limit, goal);
    retained := Extract(core, selected, 0);
  }

  /** The window with or without its marker, cut at the limit. */
  method Assemble(core: seq<Message>, retained: seq<Message>, dropped: int, slots: nat, limit: nat) returns (window: seq<Message>)
    ensures window == Window(core, retained, dropped, slots, limit)
  {
    if dropped <= 0 || slots == 0 { return Take(retained, limit); }
    window := Take(Inserted(retained, MarkerPlace(core, retained), Marker(dropped)), limit);
  }

  method CompactMessages(ms: seq<Message>, maxMessages: int, goal: Message) returns (window: seq<Message>)
    ensures window == Compact(ms, maxMessages, goal)
  {
    if maxMessages <= 0 { return []; }
    var core, previouslyDropped := FilterMarkers(ms);
    var retained, slots := Retain(core, previouslyDropped, maxMessages, goal);
    window := Assemble(core, retained, previouslyDropped + |core| - |retained|, slots, maxMessages);
  }
}
