/** The scheduler of a swarm: admission, dispatch order, budgets and stall detection. */
module Scheduler {
  import opened Options

  // ----- policy -----

  /** An absent limit is infinite; times are in milliseconds. */
  datatype Policy = Policy(
    maxConcurrent: Option<int>, maxTotal: Option<int>, maxTurns: Option<int>, maxWallClock: Option<int>, agingInterval: Option<int>, stallTicks: Option<int>)

  const DEFAULT_POLICY := Policy(Some(8), Some(256), Some(10000), Some(3600000), Some(30000), Some(3))

  /** A limit as the caller gives it. */
  datatype Given = Omitted | NotANumber | Unlimited | Limit(n: int)

  datatype PolicyInput = PolicyInput(
    maxConcurrent: Given, maxTotal: Given, maxTurns: Given, maxWallClock: Given, agingInterval: Given, stallTicks: Given)

  function PositiveOr(value: Given, fallback: Option<int>): Option<int> {
    match value
    case Omitted => fallback
    case NotANumber => fallback
    case Unlimited => None
    case Limit(n) => if n <= 0 then fallback else Some(n)
  }

  /** Positive and unlimited values are taken over; whatever else is given keeps the default. */
  ghost predicate Honours(resolved: Option<int>, value: Given, fallback: Option<int>) {
    && (value.Limit? && value.n > 0 ==> resolved == Some(value.n))
    && (value.Unlimited? ==> resolved == None)
    && (value.Omitted? || value.NotANumber? || (value.Limit? && value.n <= 0) ==> resolved == fallback)
  }

  ghost predicate Resolves(p: Policy, input: PolicyInput) {
    var d := DEFAULT_POLICY;
    && Honours(p.maxConcurrent, input.maxConcurrent, d.maxConcurrent) && Honours(p.maxTotal, input.maxTotal, d.maxTotal)
    && Honours(p.maxTurns, input.maxTurns, d.maxTurns) && Honours(p.maxWallClock, input.maxWallClock, d.maxWallClock)
    && Honours(p.agingInterval, input.agingInterval, d.agingInterval) && Honours(p.stallTicks, input.stallTicks, d.stallTicks)
  }

  predicate Positive(limit: Option<int>) {
    limit.Some? ==> limit.value > 0
  }

  predicate ValidPolicy(p: Policy) {
    Positive(p.maxConcurrent) && Positive(p.maxTotal) && Positive(p.maxTurns) && Positive(p.maxWallClock) && Positive(p.agingInterval) && Positive(p.stallTicks)
  }

  // ----- dispatch order -----

  datatype Reason = ConditionUnmet | SlotUnavailable | BudgetExhausted

  datatype Pending = Pending(id: string, enqueuedAt: int, base: int, sequence: nat, blocked: Reason, evaluations: nat)

  /** One step up for every completed aging interval spent waiting. */
  function EffectivePriority(e: Pending, interval: Option<int>, at: int): int
    requires Positive(interval)
  {
    var waited := at - e.enqueuedAt;
    if waited <= 0 || interval.None? then e.base else e.base + waited / interval.value
  }

  /** a is dispatched before b. */
  predicate Ahead(a: Pending, b: Pending, interval: Option<int>, at: int)
    requires Positive(interval)
  {
    var pa, pb := EffectivePriority(a, interval, at), EffectivePriority(b, interval, at);
    pa > pb || (pa == pb && a.sequence < b.sequence)
  }

  function Insert(e: Pending, s: seq<Pending>, interval: Option<int>, at: int): (r: seq<Pending>)
    requires Positive(interval)
    ensures |r| == |s| + 1
  {
    if s == [] || Ahead(e, s[0], interval, at) then [e] + s else [s[0]] + Insert(e, s[1..], interval, at)
  }

  function Sort(s: seq<Pending>, interval: Option<int>, at: int): (r: seq<Pending>)
    requires Positive(interval)
    ensures |r| == |s|
  {
    if s == [] then [] else Insert(s[0], Sort(s[1..], interval, at), interval, at)
  }

  ghost predicate Ranked(s: seq<Pending>, interval: Option<int>, at: int)
    requires Positive(interval)
  {
    forall i, k :: 0 <= i < k < |s| ==> Ahead(s[i], s[k], interval, at)
  }

  /** Admission numbers are all different. */
  ghost predicate Numbered(s: seq<Pending>) {
    forall i, k :: 0 <= i < k < |s| ==> s[i].sequence < s[k].sequence
  }

  lemma {:induction false} InsertMembers(e: Pending, s: seq<Pending>, interval: Option<int>, at: int)
    requires Positive(interval)
    ensures forall x :: x in Insert(e, s, interval, at) <==> x == e || x in s
  {
    if s != [] && !Ahead(e, s[0], interval, at) {
      InsertMembers(e, s[1..], interval, at);
      assert s == [s[0]] + s[1..];
    }
  }

  lemma {:induction false} RankedCons(x: Pending, s: seq<Pending>, interval: Option<int>, at: int)
    requires Positive(interval) && Ranked(s, interval, at) && forall y :: y in s ==> Ahead(x, y, interval, at)
    ensures Ranked([x] + s, interval, at)
  {
    var r := [x] + s;
    forall i, k | 0 <= i < k < |r| ensures Ahead(r[i], r[k], interval, at) {
      if i == 0 { assert r[k] in s; } else { assert Ahead(s[i - 1], s[k - 1], interval, at); }
    }
  }

  lemma {:induction false} RankedTail(s: seq<Pending>, interval: Option<int>, at: int)
    requires Positive(interval) && Ranked(s, interval, at) && s != []
    ensures Ranked(s[1..], interval, at) && forall y :: y in s[1..] ==> Ahead(s[0], y, interval, at)
  {
    forall y | y in s[1..] ensures Ahead(s[0], y, interval, at) {
      var i :| 0 <= i < |s[1..]| && s[1..][i] == y;
      assert Ahead(s[0], s[i + 1], interval, at);
    }
  }

  lemma {:induction false} InsertRanked(e: Pending, s: seq<Pending>, interval: Option<int>, at: int)
    requires Positive(interval) && Ranked(s, interval, at) && forall x :: x in s ==> x.sequence != e.sequence
    ensures Ranked(Insert(e, s, interval, at), interval, at)
    ensures forall x :: x in Insert(e, s, interval, at) <==> x == e || x in s
  {
    InsertMembers(e, s, interval, at);
    if s == [] {
    } else {
      RankedTail(s, interval, at);
      assert s == [s[0]] + s[1..];
      if Ahead(e, s[0], interval, at) {
        forall y | y in s ensures Ahead(e, y, interval, at) {
          assert y == s[0] || y in s[1..];
        }
        RankedCons(e, s, interval, at);
      } else {
        InsertRanked(e, s[1..], interval, at);
        assert s[0] in s;
        RankedCons(s[0], Insert(e, s[1..], interval, at), interval, at);
      }
    }
  }

  lemma {:induction false} SortRanked(s: seq<Pending>, interval: Option<int>, at: int)
    requires Positive(interval) && Numbered(s)
    ensures Ranked(Sort(s, interval, at), interval, at) && |Sort(s, interval, at)| == |s|
    ensures forall x :: x in Sort(s, interval, at) <==> x in s
  {
    if s != [] {
      var rest := s[1..];
      assert s == [s[0]] + rest;
      SortRanked(rest, interval, at);
      forall x | x in rest ensures x.sequence != s[0].sequence {
        var i :| 0 <= i < |rest| && rest[i] == x;
        assert s[i + 1] == x;
      }
      InsertRanked(s[0], Sort(rest, interval, at), interval, at);
    }
  }

  ghost function AheadOf(s: seq<Pending>, x: Pending, interval: Option<int>, at: int): set<Pending>
    requires Positive(interval)
  {
    set y | y in s && Ahead(y, x, interval, at)
  }

  function Members(s: seq<Pending>): set<Pending> {
    set y <- s
  }

  lemma {:induction false} MembersSnoc(s: seq<Pending>, x: Pending)
    requires x !in s
    ensures |Members(s + [x])| == |Members(s)| + 1
  {
    assert Members(s + [x]) == Members(s) + {x};
  }

  lemma {:induction false} PrefixSize(s: seq<Pending>, k: nat, interval: Option<int>, at: int)
    requires Positive(interval) && Ranked(s, interval, at) && k <= |s|
    ensures |Members(s[..k])| == k
  {
    if k > 0 {
      PrefixSize(s, k - 1, interval, at);
      assert s[..k] == s[..k - 1] + [s[k - 1]];
      assert forall i :: 0 <= i < k - 1 ==> Ahead(s[i], s[k - 1], interval, at);
      MembersSnoc(s[..k - 1], s[k - 1]);
    }
  }

  /** In a ranked sequence exactly the elements in front are ahead. */
  lemma {:induction false} RankIsIndex(s: seq<Pending>, i: nat, interval: Option<int>, at: int)
    requires Positive(interval) && Ranked(s, interval, at) && i < |s|
    ensures |AheadOf(s, s[i], interval, at)| == i
  {
    PrefixSize(s, i, interval, at);
    assert AheadOf(s, s[i], interval, at) == Members(s[..i]) by {
      forall y ensures y in AheadOf(s, s[i], interval, at) <==> y in Members(s[..i]) {
        if y in s && Ahead(y, s[i], interval, at) {
          var k :| 0 <= k < |s| && s[k] == y;
          assert k < i;
        }
        if y in s[..i] {
          var k :| 0 <= k < i && s[k] == y;
        }
      }
    }
  }

  /** The batch is the top k: an eligible agent is chosen exactly when fewer than k eligible agents are ahead of it. */
  lemma {:induction false} ChosenWhen(eligible: seq<Pending>, k: nat, x: Pending, interval: Option<int>, at: int)
    requires Positive(interval) && Numbered(eligible) && k <= |eligible| && x in eligible
    ensures x in Sort(eligible, interval, at)[..k] <==> |AheadOf(eligible, x, interval, at)| < k
  {
    var s := Sort(eligible, interval, at);
    SortRanked(eligible, interval, at);
    var i :| 0 <= i < |s| && s[i] == x;
    RankIsIndex(s, i, interval, at);
    assert AheadOf(eligible, x, interval, at) == AheadOf(s, x, interval, at);
    if x in s[..k] {
      var j :| 0 <= j < k && s[j] == x;
      RankIsIndex(s, j, interval, at);
    }
    if i < k { assert s[..k][i] == x; }
  }

  // ----- bounded overtaking -----

  lemma {:induction false} FloorSum(x: int, y: int, d: int)
    requires d > 0
    ensures (x + y) / d >= x / d + y / d
  {
    var qx, rx, qy, ry := x / d, x % d, y / d, y % d;
    assert x + y == (qx + qy) * d + (rx + ry);
    QuotientAtLeast(x + y, qx + qy, d);
  }

  lemma {:induction false} QuotientAtLeast(x: int, q: int, d: int)
    requires d > 0
    ensures x / d >= q <==> x >= q * d
  {
    var p, r := x / d, x % d;
    assert x == p * d + r && 0 <= r < d;
    if p >= q { Scaled(p, q, d); } else { Scaled(q, p + 1, d); assert (p + 1) * d == p * d + d; }
  }

  lemma {:induction false} Scaled(a: int, b: int, d: int)
    requires a >= b && d > 0
    ensures a * d >= b * d
  {
  }

  /** If a, admitted before b, is ahead when b arrives, it stays ahead at every later time. */
  lemma {:induction false} StaysAhead(a: Pending, b: Pending, interval: Option<int>, at: int)
    requires Positive(interval) && a.sequence < b.sequence && a.enqueuedAt <= b.enqueuedAt <= at
    requires Ahead(a, b, interval, b.enqueuedAt)
    ensures Ahead(a, b, interval, at)
  {
    if interval.Some? {
      var early, late := b.enqueuedAt - a.enqueuedAt, at - b.enqueuedAt;
      FloorSum(early, late, interval.value);
      assert early + late == at - a.enqueuedAt;
      ZeroQuotient(interval.value);
    }
  }

  lemma {:induction false} ZeroQuotient(d: int)
    requires d > 0
    ensures 0 / d == 0
  {
  }

  /** a is never passed by b exactly when b arrives late enough to make up for its higher priority. */
  lemma {:induction false} NeverPassed(a: Pending, b: Pending, interval: Option<int>)
    requires Positive(interval) && a.sequence < b.sequence && a.enqueuedAt <= b.enqueuedAt
    ensures (forall at :: at >= b.enqueuedAt ==> Ahead(a, b, interval, at))
       <==> b.base <= a.base || (interval.Some? && b.enqueuedAt - a.enqueuedAt >= (b.base - a.base) * interval.value)
  {
    var at := b.enqueuedAt;
    if interval.Some? {
      QuotientAtLeast(at - a.enqueuedAt, b.base - a.base, interval.value);
      QuotientAtLeast(at - a.enqueuedAt, 0, interval.value);
      ZeroQuotient(interval.value);
    }
    if Ahead(a, b, interval, at) {
      forall t | t >= at ensures Ahead(a, b, interval, t) {
        StaysAhead(a, b, interval, t);
      }
    }
  }

  // ----- what an evaluation of the queue does -----

  predicate Within(limit: Option<int>, amount: int) {
    limit.Some? ==> amount < limit.value
  }

  function Eligible(pending: seq<Pending>, satisfied: set<string>): seq<Pending> {
    if pending == [] then []
    else (if pending[0].id in satisfied then [pending[0]] else []) + Eligible(pending[1..], satisfied)
  }

  function Evaluated(e: Pending, satisfied: set<string>, reason: Reason): Pending {
    e.(evaluations := e.evaluations + 1, blocked := if e.id in satisfied then reason else ConditionUnmet)
  }

  function EvaluatedAll(pending: seq<Pending>, satisfied: set<string>, reason: Reason): (r: seq<Pending>)
    ensures |r| == |pending|
  {
    seq(|pending|, i requires 0 <= i < |pending| => Evaluated(pending[i], satisfied, reason))
  }

  function Ids(s: seq<Pending>): (r: seq<string>)
    ensures |r| == |s|
  {
    seq(|s|, i requires 0 <= i < |s| => s[i].id)
  }

  function Floored(limit: Option<int>, used: int): Option<int> {
    if limit.None? then None else if limit.value > used then Some(limit.value - used) else Some(0)
  }

  /** The smaller of free slots and remaining spawns, and no more than there are. */
  function BatchSize(slots: Option<int>, spawns: Option<int>, eligible: nat): (k: nat)
    ensures k <= eligible
    ensures k == eligible || (slots.Some? && k >= slots.value) || (spawns.Some? && k >= spawns.value)
    ensures (slots.Some? && slots.value >= 0 ==> k <= slots.value) && (spawns.Some? && spawns.value >= 0 ==> k <= spawns.value)
  {
    var a := if slots.Some? && slots.value < eligible then slots.value else eligible;
    var b := if spawns.Some? && spawns.value < a then spawns.value else a;
    if b < 0 then 0 else b
  }

  lemma {:induction false} EligibleFrom(pending: seq<Pending>, satisfied: set<string>)
    requires Numbered(pending)
    ensures Numbered(Eligible(pending, satisfied))
    ensures forall x :: x in Eligible(pending, satisfied) <==> x in pending && x.id in satisfied
  {
    if pending != [] {
      var rest := pending[1..];
      assert pending == [pending[0]] + rest;
      EligibleFrom(rest, satisfied);
      var tail := Eligible(rest, satisfied);
      forall i | 0 <= i < |tail| ensures pending[0].sequence < tail[i].sequence {
        assert tail[i] in rest;
        var k :| 0 <= k < |rest| && rest[k] == tail[i];
        assert pending[k + 1] == tail[i];
      }
    }
  }

  // ----- stall detection as a property of the history -----

  datatype Event = Moved | Quietly | Observation(idle: bool, waiting: bool)

  /** Something moved since the last observation. */
  ghost function MovedSince(events: seq<Event>): bool {
    if events == [] then false
    else
      var last := events[|events| - 1];
      last.Moved? || (last.Quietly? && MovedSince(events[..|events| - 1]))
  }

  /** For every observation, whether it found the swarm standing still. */
  ghost function Observations(events: seq<Event>): seq<bool> {
    if events == [] then []
    else
      var front, last := events[..|events| - 1], events[|events| - 1];
      if last.Observation? then Observations(front) + [last.idle && last.waiting && !MovedSince(front)] else Observations(front)
  }

  function Trailing(s: seq<bool>): nat {
    if s == [] || !s[|s| - 1] then 0 else Trailing(s[..|s| - 1]) + 1
  }

  /** The run of standstills at the end is at least n long exactly when the last n observations were standstills. */
  lemma {:induction false} TrailingAtLeast(s: seq<bool>, n: nat)
    ensures Trailing(s) >= n <==> AllOfLast(s, n)
  {
    if s != [] && n > 0 {
      var front := s[..|s| - 1];
      TrailingAtLeast(front, n - 1);
      assert forall i :: 0 <= i < |front| ==> front[i] == s[i];
      if AllOfLast(s, n) { assert s[|s| - 1]; }
    }
  }

  /** The last n are all true. */
  predicate AllOfLast(s: seq<bool>, n: nat) {
    n <= |s| && forall i :: |s| - n <= i < |s| ==> s[i]
  }

  /** One observation lengthens the run of standstills, or ends it. */
  lemma {:induction false} Observe(events: seq<Event>, idle: bool, waiting: bool)
    ensures var quiet := idle && waiting && !MovedSince(events);
            && Observations(events + [Observation(idle, waiting)]) == Observations(events) + [quiet]
            && Trailing(Observations(events + [Observation(idle, waiting)])) == (if quiet then Trailing(Observations(events)) + 1 else 0)
            && !MovedSince(events + [Observation(idle, waiting)])
  {
    var all := events + [Observation(idle, waiting)];
    assert all[..|all| - 1] == events;
    var quiet := idle && waiting && !MovedSince(events);
    var o := Observations(events) + [quiet];
    assert o[..|o| - 1] == Observations(events);
  }

  lemma {:induction false} Happen(events: seq<Event>, e: Event)
    requires !e.Observation?
    ensures Observations(events + [e]) == Observations(events) && MovedSince(events + [e]) == (e.Moved? || MovedSince(events))
  {
    assert (events + [e])[..|events|] == events;
  }

  /** The queue in admission order, every agent once. */
  ghost predicate Queue(pending: seq<Pending>, known: set<string>, counter: nat) {
    && Numbered(pending) && (forall e :: e in pending ==> e.sequence < counter && e.id in known)
    && (forall i, k :: 0 <= i < k < |pending| ==> pending[i].id != pending[k].id)
  }

  ghost predicate Untouched(pending: seq<Pending>, started: set<string>) {
    forall e :: e in pending ==> e.id !in started
  }

  lemma {:induction false} AdmitQueue(pending: seq<Pending>, known: set<string>, counter: nat, e: Pending)
    requires Queue(pending, known, counter) && e.id !in known && e.sequence == counter
    ensures Queue(pending + [e], known + {e.id}, counter + 1)
  {
    assert forall i :: 0 <= i < |pending| ==> pending[i] in pending;
  }

  lemma {:induction false} WithoutQueue(pending: seq<Pending>, known: set<string>, counter: nat, started: set<string>, id: string)
    requires Queue(pending, known, counter)
    ensures Queue(Without(pending, id), known, counter)
    ensures Untouched(pending, started) ==> Untouched(Without(pending, id), started + {id})
    ensures !Waiting(pending, id) ==> Without(pending, id) == pending
  {
    WithoutNumbered(pending, id);
    WithoutMembers(pending, id);
    WithoutDistinct(pending, id);
  }

  lemma {:induction false} EvaluatedQueue(pending: seq<Pending>, known: set<string>, counter: nat, started: set<string>, satisfied: set<string>, reason: Reason)
    requires Queue(pending, known, counter)
    ensures Queue(EvaluatedAll(pending, satisfied, reason), known, counter)
    ensures Untouched(pending, started) ==> Untouched(EvaluatedAll(pending, satisfied, reason), started)
  {
    EvaluatedNumbered(pending, satisfied, reason);
    EvaluatedFrom(pending, satisfied, reason);
  }

  // ----- the class -----

  class SwarmScheduler {
    const policy: Policy
    const startedAt: int
    var pending: seq<Pending>
    var running: set<string>
    var known: set<string>
    var sequenceCounter: nat
    var startedTotal: int
    var completedTotal: nat
    var consumedTurns: nat
    var stallTicks: nat
    var worldMoved: bool
    ghost var events: seq<Event>
    ghost var everStarted: set<string>

    /** Accounting, admission order and the stall counters, whatever calls were made. */
    ghost predicate Valid()
      reads this
    {
      && ValidPolicy(policy) && startedTotal == |running| + completedTotal
      && Queue(pending, known, sequenceCounter)
      && running <= everStarted
      && stallTicks == Trailing(Observations(events)) && worldMoved == MovedSince(events)
    }

    /** Agents start only after they were admitted, and what has started is not in the queue. */
    ghost predicate Once()
      reads this
    {
      everStarted <= known && Untouched(pending, everStarted)
    }

    constructor (input: Option<PolicyInput>, startedAt: int)
      ensures Valid() && Once() && pending == [] && running == {} && known == {} && everStarted == {}
      ensures startedTotal == 0 && completedTotal == 0 && consumedTurns == 0 && this.startedAt == startedAt
      ensures if input.None? then policy == DEFAULT_POLICY else Resolves(policy, input.value)
    {
      this.policy :=
        if input.None? then DEFAULT_POLICY
        else
          var i, d := input.value, DEFAULT_POLICY;
          Policy(
            PositiveOr(i.maxConcurrent, d.maxConcurrent), PositiveOr(i.maxTotal, d.maxTotal), PositiveOr(i.maxTurns, d.maxTurns),
            PositiveOr(i.maxWallClock, d.maxWallClock), PositiveOr(i.agingInterval, d.agingInterval), PositiveOr(i.stallTicks, d.stallTicks));
      this.startedAt := startedAt;
      pending, running, known := [], {}, {};
      sequenceCounter, startedTotal, completedTotal, consumedTurns, stallTicks, worldMoved := 0, 0, 0, 0, 0, false;
      events, everStarted := [], {};
    }

    /** Records ghostly what moved the world. */
    ghost method Note(e: Event)
      requires !e.Observation?
      requires stallTicks == Trailing(Observations(events)) && worldMoved == (e.Moved? || MovedSince(events))
      modifies this`events
      ensures events == old(events) + [e]
      ensures stallTicks == Trailing(Observations(events)) && worldMoved == MovedSince(events)
    {
      Happen(events, e);
      events := events + [e];
    }

    /** Records ghostly what an observation found. */
    ghost method Witness(idle: bool, waiting: bool, moved: bool)
      requires moved == MovedSince(events) && stallTicks == Trailing(Observations(events)) && Positive(policy.stallTicks)
      modifies this`events
      ensures events == old(events) + [Observation(idle, waiting)] && !MovedSince(events)
      ensures Trailing(Observations(events)) == if idle && waiting && !moved then stallTicks + 1 else 0
      ensures policy.stallTicks.Some? ==>
                (AllOfLast(Observations(events), policy.stallTicks.value) <==> Trailing(Observations(events)) >= policy.stallTicks.value)
    {
      Observe(events, idle, waiting);
      events := events + [Observation(idle, waiting)];
      if policy.stallTicks.Some? { TrailingAtLeast(Observations(events), policy.stallTicks.value); }
    }

    method Admit(id: string, base: int, at: int) returns (admitted: bool)
      requires Valid()
      modifies this
      ensures Valid() && (old(Once()) ==> Once())
      ensures admitted <==> id !in old(known)
      ensures known == old(known) + {id} && running == old(running) && everStarted == old(everStarted)
      ensures pending == if admitted then old(pending) + [Pending(id, at, base, old(sequenceCounter), ConditionUnmet, 0)] else old(pending)
      ensures startedTotal == old(startedTotal) && completedTotal == old(completedTotal) && consumedTurns == old(consumedTurns)
      ensures events == old(events) + (if admitted then [Moved] else [])
    {
      if id in known { return false; }
      AdmitQueue(pending, known, sequenceCounter, Pending(id, at, base, sequenceCounter, ConditionUnmet, 0));
      known := known + {id};
      pending := pending + [Pending(id, at, base, sequenceCounter, ConditionUnmet, 0)];
      sequenceCounter := sequenceCounter + 1;
      worldMoved := true;
      Note(Moved);
      admitted := true;
    }

    /** Takes an agent out of the queue. */
    method Leave(id: string) returns (waiting: bool)
      requires Valid()
      modifies this`pending
      ensures Valid() && pending == Without(old(pending), id) && waiting == Waiting(old(pending), id)
      ensures old(Once()) ==> everStarted <= known && Untouched(pending, everStarted + {id})
      ensures !waiting ==> pending == old(pending)
    {
      WithoutQueue(pending, known, sequenceCounter, everStarted, id);
      waiting := Waiting(pending, id);
      pending := Without(pending, id);
    }

    method Discard(id: string)
      requires Valid()
      modifies this`pending, this`worldMoved, this`events
      ensures Valid() && (old(Once()) ==> Once())
      ensures pending == Without(old(pending), id)
      ensures events == old(events) + (if Waiting(old(pending), id) then [Moved] else [])
    {
      var waiting := Leave(id);
      if waiting {
        worldMoved := true;
        Note(Moved);
      }
    }

    /** Claims the slot of an agent, once. */
    method OnStarted(id: string)
      requires Valid()
      modifies this`pending, this`running, this`startedTotal, this`worldMoved, this`events, this`everStarted
      ensures Valid() && (old(Once()) && id in known ==> Once())
      ensures running == old(running) + {id} && everStarted == old(everStarted) + {id} && pending == Without(old(pending), id)
      ensures startedTotal == old(startedTotal) + if id in old(running) then 0 else 1
      ensures events == old(events) + (if id in old(running) then [] else [Moved])
    {
      var _ := Leave(id);
      if id in running { return; }
      Claim(id);
    }

    method Claim(id: string)
      requires Valid() && id !in running
      modifies this`running, this`startedTotal, this`worldMoved, this`events, this`everStarted
      ensures Valid() && running == old(running) + {id} && everStarted == old(everStarted) + {id}
      ensures startedTotal == old(startedTotal) + 1 && events == old(events) + [Moved]
    {
      running := running + {id};
      startedTotal := startedTotal + 1;
      worldMoved := true;
      everStarted := everStarted + {id};
      Note(Moved);
    }

    /** Gives back the slot of an agent whose start failed; this moves nothing. */
    method ReleaseSlot(id: string)
      requires Valid()
      modifies this`running, this`startedTotal, this`events
      ensures Valid() && (old(Once()) ==> Once())
      ensures running == old(running) - {id} && startedTotal == old(startedTotal) - if id in old(running) then 1 else 0
      ensures events == old(events) + [Quietly]
    {
      if id in running {
        running := running - {id};
        startedTotal := startedTotal - 1;
      }
      Note(Quietly);
    }

    method Settle(id: string)
      requires Valid()
      modifies this`running, this`completedTotal
      ensures Valid() && (old(Once()) ==> Once())
      ensures running == old(running) - {id} && completedTotal == old(completedTotal) + if id in old(running) then 1 else 0
    {
      if id in running {
        running := running - {id};
        completedTotal := completedTotal + 1;
      }
    }

    /** Counts the end of an agent only while it holds a slot. */
    method OnCompleted(id: string, turns: Option<int>)
      requires Valid()
      modifies this`running, this`completedTotal, this`consumedTurns, this`worldMoved, this`events
      ensures Valid() && (old(Once()) ==> Once())
      ensures running == old(running) - {id} && completedTotal == old(completedTotal) + if id in old(running) then 1 else 0
      ensures consumedTurns == old(consumedTurns) + if turns.Some? && turns.value > 0 then turns.value else 0
      ensures events == old(events) + [Moved]
    {
      Settle(id);
      if turns.Some? && turns.value > 0 { consumedTurns := consumedTurns + turns.value; }
      worldMoved := true;
      Note(Moved);
    }

    method NoteWorldMovement()
      requires Valid()
      modifies this`worldMoved, this`events
      ensures Valid() && (old(Once()) ==> Once()) && events == old(events) + [Moved]
    {
      worldMoved := true;
      Note(Moved);
    }

    predicate WithinBudget(at: int)
      reads this
    {
      Within(policy.maxTotal, startedTotal) && Within(policy.maxTurns, consumedTurns) && Within(policy.maxWallClock, at - startedAt)
    }

    function Slots(): Option<int>
      reads this
    {
      Floored(policy.maxConcurrent, |running|)
    }

    function Spawns(): Option<int>
      reads this
    {
      Floored(policy.maxTotal, startedTotal)
    }

    /** The agents that may start now: the first of the eligible ones, as many as slots and budget allow. */
    method SelectDispatchable(world: Option<set<string>>, budgetAt: int, sortAt: int) returns (batch: seq<string>)
      requires Valid()
      modifies this`pending
      ensures Valid() && (old(Once()) ==> Once())
      ensures Ids(pending) == Ids(old(pending))
      ensures world.None? ==> pending == old(pending)
      ensures world.None? || !old(WithinBudget(budgetAt)) ==> batch == []
      ensures world.Some? && old(WithinBudget(budgetAt)) ==>
                var eligible := Eligible(pending, world.value);
                var k := BatchSize(Slots(), Spawns(), |eligible|);
                batch == Ids(Sort(eligible, policy.agingInterval, sortAt)[..k])
      ensures world.Some? ==> pending == EvaluatedAll(old(pending), world.value, if old(WithinBudget(budgetAt)) then SlotUnavailable else BudgetExhausted)
    {
      if world.None? { return []; }
      var within := WithinBudget(budgetAt);
      var k := BatchSize(Slots(), Spawns(), |Eligible(pending, world.value)|);
      var reason := if within then SlotUnavailable else BudgetExhausted;
      EvaluatedNumbered(pending, world.value, reason);
      EvaluatedQueue(pending, known, sequenceCounter, everStarted, world.value, reason);
      pending := EvaluatedAll(pending, world.value, reason);
      if !within { return []; }
      var eligible := Eligible(pending, world.value);
      batch := Ids(Sort(eligible, policy.agingInterval, sortAt)[..k]);
    }

    /** Whether the last observations, as many as the policy asks for, all found the swarm standing still. */
    method ObserveStall() returns (stalled: bool)
      requires Valid()
      modifies this`worldMoved, this`stallTicks, this`events
      ensures Valid() && (old(Once()) ==> Once())
      ensures events == old(events) + [Observation(running == {}, pending != [])]
      ensures stalled <==> policy.stallTicks.Some? && AllOfLast(Observations(events), policy.stallTicks.value)
    {
      var moved, idle, waiting := worldMoved, running == {}, pending != [];
      worldMoved := false;
      Witness(idle, waiting, moved);
      if moved || !idle || !waiting {
        stallTicks := 0;
        return false;
      }
      stallTicks := stallTicks + 1;
      stalled := policy.stallTicks.Some? && stallTicks >= policy.stallTicks.value;
    }
  }

  predicate Waiting(pending: seq<Pending>, id: string) {
    exists i :: 0 <= i < |pending| && pending[i].id == id
  }

  function Without(pending: seq<Pending>, id: string): seq<Pending> {
    if pending == [] then [] else (if pending[0].id == id then [] else [pending[0]]) + Without(pending[1..], id)
  }

  lemma {:induction false} WithoutMembers(pending: seq<Pending>, id: string)
    ensures forall x :: x in Without(pending, id) <==> x in pending && x.id != id
    ensures !Waiting(pending, id) ==> Without(pending, id) == pending
  {
    if pending != [] {
      var rest := pending[1..];
      assert pending == [pending[0]] + rest;
      WithoutMembers(rest, id);
      if !Waiting(pending, id) {
        assert forall i :: 0 <= i < |rest| ==> rest[i] == pending[i + 1];
        assert pending[0].id != id;
      }
    }
  }

  lemma {:induction false} WithoutNumbered(pending: seq<Pending>, id: string)
    requires Numbered(pending)
    ensures Numbered(Without(pending, id))
  {
    if pending != [] {
      var rest := pending[1..];
      assert forall i :: 0 <= i < |rest| ==> rest[i] == pending[i + 1];
      WithoutNumbered(rest, id);
      WithoutMembers(rest, id);
      var tail := Without(rest, id);
      forall i | 0 <= i < |tail| ensures pending[0].sequence < tail[i].sequence {
        assert tail[i] in rest;
        var k :| 0 <= k < |rest| && rest[k] == tail[i];
      }
    }
  }

  lemma {:induction false} WithoutDistinct(pending: seq<Pending>, id: string)
    requires forall i, k :: 0 <= i < k < |pending| ==> pending[i].id != pending[k].id
    ensures forall i, k :: 0 <= i < k < |Without(pending, id)| ==> Without(pending, id)[i].id != Without(pending, id)[k].id
  {
    if pending != [] {
      var rest := pending[1..];
      assert forall i :: 0 <= i < |rest| ==> rest[i] == pending[i + 1];
      WithoutDistinct(rest, id);
      WithoutMembers(rest, id);
      var tail := Without(rest, id);
      forall i | 0 <= i < |tail| ensures pending[0].id != tail[i].id {
        assert tail[i] in rest;
        var k :| 0 <= k < |rest| && rest[k] == tail[i];
      }
    }
  }

  lemma {:induction false} EvaluatedNumbered(pending: seq<Pending>, satisfied: set<string>, reason: Reason)
    requires Numbered(pending)
    ensures Numbered(EvaluatedAll(pending, satisfied, reason)) && Ids(EvaluatedAll(pending, satisfied, reason)) == Ids(pending)
    ensures |Eligible(EvaluatedAll(pending, satisfied, reason), satisfied)| == |Eligible(pending, satisfied)|
  {
    if pending != [] {
      var r := EvaluatedAll(pending, satisfied, reason);
      assert r[1..] == EvaluatedAll(pending[1..], satisfied, reason);
      EvaluatedNumbered(pending[1..], satisfied, reason);
    }
  }

  lemma {:induction false} EvaluatedFrom(pending: seq<Pending>, satisfied: set<string>, reason: Reason)
    ensures forall e :: e in EvaluatedAll(pending, satisfied, reason) ==> exists x :: x in pending && x.id == e.id && x.sequence == e.sequence
    ensures forall i :: 0 <= i < |pending| ==> EvaluatedAll(pending, satisfied, reason)[i].id == pending[i].id
  {
    forall e | e in EvaluatedAll(pending, satisfied, reason) ensures exists x :: x in pending && x.id == e.id && x.sequence == e.sequence {
      var i :| 0 <= i < |pending| && EvaluatedAll(pending, satisfied, reason)[i] == e;
      assert pending[i] in pending;
    }
  }
}
