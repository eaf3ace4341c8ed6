/** What may leave the ledger, and when an external tool is executed. */
module LedgerSafety {
  import opened Options
  import opened Ledger
  import opened ToolGroups

  /** Every entry says under its key what failed. */
  predicate Shaped(e: Entry) {
    match e.key
    case DoneKey => e.failure.tool == "done" && e.failure.recovery.None?
    case ExactKey(tool, arguments) =>
      e.failure.tool == tool && e.failure.recovery.None? && e.failure.meaning == if IsExternal(tool) then Some(ByArguments(tool, arguments)) else None
    case ObservationKey(tool, callId, outputRef) =>
      && e.failure.tool == tool && e.failure.callId == callId && e.failure.recovery.Some?
      && tool == EXTERNAL + e.failure.recovery.value.tool && e.failure.recovery.value.callId == callId
      && e.failure.recovery.value.outputRef == outputRef && e.failure.meaning == Some(ByDigest(tool, e.failure.recovery.value.digest))
  }

  ghost predicate Good(u: seq<Entry>) {
    DistinctKeys(u) && forall e :: e in u ==> Shaped(e)
  }

  predicate SamePending(a: Entry, b: Entry) {
    && a.failure.recovery.Some? && b.failure.recovery.Some? && a.failure.tool == b.failure.tool
    && a.failure.recovery.value.digest == b.failure.recovery.value.digest
  }

  /** At most one stored output per tool and argument digest awaits its observation. */
  ghost predicate OnePending(u: seq<Entry>) {
    forall a, b :: a in u && b in u && SamePending(a, b) ==> a == b
  }

  lemma {:induction false} FailedShaped(call: ToolCall)
    ensures Shaped(FailedEntry(call)) && FailedEntry(call).failure.recovery.None?
  {
  }

  lemma {:induction false} ObservationShaped(call: ToolCall, r: Recovery)
    requires IsExternal(call.name) && r.tool == call.name[|EXTERNAL|..] && r.callId == call.id
    ensures Shaped(ObservationEntry(call.name, call.id, r))
  {
    assert EXTERNAL + call.name[|EXTERNAL|..] == call.name;
  }

  lemma {:induction false} RestoredGood(pending: seq<Recovery>)
    ensures Good(Restored(pending))
    ensures forall e :: e in Restored(pending) ==> e.failure.recovery.Some? && e.failure.recovery.value in pending
  {
    if pending != [] {
      var front, r := pending[..|pending| - 1], pending[|pending| - 1];
      RestoredGood(front);
      PutEntries(Restored(front), ObservationEntry(EXTERNAL + r.tool, r.callId, r));
    }
  }

  lemma {:induction false} RestoredOnePending(pending: seq<Recovery>)
    requires forall a, b :: a in pending && b in pending && a.tool == b.tool && a.digest == b.digest ==> a == b
    ensures OnePending(Restored(pending))
  {
    RestoredGood(pending);
    var u := Restored(pending);
    forall a, b | a in u && b in u && SamePending(a, b) ensures a == b {
      assert Shaped(a) && Shaped(b);
      assert a.failure.tool[|EXTERNAL|..] == a.failure.recovery.value.tool;
      assert b.failure.tool[|EXTERNAL|..] == b.failure.recovery.value.tool;
      assert a.key == b.key;
    }
  }

  /** A ledger resumed from the pending observations of a run has at most one of each again. */
  lemma {:induction false} ResumedOnePending(u: seq<Entry>, pending: seq<Recovery>)
    requires Good(u) && OnePending(u)
    requires forall r :: r in pending <==> exists e :: e in u && e.failure.recovery == Some(r)
    ensures Good(Restored(pending)) && OnePending(Restored(pending))
  {
    RestoredGood(pending);
    forall a, b | a in pending && b in pending && a.tool == b.tool && a.digest == b.digest ensures a == b {
      var x :| x in u && x.failure.recovery == Some(a);
      var y :| y in u && y.failure.recovery == Some(b);
      assert Shaped(x) && Shaped(y);
      assert SamePending(x, y);
    }
    RestoredOnePending(pending);
  }

  // ----- an external tool is executed only when nothing about it is unresolved -----

  /** The executor is asked exactly for a plain call about which no failure is unresolved. */
  lemma {:induction false} ExecutedWhen(u: seq<Entry>, call: ToolCall)
    ensures Decide(u, call) == UseTool <==> RecoveryOf(call).None? && forall e :: e in u ==> !SameInvocation(e, call)
  {
    if RecoveryOf(call).None? {
      if PendingForExactRetry(u, call).Some? {
        var matches := Matches(u, (e: Entry) => e.failure.tool == call.name && e.failure.meaning == Some(ByDigest(call.name, Hash(Execution(call)))) && e.failure.recovery.Some?);
        assert matches[0] in u && SameInvocation(matches[0], call);
      }
      assert UnresolvedExact(u, call) <==> exists e :: e in u && SameInvocation(e, call);
    }
  }

  /** A stored observation is retried without the executor, and only one that is pending for this tool. */
  lemma {:induction false} RetriedWhen(u: seq<Entry>, call: ToolCall)
    requires Decide(u, call).Retry?
    ensures exists e :: e in u && e.failure.recovery == Some(Decide(u, call).recovery) && e.failure.tool == call.name
  {
    if RecoveryOf(call).None? {
      var matches := Matches(u, (e: Entry) => e.failure.tool == call.name && e.failure.meaning == Some(ByDigest(call.name, Hash(Execution(call)))) && e.failure.recovery.Some?);
      assert matches[0] in u;
    } else {
      var of := RecoveryOf(call).value;
      var matches := Matches(u, (e: Entry) => e.failure.tool == call.name && Text(e.failure.callId) == of && e.failure.recovery.Some?);
      assert matches[0] in u;
    }
  }

  // ----- what one call can do to the ledger -----

  /** The entry a handled call adds, if any. */
  function Added(call: ToolCall, d: Dispatched): Option<Entry> {
    if d.Threw? then Some(FailedEntry(call))
    else if d.isDone then None
    else if d.failed.Some? then Some(ObservationEntry(call.name, call.id, d.failed.value))
    else if d.ok || !d.affects then None
    else Some(FailedEntry(call))
  }

  /** The key a handled call clears, if any. */
  function ClearedBy(u: seq<Entry>, call: ToolCall, isLast: bool, d: Dispatched): Option<Key> {
    if d.Threw? || (d.Dispatched? && !d.ok) || (d.Dispatched? && d.failed.Some?) then None
    else if d.isDone then (if isLast then Some(DoneKey) else None)
    else if d.retried.Some? then
      var matches := Matches(u, SameReceipt(d.retried.value));
      if matches == [] then None else Some(matches[0].key)
    else if d.affects then Cleared(u, call)
    else None
  }

  predicate Stays(u: seq<Entry>, call: ToolCall, isLast: bool, d: Dispatched, k: Key) {
    ClearedBy(u, call, isLast, d) != Some(k) && (Added(call, d).Some? ==> Added(call, d).value.key != k)
  }

  /** A handled call changes nothing in the ledger but these two entries. */
  lemma {:induction false} HandleEntries(u: seq<Entry>, call: ToolCall, isLast: bool, d: Dispatched)
    requires DistinctKeys(u) && (d.Dispatched? && d.isDone ==> d.ok && d.failed.None?)
    ensures var v := Handle(u, call, isLast, d).unresolved;
            DistinctKeys(v) && forall e :: e in v <==> (Added(call, d) == Some(e) || (e in u && Stays(u, call, isLast, d, e.key)))
  {
    if Added(call, d).Some? { PutEntries(u, Added(call, d).value); }
    if ClearedBy(u, call, isLast, d).Some? { RemoveEntries(u, ClearedBy(u, call, isLast, d).value); }
  }

  /** A stored output without its observation comes from an execution that nothing unresolved stood against. */
  lemma {:induction false} ObservationFrom(u: seq<Entry>, call: ToolCall, w: World)
    requires Dispatch(u, call, w).Dispatched? && Dispatch(u, call, w).failed.Some?
    ensures IsExternal(call.name) && Decide(u, call) == UseTool && ValidToolResult(call, w) && Dispatch(u, call, w).failed == w.recovery
  {
  }

  lemma {:induction false} AddedFrom(u: seq<Entry>, call: ToolCall, w: World)
    requires Added(call, Dispatch(u, call, w)).Some?
    ensures var e := Added(call, Dispatch(u, call, w)).value;
            && Shaped(e)
            && (e.failure.recovery.Some? ==> IsExternal(call.name) && Decide(u, call) == UseTool && e.failure.tool == call.name
                                             && e.failure.recovery.value.digest == Hash(Execution(call)))
  {
    var d := Dispatch(u, call, w);
    if d.Dispatched? && d.failed.Some? {
      ObservationFrom(u, call, w);
      ObservationShaped(call, d.failed.value);
    } else {
      FailedShaped(call);
    }
  }

  lemma {:induction false} ExecuteKeepsGood(u: seq<Entry>, call: ToolCall, isLast: bool, w: World)
    requires Good(u)
    ensures Good(ExecuteOne(u, call, isLast, w).unresolved)
  {
    if !w.stopped {
      var d := Dispatch(u, call, w);
      HandleEntries(u, call, isLast, d);
      if Added(call, d).Some? { AddedFrom(u, call, w); }
    }
  }

  lemma {:induction false} ExecuteKeepsOnePending(u: seq<Entry>, call: ToolCall, isLast: bool, w: World)
    requires Good(u) && OnePending(u)
    ensures OnePending(ExecuteOne(u, call, isLast, w).unresolved)
  {
    if !w.stopped {
      var d := Dispatch(u, call, w);
      HandleEntries(u, call, isLast, d);
      if Added(call, d).Some? {
        AddedFrom(u, call, w);
        ExecutedWhen(u, call);
        var e := Added(call, d).value;
        forall a | a in u ensures !SamePending(a, e) && !SamePending(e, a) {
          assert Shaped(a);
        }
      }
    }
  }

  /** Why a call may clear an entry: it is the same target, names it, observed its output, or completes. */
  predicate Justifies(call: ToolCall, d: Dispatched, e: Entry) {
    && d.Dispatched? && d.ok
    && ((call.name == "done" && e.key == DoneKey)
        || (!IsExternal(call.name) && RecoveryOf(call).None? && e.key == ResolutionKey(call))
        || (SupportsGenericRecovery(call.name) && RecoveryOf(call) == Some(Text(e.failure.callId)) && e.failure.tool == call.name)
        || (d.retried.Some? && SameReceipt(d.retried.value)(e)))
  }

  lemma {:induction false} MatchedFirst(u: seq<Entry>, p: Entry -> bool, e: Entry)
    requires DistinctKeys(u) && Matches(u, p) != [] && Matches(u, p)[0].key == e.key && e in u
    ensures p(e)
  {
    var m := Matches(u, p)[0];
    assert m in Matches(u, p) && m in u;
    var i :| 0 <= i < |u| && u[i] == m;
    var k :| 0 <= k < |u| && u[k] == e;
  }

  /** No unrelated success clears a failure. */
  lemma {:induction false} ClearedOnlyWhenJustified(u: seq<Entry>, call: ToolCall, isLast: bool, w: World, e: Entry)
    requires Good(u) && e in u && ClearedBy(u, call, isLast, Dispatch(u, call, w)) == Some(e.key)
    ensures Justifies(call, Dispatch(u, call, w), e)
  {
    var d := Dispatch(u, call, w);
    if d.isDone {
    } else if d.retried.Some? {
      MatchedFirst(u, SameReceipt(d.retried.value), e);
    } else if RecoveryOf(call).Some? {
      var of := RecoveryOf(call).value;
      MatchedFirst(u, (x: Entry) => Text(x.failure.callId) == of && x.failure.tool == call.name, e);
    }
  }

  /** An external failure without a stored output can never be cleared again. */
  predicate Permanent(k: Key) {
    k.ExactKey? && IsExternal(k.tool)
  }

  lemma {:induction false} PermanentStays(u: seq<Entry>, call: ToolCall, isLast: bool, w: World, e: Entry)
    requires Good(u) && e in u && Permanent(e.key)
    ensures exists x :: x in ExecuteOne(u, call, isLast, w).unresolved && x.key == e.key
  {
    if !w.stopped {
      var d := Dispatch(u, call, w);
      HandleEntries(u, call, isLast, d);
      assert Shaped(e);
      if ClearedBy(u, call, isLast, d) == Some(e.key) { ClearedOnlyWhenJustified(u, call, isLast, w, e); }
      if Added(call, d).Some? && Added(call, d).value.key == e.key { assert Added(call, d).value in ExecuteOne(u, call, isLast, w).unresolved; }
    }
  }

  /** The call observed the stored output the entry waits for. */
  predicate Observes(u: seq<Entry>, call: ToolCall, w: World, e: Entry) {
    var d := Dispatch(u, call, w);
    !w.stopped && d.Dispatched? && d.ok && d.retried.Some? && SameReceipt(d.retried.value)(e)
  }

  /** The call stores the same output under the same tool and call id, for another receipt. */
  predicate Replaces(d: Dispatched, call: ToolCall, e: Entry)
    requires e.failure.recovery.Some?
  {
    && d.Dispatched? && d.failed.Some? && d.failed != e.failure.recovery
    && call.name == e.failure.tool && call.id == e.failure.callId && d.failed.value.outputRef == e.failure.recovery.value.outputRef
  }

  /** A pending observation leaves the ledger exactly when a retry clears it or a later call replaces it. */
  lemma {:induction false} PendingLeaves(u: seq<Entry>, call: ToolCall, isLast: bool, w: World, e: Entry)
    requires Good(u) && e in u && e.failure.recovery.Some? && !w.stopped
    ensures var d := Dispatch(u, call, w);
            e !in ExecuteOne(u, call, isLast, w).unresolved
            <==> (d.Dispatched? && d.ok && d.retried.Some? && ClearedBy(u, call, isLast, d) == Some(e.key)) || Replaces(d, call, e)
  {
    var d := Dispatch(u, call, w);
    HandleEntries(u, call, isLast, d);
    assert Shaped(e);
    if ClearedBy(u, call, isLast, d) == Some(e.key) { ClearedOnlyWhenJustified(u, call, isLast, w, e); }
    if Added(call, d).Some? { AddedFrom(u, call, w); }
  }

  /** Unless its call id is used again for the same tool, a pending observation stays until its output is observed. */
  lemma {:induction false} PendingStays(u: seq<Entry>, call: ToolCall, isLast: bool, w: World, e: Entry)
    requires Good(u) && e in u && e.failure.recovery.Some?
    requires call.name != e.failure.tool || call.id != e.failure.callId
    ensures e in ExecuteOne(u, call, isLast, w).unresolved || Observes(u, call, w, e)
  {
    if !w.stopped {
      PendingLeaves(u, call, isLast, w, e);
      if ClearedBy(u, call, isLast, Dispatch(u, call, w)) == Some(e.key) { ClearedOnlyWhenJustified(u, call, isLast, w, e); }
    }
  }

  function Plain(x: string): ToolCall {
    ToolCall("c1", "tool:t", map["x" := Text(x)], "")
  }

  /** The output is the same for all arguments, the receipt is not. */
  function Stored(call: ToolCall): Recovery {
    Recovery("t", "c1", Hash(call.arguments), Hash(map[]), Hash(call.arguments))
  }

  lemma {:induction false} PlainCall(x: string)
    ensures IsExternal(Plain(x).name) && Plain(x).name[|EXTERNAL|..] == "t" && EXTERNAL + "t" == "tool:t"
    ensures Execution(Plain(x)) == Plain(x).arguments && RecoveryOf(Plain(x)).None?
    ensures Plain(x).name != "done" && Plain(x).name != "read_content" && Plain(x).name != "write_content" && Plain(x).name != RETRY_TOOL_OBSERVATION
  {
    assert Plain(x).arguments.Keys == {"x"} && "x" != RECOVERY_ARGUMENT;
  }

  /** What the environment answers when an output was stored but not observed. */
  function Unobserved(r: Recovery): World {
    World(false, false, false, "", Some(r.outputRef), Some(r), false)
  }

  lemma {:induction false} StoresOutput(u: seq<Entry>, x: string)
    requires forall e :: e in u ==> !SameInvocation(e, Plain(x))
    ensures var d := Dispatch(u, Plain(x), Unobserved(Stored(Plain(x)))); d.Dispatched? && d.failed == Some(Stored(Plain(x)))
  {
    PlainCall(x);
    ExecutedWhen(u, Plain(x));
    assert ValidToolResult(Plain(x), Unobserved(Stored(Plain(x))));
  }

  /**
   * With a call id used twice a pending observation is replaced, and the executor is asked again for the same
   * tool and arguments although the first output was never observed.
   */
  lemma {:induction false} PendingLost(e: Entry)
    requires e == ObservationEntry("tool:t", "c1", Stored(Plain("1")))
    ensures var v := ExecuteOne([e], Plain("2"), true, Unobserved(Stored(Plain("2")))).unresolved;
            Good([e]) && e !in v && Decide(v, Plain("1")) == UseTool
  {
    PlainCall("1");
    PlainCall("2");
    ObservationShaped(Plain("1"), Stored(Plain("1")));
    assert Plain("1").arguments["x"] != Plain("2").arguments["x"];
    StoresOutput([e], "2");
    HandleEntries([e], Plain("2"), true, Dispatch([e], Plain("2"), Unobserved(Stored(Plain("2")))));
    var v := ExecuteOne([e], Plain("2"), true, Unobserved(Stored(Plain("2")))).unresolved;
    forall x | x in v ensures !SameInvocation(x, Plain("1")) {
      assert x == ObservationEntry("tool:t", "c1", Stored(Plain("2"))) || x == e;
    }
    ExecutedWhen(v, Plain("1"));
  }

  // ----- whole groups -----

  lemma {:induction false} GroupKeepsGood(u: seq<Entry>, calls: seq<ToolCall>, worlds: seq<World>, i: nat)
    requires i <= |calls| == |worlds| && Good(u)
    ensures Good(GroupStep(u, calls, worlds, i).unresolved)
    ensures OnePending(u) ==> OnePending(GroupStep(u, calls, worlds, i).unresolved)
    decreases |calls| - i
  {
    if i < |calls| {
      var s := ExecuteOne(u, calls[i], i == |calls| - 1, worlds[i]);
      ExecuteKeepsGood(u, calls[i], i == |calls| - 1, worlds[i]);
      if OnePending(u) { ExecuteKeepsOnePending(u, calls[i], i == |calls| - 1, worlds[i]); }
      if s.end == Continue { GroupKeepsGood(s.unresolved, calls, worlds, i + 1); }
    }
  }

  lemma {:induction false} GroupKeepsPermanent(u: seq<Entry>, calls: seq<ToolCall>, worlds: seq<World>, i: nat, e: Entry)
    requires i <= |calls| == |worlds| && Good(u) && e in u && Permanent(e.key)
    ensures exists x :: x in GroupStep(u, calls, worlds, i).unresolved && x.key == e.key
    decreases |calls| - i
  {
    if i < |calls| {
      var s := ExecuteOne(u, calls[i], i == |calls| - 1, worlds[i]);
      ExecuteKeepsGood(u, calls[i], i == |calls| - 1, worlds[i]);
      PermanentStays(u, calls[i], i == |calls| - 1, worlds[i], e);
      if s.end == Continue {
        var x :| x in s.unresolved && x.key == e.key;
        GroupKeepsPermanent(s.unresolved, calls, worlds, i + 1, x);
      }
    }
  }

  /** The ledger before call i of a group, if execution gets there. */
  function Before(u: seq<Entry>, calls: seq<ToolCall>, worlds: seq<World>, i: nat): Option<seq<Entry>>
    requires i <= |calls| == |worlds|
  {
    if i == 0 then Some(u)
    else
      var v := Before(u, calls, worlds, i - 1);
      if v.None? then None
      else
        var s := ExecuteOne(v.value, calls[i - 1], i == |calls|, worlds[i - 1]);
        if s.end == Continue then Some(s.unresolved) else None
  }

  lemma {:induction false} GroupFrom(u: seq<Entry>, calls: seq<ToolCall>, worlds: seq<World>, i: nat)
    requires i <= |calls| == |worlds| && Good(u) && Before(u, calls, worlds, i).Some?
    ensures Good(Before(u, calls, worlds, i).value)
    ensures GroupStep(u, calls, worlds, 0) == GroupStep(Before(u, calls, worlds, i).value, calls, worlds, i)
  {
    if i > 0 {
      GroupFrom(u, calls, worlds, i - 1);
      OneStep(Before(u, calls, worlds, i - 1).value, calls, worlds, i);
    }
  }

  lemma {:induction false} OneStep(v: seq<Entry>, calls: seq<ToolCall>, worlds: seq<World>, i: nat)
    requires 0 < i <= |calls| == |worlds| && Good(v)
    ensures var s := ExecuteOne(v, calls[i - 1], i == |calls|, worlds[i - 1]);
            Good(s.unresolved) && (s.end == Continue ==> GroupStep(v, calls, worlds, i - 1) == GroupStep(s.unresolved, calls, worlds, i))
  {
    ExecuteKeepsGood(v, calls[i - 1], i == |calls|, worlds[i - 1]);
  }

  /** An external call that ran and failed without a stored output, or whose executor threw. */
  predicate FailsForGood(u: seq<Entry>, call: ToolCall, w: World) {
    !w.stopped && Added(call, Dispatch(u, call, w)).Some? && Permanent(Added(call, Dispatch(u, call, w)).value.key)
  }

  lemma {:induction false} FailsForGoodHere(u: seq<Entry>, call: ToolCall, isLast: bool, w: World) returns (e: Entry)
    requires Good(u) && FailsForGood(u, call, w)
    ensures e in ExecuteOne(u, call, isLast, w).unresolved && Permanent(e.key)
  {
    e := Added(call, Dispatch(u, call, w)).value;
    HandleEntries(u, call, isLast, Dispatch(u, call, w));
  }

  lemma {:induction false} FailureStays(u: seq<Entry>, calls: seq<ToolCall>, worlds: seq<World>, i: nat)
    requires i < |calls| == |worlds| && Good(u) && FailsForGood(u, calls[i], worlds[i])
    ensures exists x :: x in GroupStep(u, calls, worlds, i).unresolved && Permanent(x.key)
  {
    var e := FailsForGoodHere(u, calls[i], i == |calls| - 1, worlds[i]);
    var s := ExecuteOne(u, calls[i], i == |calls| - 1, worlds[i]);
    if s.end == Continue {
      ExecuteKeepsGood(u, calls[i], i == |calls| - 1, worlds[i]);
      GroupKeepsPermanent(s.unresolved, calls, worlds, i + 1, e);
    }
  }

  /** Call i of a group is reached, and fails for good. */
  predicate FailsAt(u: seq<Entry>, calls: seq<ToolCall>, worlds: seq<World>, i: nat)
    requires |calls| == |worlds|
  {
    i < |calls| && Before(u, calls, worlds, i).Some? && FailsForGood(Before(u, calls, worlds, i).value, calls[i], worlds[i])
  }

  lemma {:induction false} FailureStaysInGroup(u: seq<Entry>, calls: seq<ToolCall>, worlds: seq<World>, i: nat)
    requires |calls| == |worlds| && Good(u) && FailsAt(u, calls, worlds, i)
    ensures exists x :: x in GroupStep(u, calls, worlds, 0).unresolved && Permanent(x.key)
  {
    GroupFrom(u, calls, worlds, i);
    FailureStays(Before(u, calls, worlds, i).value, calls, worlds, i);
  }

  // ----- pending observations over a whole group -----

  /** No call uses the call id of the entry again for the same tool. */
  ghost predicate FreshFor(calls: seq<ToolCall>, e: Entry) {
    forall c :: c in calls ==> c.name != e.failure.tool || c.id != e.failure.callId
  }

  /** From call i on, some call that is reached observes the stored output the entry waits for. */
  predicate ObservedFrom(u: seq<Entry>, calls: seq<ToolCall>, worlds: seq<World>, i: nat, e: Entry)
    requires i <= |calls| == |worlds|
    decreases |calls| - i
  {
    i < |calls| && (
      || Observes(u, calls[i], worlds[i], e)
      || (var s := ExecuteOne(u, calls[i], i == |calls| - 1, worlds[i]);
          s.end == Continue && ObservedFrom(s.unresolved, calls, worlds, i + 1, e)))
  }

  /** The call reaches the executor of an external tool with the tool and arguments of the entry. */
  predicate AsksExecutor(u: seq<Entry>, call: ToolCall, w: World, e: Entry) {
    !w.stopped && SameInvocation(e, call) && Decide(u, call) == UseTool
  }

  /** From call i on, the executor is asked for the tool and arguments of the entry before its output is observed. */
  predicate AskedFrom(u: seq<Entry>, calls: seq<ToolCall>, worlds: seq<World>, i: nat, e: Entry)
    requires i <= |calls| == |worlds|
    decreases |calls| - i
  {
    i < |calls| && (
      || AsksExecutor(u, calls[i], worlds[i], e)
      || (var s := ExecuteOne(u, calls[i], i == |calls| - 1, worlds[i]);
          !Observes(u, calls[i], worlds[i], e) && s.end == Continue && AskedFrom(s.unresolved, calls, worlds, i + 1, e)))
  }

  /** A pending observation survives a group unless it is observed, and until then its call is not executed again. */
  lemma {:induction false} GroupKeepsPending(u: seq<Entry>, calls: seq<ToolCall>, worlds: seq<World>, i: nat, e: Entry)
    requires i <= |calls| == |worlds| && Good(u) && FreshFor(calls, e) && e in u && e.failure.recovery.Some?
    ensures e in GroupStep(u, calls, worlds, i).unresolved || ObservedFrom(u, calls, worlds, i, e)
    ensures !AskedFrom(u, calls, worlds, i, e)
    decreases |calls| - i
  {
    if i < |calls| {
      ExecutedWhen(u, calls[i]);
      var s := ExecuteOne(u, calls[i], i == |calls| - 1, worlds[i]);
      PendingStays(u, calls[i], i == |calls| - 1, worlds[i], e);
      if e in s.unresolved && s.end == Continue {
        ExecuteKeepsGood(u, calls[i], i == |calls| - 1, worlds[i]);
        GroupKeepsPending(s.unresolved, calls, worlds, i + 1, e);
      }
    }
  }

}
