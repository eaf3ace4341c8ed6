/** Dispatch and execution of the tool calls of one response. */
module ToolGroups {
  import opened Options
  import opened Text
  import opened Transcript
  import opened Ledger

  const RETRY_TOOL_OBSERVATION := "retry_tool_observation"
  const SKIPPED := "[SKIPPED: NOT EXECUTED]"

  /** Stands for the error text of a refused or failed call. */
  const ERROR := "[ERROR] "

  /** What the environment answers while one call is handled. */
  datatype World = World(stopped: bool, throws: bool, ok: bool, output: string, contentRef: Option<Value>, recovery: Option<Recovery>, warned: bool)

  datatype Dispatched =
    | Threw
    | Dispatched(content: string, isDone: bool, ok: bool, coordination: bool, affects: bool, failed: Option<Recovery>, retried: Option<Recovery>)

  function Answered(content: string, ok: bool): Dispatched {
    Dispatched(content, false, ok, false, true, None, None)
  }

  /** A protocol refusal: it neither records nor clears a failure. */
  function Refused(content: string): Dispatched {
    Dispatched(content, false, false, false, false, None, None)
  }

  /** The text of a string argument. */
  function Shown(v: Value): string {
    match v
    case Text(text) => text
    case Hash(_) => "sha256"
    case Other(_) => ""
  }

  predicate Blank(v: Value) {
    SkipSpaces(Shown(v)) == []
  }

  function Argument(call: ToolCall, name: string): Value {
    StringOr(call.arguments, name, Text(""))
  }

  function ParseRecovery(call: ToolCall): Option<Recovery> {
    var tool, callId := Argument(call, "toolName"), Argument(call, "originalToolCallId");
    var digest, output, receipt := Argument(call, "argumentsDigest"), Argument(call, "outputRef"), Argument(call, "receiptRef");
    if Shown(tool) == "" || Shown(callId) == "" || !digest.Hash? || !output.Hash? || !receipt.Hash? then None
    else Some(Recovery(Shown(tool), Shown(callId), digest, output, receipt))
  }

  // ----- external tools -----

  datatype Decision = Retry(recovery: Recovery) | Refuse | UseTool

  /** Whether an external call re-observes a stored output, is refused, or is executed. */
  function Decide(u: seq<Entry>, call: ToolCall): Decision {
    var of := RecoveryOf(call);
    var pending := if of.None? then PendingForExactRetry(u, call) else PendingForCall(u, call.name, of.value);
    if of.Some? && pending.None? then Refuse
    else if pending.Some? then Retry(pending.value)
    else if UnresolvedExact(u, call) then Refuse
    else UseTool
  }

  /** A tool result whose recovery identity is not the one of this very call is rejected. */
  predicate ValidToolResult(call: ToolCall, w: World)
    requires IsExternal(call.name)
  {
    && (w.recovery.Some? ==>
          && !w.ok && w.contentRef == Some(w.recovery.value.outputRef)
          && w.recovery.value.tool == call.name[|EXTERNAL|..] && w.recovery.value.callId == call.id
          && w.recovery.value.digest == Hash(Execution(call)))
    && (w.ok ==> w.contentRef.Some? && !w.warned)
  }

  predicate ValidRetryResult(r: Recovery, w: World) {
    if w.ok then w.contentRef == Some(r.outputRef) && !w.warned else w.contentRef.None?
  }

  function RetryStored(r: Recovery, w: World): Dispatched {
    if w.throws || !ValidRetryResult(r, w) then Threw
    else Dispatched(w.output, false, w.ok, false, w.ok, None, Some(r))
  }

  function DispatchExternal(u: seq<Entry>, call: ToolCall, w: World): (d: Dispatched)
    requires IsExternal(call.name)
    ensures d.Dispatched? ==> !d.isDone && (d.failed.Some? ==> Decide(u, call) == UseTool && ValidToolResult(call, w) && d.failed == w.recovery)
  {
    match Decide(u, call)
    case Refuse => Refused(ERROR)
    case Retry(r) => RetryStored(r, w)
    case UseTool =>
      if w.throws || !ValidToolResult(call, w) then Threw
      else Dispatched(w.output, false, w.ok, false, true, w.recovery, None)
  }

  function DispatchRetry(u: seq<Entry>, call: ToolCall, w: World): (d: Dispatched)
    ensures d.Dispatched? ==> !d.isDone && d.failed.None?
  {
    var r := ParseRecovery(call);
    if r.None? then Refused(ERROR)
    else if PendingForCall(u, EXTERNAL + r.value.tool, Text(r.value.callId)) != r then Refused(ERROR)
    else RetryStored(r.value, w)
  }

  function Dispatch(u: seq<Entry>, call: ToolCall, w: World): (d: Dispatched)
    ensures d.Dispatched? && d.isDone ==> d.ok && call.name == "done"
    ensures d.Dispatched? && d.failed.Some? ==> IsExternal(call.name) && d == DispatchExternal(u, call, w)
  {
    if call.name == "done" then
      if Blank(Argument(call, "summary")) then Answered(ERROR, false)
      else Dispatched(Shown(Argument(call, "summary")), true, true, false, true, None, None)
    else if call.name == "read_content" then
      if Argument(call, "ref") == Text("") then Answered(ERROR, false)
      else if w.throws then Threw else Answered(w.output, w.ok)
    else if call.name == "write_content" then
      if Argument(call, "content") == Text("") then Answered(ERROR, false)
      else if w.throws then Threw else Answered(w.output, true)
    else if call.name == RETRY_TOOL_OBSERVATION then DispatchRetry(u, call, w)
    else if IsExternal(call.name) then DispatchExternal(u, call, w)
    else if exists k :: k in Execution(call) && Execution(call)[k].Other? then
      Dispatched(ERROR, false, false, true, true, None, None)
    else if w.throws then Threw else Dispatched(w.output, false, w.ok, true, true, None, None)
  }

  predicate IsCoordination(name: string) {
    name != "done" && !SupportsGenericRecovery(name) && name != RETRY_TOOL_OBSERVATION && !IsExternal(name)
  }

  // ----- one call -----

  datatype End = Continue | Terminal | DoneSignaled

  datatype Step = Step(unresolved: seq<Entry>, result: Option<string>, end: End)

  function Recorded(u: seq<Entry>, call: ToolCall, d: Dispatched): seq<Entry>
    requires d.Dispatched?
  {
    if d.failed.Some? then Put(u, ObservationEntry(call.name, call.id, d.failed.value))
    else if d.retried.Some? && d.ok then Observed(u, d.retried.value)
    else if !d.affects then u
    else if d.ok then Succeeded(u, call)
    else Put(u, FailedEntry(call))
  }

  /** What the ledger and the transcript become after a dispatch. */
  function Handle(u: seq<Entry>, call: ToolCall, isLast: bool, d: Dispatched): Step {
    if d.Threw? then Step(Put(u, FailedEntry(call)), Some(ERROR + call.name), Terminal)
    else if d.isDone then
      if !isLast then Step(u, Some(ERROR), Terminal)
      else
        var cleared := Remove(u, DoneKey);
        Step(cleared, Some(if cleared == [] then d.content else ERROR), DoneSignaled)
    else Step(Recorded(u, call, d), Some(d.content), if !d.ok && !d.affects then Terminal else Continue)
  }

  /** One call, with the run limits checked first. */
  function ExecuteOne(u: seq<Entry>, call: ToolCall, isLast: bool, w: World): Step {
    if w.stopped then Step(u, None, Terminal) else Handle(u, call, isLast, Dispatch(u, call, w))
  }

  /** The ledger after a group, and how it ended. */
  function GroupStep(u: seq<Entry>, calls: seq<ToolCall>, worlds: seq<World>, i: nat): Step
    requires i <= |calls| == |worlds|
    decreases |calls| - i
  {
    if i == |calls| then Step(u, None, Continue)
    else
      var s := ExecuteOne(u, calls[i], i == |calls| - 1, worlds[i]);
      if s.end == Continue then GroupStep(s.unresolved, calls, worlds, i + 1) else s
  }

  ghost predicate DistinctIds(calls: seq<ToolCall>) {
    forall i, k :: 0 <= i < k < |calls| ==> calls[i].id != calls[k].id
  }

  function CallOf(call: ToolCall): Call {
    Call(call.id, call.name, call.printed)
  }

  function CallsOf(calls: seq<ToolCall>): (r: seq<Call>)
    ensures |r| == |calls|
  {
    seq(|calls|, i requires 0 <= i < |calls| => CallOf(calls[i]))
  }

  // ----- execution order -----

  function Named(calls: seq<ToolCall>, done: bool): seq<ToolCall> {
    if calls == [] then [] else (if (calls[0].name == "done") == done then [calls[0]] else []) + Named(calls[1..], done)
  }

  /** Completion is executed after the substantive calls of the same response. */
  function Ordered(calls: seq<ToolCall>): seq<ToolCall> {
    if |calls| < 2 || calls[|calls| - 1].name == "done" then calls else Named(calls, false) + Named(calls, true)
  }

  lemma {:induction false} NamedMultiset(calls: seq<ToolCall>)
    ensures multiset(Named(calls, false)) + multiset(Named(calls, true)) == multiset(calls)
    ensures forall c :: c in Named(calls, true) ==> c.name == "done"
    ensures forall c :: c in Named(calls, false) ==> c.name != "done"
  {
    if calls != [] {
      NamedMultiset(calls[1..]);
      assert calls == [calls[0]] + calls[1..];
    }
  }

  /** Ordering loses and adds no call, and a group with a done call ends in one. */
  lemma {:induction false} OrderedCalls(calls: seq<ToolCall>)
    ensures multiset(Ordered(calls)) == multiset(calls)
    ensures (exists c :: c in calls && c.name == "done") ==> |Ordered(calls)| == |calls| > 0 && Ordered(calls)[|calls| - 1].name == "done"
    ensures |Ordered(calls)| == |calls|
  {
    NamedMultiset(calls);
    assert |multiset(Ordered(calls))| == |multiset(calls)|;
    if c :| c in calls && c.name == "done" {
      if Ordered(calls) != calls {
        assert c in multiset(calls);
        assert c in Named(calls, true) || c in Named(calls, false);
        var last := Named(calls, true)[|Named(calls, true)| - 1];
        assert last in Named(calls, true);
      }
    }
  }

  lemma {:induction false} OrderedDistinct(calls: seq<ToolCall>)
    requires DistinctIds(calls)
    ensures DistinctIds(Ordered(calls))
  {
    NamedDistinct(calls, false);
    NamedDistinct(calls, true);
    NamedApart(calls);
  }

  lemma {:induction false} NamedFrom(calls: seq<ToolCall>, done: bool, c: ToolCall)
    ensures c in Named(calls, done) <==> c in calls && (c.name == "done") == done
  {
    if calls != [] { NamedFrom(calls[1..], done, c); }
  }

  lemma {:induction false} NamedDistinct(calls: seq<ToolCall>, done: bool)
    requires DistinctIds(calls)
    ensures DistinctIds(Named(calls, done))
  {
    if calls != [] {
      NamedDistinct(calls[1..], done);
      var rest := Named(calls[1..], done);
      forall k | 0 <= k < |rest| ensures rest[k].id != calls[0].id {
        NamedFrom(calls[1..], done, rest[k]);
        var i :| 0 <= i < |calls[1..]| && calls[1..][i] == rest[k];
        assert calls[i + 1] == rest[k];
      }
    }
  }

  lemma {:induction false} NamedApart(calls: seq<ToolCall>)
    requires DistinctIds(calls)
    ensures DistinctIds(Named(calls, false) + Named(calls, true))
  {
    var a, b := Named(calls, false), Named(calls, true);
    NamedDistinct(calls, false);
    NamedDistinct(calls, true);
    forall i, k | 0 <= i < |a| && 0 <= k < |b| ensures a[i].id != b[k].id {
      NamedFrom(calls, false, a[i]);
      NamedFrom(calls, true, b[k]);
      var p :| 0 <= p < |calls| && calls[p] == a[i];
      var q :| 0 <= q < |calls| && calls[q] == b[k];
    }
  }

  // ----- the loop over the calls -----

  /** One result per call of the first n, in call order, behind the messages of before. */
  ghost predicate Answering(before: seq<Message>, now: seq<Message>, calls: seq<ToolCall>, n: nat)
    requires n <= |calls|
  {
    && |now| == |before| + n && now[..|before|] == before
    && forall j :: |before| <= j < |now| ==> now[j].Tool? && now[j].callId == calls[j - |before|].id
  }

  lemma {:induction false} OneMoreAnswer(before: seq<Message>, now: seq<Message>, calls: seq<ToolCall>, n: nat, m: Message)
    requires n < |calls| && Answering(before, now, calls, n) && m.Tool? && m.callId == calls[n].id
    ensures Answering(before, now + [m], calls, n + 1)
  {
    assert (now + [m])[..|before|] == now[..|before|];
  }

  class ToolExecution {
    const ledger: OperationLedger
    var messages: seq<Message>

    constructor (ledger: OperationLedger, messages: seq<Message>)
      ensures this.ledger == ledger && this.messages == messages
    {
      this.ledger, this.messages := ledger, messages;
    }

    method Push(call: ToolCall, content: string)
      modifies this`messages
      ensures messages == old(messages) + [Tool(COPY, call.id, content)]
    {
      messages := messages + [Tool(COPY, call.id, content)];
    }

    method RecordDispatch(call: ToolCall, d: Dispatched)
      requires d.Dispatched?
      modifies ledger
      ensures ledger.unresolved == Recorded(old(ledger.unresolved), call, d) && ledger.Total() == old(ledger.Total()) + 1
    {
      if d.failed.Some? {
        ledger.RecordExternalObservationFailure(call, d.failed.value);
      } else if d.retried.Some? && d.ok {
        var _ := ledger.ResolveExternalObservation(d.retried.value, call);
      } else {
        var _ := ledger.Record(call, d.ok, d.coordination, d.affects);
      }
    }

    method ProcessDoneDispatch(call: ToolCall, d: Dispatched, isLast: bool) returns (end: End)
      requires d.Dispatched? && d.isDone && d.ok
      modifies this`messages, ledger
      ensures ledger.Total() == old(ledger.Total()) + 1
      ensures var s := Handle(old(ledger.unresolved), call, isLast, d);
              && end == s.end && ledger.unresolved == s.unresolved && s.result.Some?
              && messages == old(messages) + [Tool(COPY, call.id, s.result.value)]
    {
      if !isLast {
        var _ := ledger.Record(call, false, false, false);
        Push(call, ERROR);
        return Terminal;
      }
      ledger.ClearPriorCompletionFailure();
      var doneOk := ledger.unresolved == [];
      var _ := ledger.Record(call, doneOk, false, false);
      Push(call, if doneOk then d.content else ERROR);
      end := DoneSignaled;
    }

    method HandleDispatch(call: ToolCall, isLast: bool, d: Dispatched) returns (end: End)
      requires d.Dispatched? && d.isDone ==> d.ok
      modifies this`messages, ledger
      ensures var s := Handle(old(ledger.unresolved), call, isLast, d);
              && end == s.end && ledger.unresolved == s.unresolved && s.result.Some?
              && messages == old(messages) + [Tool(COPY, call.id, s.result.value)]
      ensures ledger.Total() == old(ledger.Total()) + 1
    {
      if d.Threw? {
        var _ := ledger.Record(call, false, IsCoordination(call.name), true);
        Push(call, ERROR + call.name);
        return Terminal;
      }
      if d.isDone {
        end := ProcessDoneDispatch(call, d, isLast);
        return;
      }
      RecordDispatch(call, d);
      Push(call, d.content);
      end := if !d.ok && !d.affects then Terminal else Continue;
    }

    method ExecuteOneToolCall(call: ToolCall, isLast: bool, w: World) returns (end: End)
      modifies this`messages, ledger
      ensures var s := ExecuteOne(old(ledger.unresolved), call, isLast, w);
              && end == s.end && ledger.unresolved == s.unresolved
              && messages == old(messages) + (if s.result.Some? then [Tool(COPY, call.id, s.result.value)] else [])
              && ledger.Total() == old(ledger.Total()) + (if s.result.Some? then 1 else 0)
    {
      if w.stopped { return Terminal; }
      var d := Dispatch(ledger.unresolved, call, w);
      end := HandleDispatch(call, isLast, d);
    }

    /** Adds a result for every call that has none yet. */
    method CompleteTerminatedToolGroup(calls: seq<ToolCall>, terminal: ToolCall, resultStart: nat, ghost n: nat)
      requires resultStart <= |messages| && n <= |calls| && DistinctIds(calls)
      requires Answering(messages[..resultStart], messages, calls, n)
      modifies this`messages, ledger
      ensures Answering(old(messages)[..resultStart], messages, calls, |calls|)
      ensures messages[..resultStart + n] == old(messages)
      ensures ledger.unresolved == old(ledger.unresolved) && ledger.Total() == old(ledger.Total()) + |calls| - n
    {
      var completedIds := set m <- messages[resultStart..] | m.Tool? :: m.callId;
      ghost var before := messages[..resultStart];
      for i := 0 to |calls|
        invariant Answering(before, messages, calls, if i < n then n else i)
        invariant messages[..resultStart + n] == old(messages)
        invariant ledger.unresolved == old(ledger.unresolved)
        invariant ledger.Total() == old(ledger.Total()) + if i < n then 0 else i - n
      {
        assert calls[i].id in completedIds <==> i < n by { Completed(old(messages), resultStart, calls, n, i); }
        if calls[i].id !in completedIds {
          OneMoreAnswer(before, messages, calls, i, Tool(COPY, calls[i].id, SKIPPED + " stopped at " + terminal.id + " before " + calls[i].id));
          var _ := ledger.Record(calls[i], false, false, false);
          Push(calls[i], SKIPPED + " stopped at " + terminal.id + " before " + calls[i].id);
        }
      }
    }

    /** One round of the loop: a result is added, or execution stops without one. */
    method ExecuteAt(calls: seq<ToolCall>, worlds: seq<World>, i: nat, ghost before: seq<Message>) returns (end: End, ghost n: nat)
      requires i < |calls| == |worlds| && Answering(before, messages, calls, i)
      modifies this`messages, ledger
      ensures i <= n <= i + 1 && (end != Terminal ==> n == i + 1)
      ensures Answering(before, messages, calls, n) && ledger.Total() == old(ledger.Total()) + n - i
      ensures GroupStep(old(ledger.unresolved), calls, worlds, i).end == if end == Continue then GroupStep(ledger.unresolved, calls, worlds, i + 1).end else end
      ensures GroupStep(old(ledger.unresolved), calls, worlds, i).unresolved
           == if end == Continue then GroupStep(ledger.unresolved, calls, worlds, i + 1).unresolved else ledger.unresolved
      ensures end == DoneSignaled ==> i == |calls| - 1
    {
      ghost var s := ExecuteOne(ledger.unresolved, calls[i], i == |calls| - 1, worlds[i]);
      end := ExecuteOneToolCall(calls[i], i == |calls| - 1, worlds[i]);
      n := if s.result.Some? then i + 1 else i;
      if s.result.Some? {
        OneMoreAnswer(before, old(messages), calls, i, Tool(COPY, calls[i].id, s.result.value));
      } else {
        assert messages == old(messages);
      }
    }

    /** However execution ends, the transcript gains exactly one result per call, in call order. */
    method ExecuteToolCalls(calls: seq<ToolCall>, worlds: seq<World>) returns (end: End)
      requires |worlds| == |calls| && DistinctIds(calls)
      modifies this`messages, ledger
      ensures Answering(old(messages), messages, calls, |calls|)
      ensures ledger.Total() == old(ledger.Total()) + |calls|
      ensures end == GroupStep(old(ledger.unresolved), calls, worlds, 0).end
      ensures ledger.unresolved == GroupStep(old(ledger.unresolved), calls, worlds, 0).unresolved
    {
      var resultStart := |messages|;
      ghost var before := messages;
      assert messages[..resultStart] == messages;
      for i := 0 to |calls|
        invariant Answering(before, messages, calls, i)
        invariant ledger.Total() == old(ledger.Total()) + i
        invariant GroupStep(old(ledger.unresolved), calls, worlds, 0).end == GroupStep(ledger.unresolved, calls, worlds, i).end
        invariant GroupStep(old(ledger.unresolved), calls, worlds, 0).unresolved == GroupStep(ledger.unresolved, calls, worlds, i).unresolved
      {
        ghost var n;
        end, n := ExecuteAt(calls, worlds, i, before);
        if end == DoneSignaled { return; }
        if end == Terminal {
          CompleteTerminatedToolGroup(calls, calls[i], resultStart, n);
          return;
        }
      }
      end := Continue;
    }
  }

  lemma {:induction false} Completed(messages: seq<Message>, start: nat, calls: seq<ToolCall>, n: nat, i: nat)
    requires start <= |messages| && n <= |calls| && i < |calls| && DistinctIds(calls)
    requires Answering(messages[..start], messages, calls, n)
    ensures (exists m :: m in messages[start..] && m.Tool? && m.callId == calls[i].id) <==> i < n
  {
    var tail := messages[start..];
    assert |messages[..start]| == start;
    if i < n {
      assert messages[start + i].Tool? && messages[start + i].callId == calls[i].id;
      assert tail[i] == messages[start + i] && tail[i] in tail;
    }
  }
}
