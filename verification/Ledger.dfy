/** The ledger of unresolved tool failures, which decides whether a run may claim success. */
module Ledger {
  import opened Options

  /** JSON argument values; a SHA-256 reference is represented by what it hashes. */
  datatype Value = Text(text: string) | Hash(content: map<string, Value>) | Other(id: nat)

  type Arguments = map<string, Value>

  datatype ToolCall = ToolCall(id: string, name: string, arguments: Arguments, printed: string)

  datatype Recovery = Recovery(tool: string, callId: string, digest: Value, outputRef: Value, receiptRef: Value)

  /** What an external failure was about: its exact arguments, or the digest of a stored receipt. */
  datatype Meaning = ByArguments(tool: string, arguments: Arguments) | ByDigest(tool: string, digest: Value)

  datatype Failure = Failure(callId: string, tool: string, meaning: Option<Meaning>, recovery: Option<Recovery>)

  datatype Key = DoneKey | ExactKey(tool: string, arguments: Arguments) | ObservationKey(tool: string, callId: string, outputRef: Value)

  datatype Entry = Entry(key: Key, failure: Failure)

  datatype Resolution = NotApplicable | NoneResolved | Exact | RecordedFailure | Explicit(of: Value) | InvalidExplicit(of: Value)

  const RECOVERY_ARGUMENT := "cantiluneRecoveryOf"
  const EXTERNAL := "tool:"

  predicate IsExternal(name: string) {
    EXTERNAL <= name
  }

  predicate SupportsGenericRecovery(name: string) {
    name == "read_content" || name == "write_content"
  }

  function Execution(call: ToolCall): Arguments {
    call.arguments - {RECOVERY_ARGUMENT}
  }

  function StringOr(arguments: Arguments, name: string, other: Value): Value {
    if name in arguments && !arguments[name].Other? then arguments[name] else other
  }

  function ResolutionKey(call: ToolCall): Key {
    var a := Execution(call);
    if call.name == "read_content" then ExactKey(call.name, map["ref" := StringOr(a, "ref", Text(""))])
    else if call.name == "write_content" then
      ExactKey(call.name, map["content" := StringOr(a, "content", Text("")), "mimeType" := StringOr(a, "mimeType", Other(0))])
    else if call.name == "done" then DoneKey
    else ExactKey(call.name, a)
  }

  function RecoveryOf(call: ToolCall): Option<Value> {
    if !SupportsGenericRecovery(call.name) && !IsExternal(call.name) then None
    else
      var link := StringOr(call.arguments, RECOVERY_ARGUMENT, Text(""));
      if link == Text("") then None else Some(link)
  }

  // ----- the insertion-ordered map of unresolved failures -----

  predicate HasKey(u: seq<Entry>, k: Key) {
    exists i :: 0 <= i < |u| && u[i].key == k
  }

  ghost predicate DistinctKeys(u: seq<Entry>) {
    forall i, j :: 0 <= i < j < |u| ==> u[i].key != u[j].key
  }

  function Put(u: seq<Entry>, e: Entry): seq<Entry> {
    if u == [] then [e] else if u[0].key == e.key then [e] + u[1..] else [u[0]] + Put(u[1..], e)
  }

  function Remove(u: seq<Entry>, k: Key): seq<Entry> {
    if u == [] then [] else (if u[0].key == k then [] else [u[0]]) + Remove(u[1..], k)
  }

  function Matches(u: seq<Entry>, p: Entry -> bool): (r: seq<Entry>)
    ensures forall e :: e in r <==> e in u && p(e)
  {
    if u == [] then [] else (if p(u[0]) then [u[0]] else []) + Matches(u[1..], p)
  }

  /** Keys are distinct, stated per element of the tail. */
  lemma {:induction false} DistinctTail(u: seq<Entry>)
    requires DistinctKeys(u) && u != []
    ensures DistinctKeys(u[1..]) && forall e :: e in u[1..] ==> e.key != u[0].key
  {
    forall e | e in u[1..] ensures e.key != u[0].key {
      var i :| 0 <= i < |u[1..]| && u[1..][i] == e;
      assert u[i + 1] == e;
    }
  }

  lemma {:induction false} DistinctCons(e: Entry, u: seq<Entry>)
    requires DistinctKeys(u) && forall x :: x in u ==> x.key != e.key
    ensures DistinctKeys([e] + u)
  {
    assert forall i :: 0 <= i < |u| ==> u[i] in u;
  }

  lemma {:induction false} PutEntries(u: seq<Entry>, e: Entry)
    requires DistinctKeys(u)
    ensures forall x :: x in Put(u, e) <==> x == e || (x in u && x.key != e.key)
    ensures DistinctKeys(Put(u, e))
  {
    if u == [] {
    } else {
      assert u == [u[0]] + u[1..];
      DistinctTail(u);
      if u[0].key == e.key {
        DistinctCons(e, u[1..]);
      } else {
        PutEntries(u[1..], e);
        DistinctCons(u[0], Put(u[1..], e));
      }
    }
  }

  lemma {:induction false} RemoveEntries(u: seq<Entry>, k: Key)
    requires DistinctKeys(u)
    ensures forall x :: x in Remove(u, k) <==> x in u && x.key != k
    ensures DistinctKeys(Remove(u, k))
  {
    if u != [] {
      assert u == [u[0]] + u[1..];
      DistinctTail(u);
      RemoveEntries(u[1..], k);
      if u[0].key != k { DistinctCons(u[0], Remove(u[1..], k)); }
    }
  }

  // ----- what each operation does to the map -----

  function FailedEntry(call: ToolCall): Entry {
    var key := ResolutionKey(call);
    Entry(key, Failure(call.id, call.name, if IsExternal(call.name) && key.ExactKey? then Some(ByArguments(call.name, key.arguments)) else None, None))
  }

  function ObservationEntry(tool: string, callId: string, recovery: Recovery): Entry {
    Entry(ObservationKey(tool, callId, recovery.outputRef), Failure(callId, tool, Some(ByDigest(tool, recovery.digest)), Some(recovery)))
  }

  function Restored(pending: seq<Recovery>): seq<Entry> {
    if pending == [] then []
    else
      var r := pending[|pending| - 1];
      Put(Restored(pending[..|pending| - 1]), ObservationEntry(EXTERNAL + r.tool, r.callId, r))
  }

  /** The one failure an explicit recovery link of a successful call names. */
  function Linked(u: seq<Entry>, call: ToolCall, of: Value): Option<Key> {
    var matches := Matches(u, (e: Entry) => Text(e.failure.callId) == of && e.failure.tool == call.name);
    if |matches| == 1 then Some(matches[0].key) else None
  }

  /** The key a successful call clears, if any. */
  function Cleared(u: seq<Entry>, call: ToolCall): Option<Key> {
    if IsExternal(call.name) then None
    else if RecoveryOf(call).None? then Some(ResolutionKey(call))
    else Linked(u, call, RecoveryOf(call).value)
  }

  function Succeeded(u: seq<Entry>, call: ToolCall): seq<Entry> {
    if Cleared(u, call).Some? then Remove(u, Cleared(u, call).value) else u
  }

  function SucceededResolution(u: seq<Entry>, call: ToolCall): Resolution {
    if IsExternal(call.name) then NoneResolved
    else if RecoveryOf(call).None? then (if HasKey(u, ResolutionKey(call)) then Exact else NoneResolved)
    else if Cleared(u, call).Some? then Explicit(RecoveryOf(call).value)
    else InvalidExplicit(RecoveryOf(call).value)
  }

  function SameReceipt(r: Recovery): Entry -> bool {
    (e: Entry) => e.failure.recovery.Some? && e.failure.recovery.value.callId == r.callId
               && e.failure.recovery.value.outputRef == r.outputRef && e.failure.recovery.value.receiptRef == r.receiptRef
  }

  function Observed(u: seq<Entry>, r: Recovery): seq<Entry> {
    var matches := Matches(u, SameReceipt(r));
    if matches == [] then u else Remove(u, matches[0].key)
  }

  function PendingForCall(u: seq<Entry>, tool: string, callId: Value): Option<Recovery> {
    var matches := Matches(u, (e: Entry) => e.failure.tool == tool && Text(e.failure.callId) == callId && e.failure.recovery.Some?);
    if |matches| == 1 then matches[0].failure.recovery else None
  }

  function PendingForExactRetry(u: seq<Entry>, call: ToolCall): Option<Recovery> {
    var meaning := ByDigest(call.name, Hash(Execution(call)));
    var matches := Matches(u, (e: Entry) => e.failure.tool == call.name && e.failure.meaning == Some(meaning) && e.failure.recovery.Some?);
    if |matches| == 1 then matches[0].failure.recovery else None
  }

  /** The entry is a failure of the same external tool with the same arguments. */
  predicate SameInvocation(e: Entry, call: ToolCall) {
    && e.failure.tool == call.name && e.failure.meaning.Some?
    && (e.failure.meaning.value == ByArguments(call.name, Execution(call)) || e.failure.meaning.value == ByDigest(call.name, Hash(Execution(call))))
  }

  predicate UnresolvedExact(u: seq<Entry>, call: ToolCall) {
    exists i :: 0 <= i < |u| && SameInvocation(u[i], call)
  }

  datatype Counts = Counts(committed: nat, rejected: nat, succeeded: nat, failed: nat)

  /** One call is counted as a success or a failure, and again when it is a coordination call. */
  function Counted(c: Counts, ok: bool, coordination: bool): Counts {
    var d := if ok then c.(succeeded := c.succeeded + 1) else c.(failed := c.failed + 1);
    if !coordination then d else if ok then d.(committed := d.committed + 1) else d.(rejected := d.rejected + 1)
  }

  // ----- the class -----

  class OperationLedger {
    var committedCount: nat
    var rejectedCount: nat
    var succeededCount: nat
    var failedCount: nat
    var unresolved: seq<Entry>

    constructor (pending: seq<Recovery>)
      ensures unresolved == Restored(pending)
      ensures committedCount == rejectedCount == succeededCount == failedCount == 0
    {
      committedCount, rejectedCount, succeededCount, failedCount := 0, 0, 0, 0;
      unresolved := [];
      new;
      for i := 0 to |pending|
        invariant unresolved == Restored(pending[..i])
        invariant committedCount == rejectedCount == succeededCount == failedCount == 0
      {
        assert pending[..i + 1][..i] == pending[..i];
        unresolved := Put(unresolved, ObservationEntry(EXTERNAL + pending[i].tool, pending[i].callId, pending[i]));
      }
      assert pending[..|pending|] == pending;
    }

    function Total(): nat
      reads this
    {
      succeededCount + failedCount
    }

    function Tally(): Counts
      reads this
    {
      Counts(committedCount, rejectedCount, succeededCount, failedCount)
    }

    method RecordCounts(ok: bool, coordination: bool)
      modifies this
      ensures unresolved == old(unresolved) && Total() == old(Total()) + 1
      ensures Tally() == Counted(old(Tally()), ok, coordination)
    {
      if ok { succeededCount := succeededCount + 1; } else { failedCount := failedCount + 1; }
      if coordination {
        if ok { committedCount := committedCount + 1; } else { rejectedCount := rejectedCount + 1; }
      }
    }

    method Record(call: ToolCall, ok: bool, coordination: bool, affects: bool) returns (r: Resolution)
      modifies this
      ensures Total() == old(Total()) + 1 && Tally() == Counted(old(Tally()), ok, coordination)
      ensures unresolved == if !affects then old(unresolved) else if ok then Succeeded(old(unresolved), call) else Put(old(unresolved), FailedEntry(call))
      ensures r == if !affects then NotApplicable else if ok then SucceededResolution(old(unresolved), call) else RecordedFailure
    {
      RecordCounts(ok, coordination);
      if !affects { return NotApplicable; }
      if ok {
        r := ResolveSuccessfulCall(call);
      } else {
        unresolved := Put(unresolved, FailedEntry(call));
        r := RecordedFailure;
      }
    }

    method ResolveSuccessfulCall(call: ToolCall) returns (r: Resolution)
      modifies this`unresolved
      ensures unresolved == Succeeded(old(unresolved), call) && r == SucceededResolution(old(unresolved), call)
    {
      if IsExternal(call.name) { return NoneResolved; }
      var recoveryOf := RecoveryOf(call);
      if recoveryOf.None? {
        var found := HasKey(unresolved, ResolutionKey(call));
        unresolved := Remove(unresolved, ResolutionKey(call));
        return if found then Exact else NoneResolved;
      }
      var key := Linked(unresolved, call, recoveryOf.value);
      if key.None? { return InvalidExplicit(recoveryOf.value); }
      unresolved := Remove(unresolved, key.value);
      r := Explicit(recoveryOf.value);
    }

    method RecordExternalObservationFailure(call: ToolCall, recovery: Recovery)
      modifies this
      ensures Total() == old(Total()) + 1 && Tally() == Counted(old(Tally()), false, false)
      ensures unresolved == Put(old(unresolved), ObservationEntry(call.name, call.id, recovery))
    {
      RecordCounts(false, false);
      unresolved := Put(unresolved, ObservationEntry(call.name, call.id, recovery));
    }

    method ResolveExternalObservation(recovery: Recovery, retryCall: ToolCall) returns (r: Resolution)
      modifies this
      ensures Total() == old(Total()) + 1 && Tally() == Counted(old(Tally()), true, false)
      ensures unresolved == Observed(old(unresolved), recovery)
      ensures r == if Matches(old(unresolved), SameReceipt(recovery)) == [] then InvalidExplicit(Text(recovery.callId)) else Explicit(Text(retryCall.id))
    {
      RecordCounts(true, false);
      var matches := Matches(unresolved, SameReceipt(recovery));
      if matches == [] { return InvalidExplicit(Text(recovery.callId)); }
      unresolved := Remove(unresolved, matches[0].key);
      r := Explicit(Text(retryCall.id));
    }

    method ClearPriorCompletionFailure()
      modifies this`unresolved
      ensures unresolved == Remove(old(unresolved), DoneKey)
    {
      unresolved := Remove(unresolved, DoneKey);
    }

    method PendingToolObservations() returns (pending: seq<Recovery>)
      ensures forall r :: r in pending <==> exists e :: e in unresolved && e.failure.recovery == Some(r)
    {
      pending := [];
      for i := 0 to |unresolved|
        invariant forall r :: r in pending <==> exists k :: 0 <= k < i && unresolved[k].failure.recovery == Some(r)
      {
        if unresolved[i].failure.recovery.Some? { pending := pending + [unresolved[i].failure.recovery.value]; }
      }
    }
  }
}
