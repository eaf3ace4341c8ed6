/** Whole runs of the agent loop: transcript, evidence and ledger over every turn. */
module AgentRun {
  import opened Options
  import Sequences
  import opened Transcript
  import opened Compaction
  import opened CompactionGroups
  import opened Ledger
  import opened ToolGroups
  import opened LedgerSafety

  // ----- the first transcript -----

  /** System messages of the history are dropped, markers excepted. */
  function WithoutSystem(ms: seq<Message>): seq<Message> {
    if ms == [] then [] else (if ms[0].System? && !IsMarker(ms[0]) then [] else [ms[0]]) + WithoutSystem(ms[1..])
  }

  ghost function InitialMessages(seed: seq<Message>, prompt: string): seq<Message> {
    [System(COPY, prompt)] + WithoutSystem(Normalized(seed, false))
  }

  lemma {:induction false} WithoutSystemAppend(a: seq<Message>, b: seq<Message>)
    ensures WithoutSystem(a + b) == WithoutSystem(a) + WithoutSystem(b)
  {
    if a == [] {
      Sequences.Unit(b);
      Sequences.Unit(WithoutSystem(b));
    } else {
      Sequences.Head(a, b);
      WithoutSystemAppend(a[1..], b);
      Sequences.Associative(if a[0].System? && !IsMarker(a[0]) then [] else [a[0]], WithoutSystem(a[1..]), WithoutSystem(b));
    }
  }

  lemma {:induction false} WithoutSystemKeeps(ms: seq<Message>)
    requires forall i :: 0 <= i < |ms| ==> !ms[i].System? || IsMarker(ms[i])
    ensures WithoutSystem(ms) == ms
  {
    if ms != [] {
      assert ms == [ms[0]] + ms[1..];
      WithoutSystemKeeps(ms[1..]);
    }
  }

  lemma {:induction false} WithoutSystemOfPiece(p: seq<Message>, rest: seq<Message>)
    requires IsPiece(p)
    ensures WithoutSystem(p + rest) == (if p[0].System? && !IsMarker(p[0]) then [] else p) + WithoutSystem(rest)
  {
    WithoutSystemAppend(p, rest);
    if Requests(p[0]) {
      assert p + [] == p;
      GroupPrefix(p, []);
      assert forall i :: 1 <= i < |p| ==> p[i] == p[1..][i - 1];
      WithoutSystemKeeps(p);
    } else {
      assert p == [p[0]] && p[1..] == [];
    }
  }

  lemma {:induction false} WithoutSystemWellFormed(ms: seq<Message>, saw: bool)
    requires WellFormed(ms, saw)
    ensures WellFormed(WithoutSystem(ms), saw) && (HasMarker(WithoutSystem(ms)) <==> HasMarker(ms))
  {
    if ms != [] {
      var n := FirstPiece(ms, saw);
      var p, rest := ms[..n], ms[n..];
      assert ms == p + rest && p[0] == ms[0];
      WithoutSystemWellFormed(rest, saw || IsMarker(ms[0]));
      WithoutSystemOfPiece(p, rest);
      MarkerSplit(p, rest);
      PieceAppend(p, WithoutSystem(rest), saw);
      if p[0].System? && !IsMarker(p[0]) {
        assert [] + WithoutSystem(rest) == WithoutSystem(rest);
      } else {
        MarkerSplit(p, WithoutSystem(rest));
      }
    }
  }

  /** The first transcript is well formed unless prompt and history both look like markers. */
  lemma {:induction false} InitialWellFormed(seed: seq<Message>, prompt: string)
    ensures WellFormed(InitialMessages(seed, prompt), false)
       <==> !(IsMarker(System(COPY, prompt)) && HasMarker(Normalized(seed, false)))
  {
    var rest := WithoutSystem(Normalized(seed, false));
    NormalizedWellFormed(seed, false);
    WithoutSystemWellFormed(Normalized(seed, false), false);
    assert InitialMessages(seed, prompt)[1..] == rest;
    if !HasMarker(rest) { WellFormedUnmarked(rest); } else { MarkedTwice(rest); }
  }

  lemma {:induction false} WellFormedUnmarked(ms: seq<Message>)
    requires WellFormed(ms, false) && !HasMarker(ms)
    ensures WellFormed(ms, true)
  {
    if ms != [] {
      var n := FirstPiece(ms, false);
      assert ms == ms[..n] + ms[n..];
      MarkerSplit(ms[..n], ms[n..]);
      assert !IsMarker(ms[0]);
      WellFormedUnmarked(ms[n..]);
    }
  }

  lemma {:induction false} MarkedTwice(ms: seq<Message>)
    requires HasMarker(ms)
    ensures !WellFormed(ms, true)
  {
    if WellFormed(ms, true) {
      var n := FirstPiece(ms, true);
      assert ms == ms[..n] + ms[n..];
      MarkerSplit(ms[..n], ms[n..]);
      PieceAppend(ms[..n], ms[n..], true);
      MarkedTwice(ms[n..]);
    }
  }

  // ----- turns -----

  datatype Verdict = Done | Stalled | Ask(answer: Option<string>) | Proceed | Fault

  /** What the environment does in one turn; it may end the turn before preparation or between preparation and response. */
  datatype Turn = Turn(
    stopped: bool, interrupted: bool, text: Option<string>, failed: bool, calls: seq<ToolCall>, worlds: seq<World>, verdict: Verdict, checkpointed: bool)

  /** Responses are admitted only with distinct call ids. */
  ghost predicate Admitted(t: Turn) {
    DistinctIds(t.calls) && |t.worlds| == |t.calls|
  }

  function TextOf(t: Turn): string {
    if t.text.Some? then t.text.value else ""
  }

  /** The number of tool results in a transcript. */
  function Results(ms: seq<Message>): nat {
    if ms == [] then 0 else (if ms[0].Tool? then 1 else 0) + Results(ms[1..])
  }

  lemma {:induction false} ResultsAppend(a: seq<Message>, b: seq<Message>)
    ensures Results(a + b) == Results(a) + Results(b)
  {
    if a == [] {
      Sequences.Unit(b);
    } else {
      Sequences.Head(a, b);
      ResultsAppend(a[1..], b);
    }
  }

  lemma {:induction false} ResultsOfTools(ms: seq<Message>)
    requires forall i :: 0 <= i < |ms| ==> ms[i].Tool?
    ensures Results(ms) == |ms|
  {
    if ms != [] { ResultsOfTools(ms[1..]); }
  }

  lemma {:induction false} ResultsOfClones(ms: seq<Message>)
    ensures Results(Clones(ms)) == Results(ms)
  {
    if ms != [] {
      assert Clones(ms)[1..] == Clones(ms[1..]);
      ResultsOfClones(ms[1..]);
    }
  }

  /** Messages a turn may append: well formed on their own, without markers. */
  ghost predicate Appendable(ms: seq<Message>) {
    WellFormed(ms, true)
  }

  lemma {:induction false} AppendText(text: string)
    ensures Appendable([Assistant(COPY, text, [])]) && Results([Assistant(COPY, text, [])]) == 0
  {
    assert [Assistant(COPY, text, [])][1..] == [];
  }

  lemma {:induction false} AppendAnswer(ms: seq<Message>, answer: string)
    requires Appendable(ms)
    ensures Appendable(ms + [User(COPY, answer)]) && Results(ms + [User(COPY, answer)]) == Results(ms)
  {
    assert [User(COPY, answer)][1..] == [];
    WellFormedAppend(ms, [User(COPY, answer)], true);
    ResultsAppend(ms, [User(COPY, answer)]);
  }

  /** A request with one result per call is a complete group. */
  lemma {:induction false} AppendGroup(text: string, calls: seq<ToolCall>, results: seq<Message>)
    requires calls != [] && DistinctIds(calls) && |results| == |calls|
    requires forall k :: 0 <= k < |calls| ==> results[k].Tool? && results[k].callId == calls[k].id
    ensures Appendable([Assistant(COPY, text, CallsOf(calls))] + results)
    ensures Results([Assistant(COPY, text, CallsOf(calls))] + results) == |calls|
  {
    var head := [Assistant(COPY, text, CallsOf(calls))];
    var group := head + results;
    assert group[1..] == results && group + [] == group;
    GroupPrefix(group, []);
    PieceAppend(group, [], true);
    ResultsOfTools(results);
    ResultsAppend(head, results);
  }

  lemma {:induction false} AppendedGroup(before: seq<Message>, start: seq<Message>, now: seq<Message>, text: string, calls: seq<ToolCall>)
    returns (appended: seq<Message>)
    requires calls != [] && DistinctIds(calls)
    requires start == before + [Assistant(COPY, text, CallsOf(calls))] && Answering(start, now, calls, |calls|)
    ensures now == before + appended && Appendable(appended) && Results(appended) == |calls|
  {
    var results := now[|start|..];
    assert now == start + results;
    AppendGroup(text, calls, results);
    appended := [Assistant(COPY, text, CallsOf(calls))] + results;
    assert before + appended == start + results;
  }

  lemma {:induction false} AppendToTranscript(ms: seq<Message>, appended: seq<Message>)
    requires WellFormed(ms, false) && Appendable(appended)
    ensures WellFormed(ms + appended, false) && WellFormed(ms + Clones(appended), false)
  {
    WellFormedWeaken(appended, true, HasMarker(ms));
    WellFormedAppend(ms, appended, false);
    NormalizeIdentity(appended, HasMarker(ms));
    NormalizedWellFormed(appended, HasMarker(ms));
    WellFormedAppend(ms, Clones(appended), false);
  }

  // ----- the loop -----

  class AgentLoop {
    const goal: Message
    const budget: nat
    const execution: ToolExecution
    var evidence: seq<Message>

    ghost predicate Valid()
      reads this, execution, execution.ledger
    {
      && goal.User? && budget >= 1
      && WellFormed(execution.messages, false) && WellFormed(evidence, false)
      && Good(execution.ledger.unresolved)
    }

    constructor (seed: seq<Message>, pending: seq<Recovery>, prompt: string, goal: Message, maxContext: nat)
      requires goal.User? && maxContext >= 1 && !(IsMarker(System(COPY, prompt)) && HasMarker(Normalized(seed, false)))
      ensures Valid() && fresh(execution) && fresh(execution.ledger)
      ensures evidence == InitialMessages(seed, prompt) + [goal] == execution.messages
      ensures execution.ledger.unresolved == Restored(pending)
    {
      var ledger := new OperationLedger(pending);
      var history := NormalizeHistoryMessages(seed);
      var initial := [System(COPY, prompt)] + WithoutSystem(history) + [goal];
      this.goal := goal;
      this.budget := if maxContext > 2 then maxContext - 1 else maxContext;
      this.evidence := initial;
      this.execution := new ToolExecution(ledger, initial);
      new;
      RestoredGood(pending);
      InitialWellFormed(seed, prompt);
      assert [goal][1..] == [];
      WellFormedAppend(InitialMessages(seed, prompt), [goal], false);
    }

    /** Appends the messages of one response; the result tells whether the run ends, and whether well. */
    method ProcessTurnResponse(t: Turn) returns (r: Option<bool>, ghost appended: seq<Message>)
      requires Admitted(t)
      modifies execution`messages, execution.ledger
      ensures execution.messages == old(execution.messages) + appended && Appendable(appended)
      ensures execution.ledger.Total() == old(execution.ledger.Total()) + Results(appended)
      ensures execution.ledger.unresolved == AfterTurn(old(execution.ledger.unresolved), t)
      ensures r == Some(true) <==> AsksController(old(execution.ledger.unresolved), t) && t.verdict == Done && execution.ledger.unresolved == []
    {
      appended := [];
      if t.failed {
        if t.calls == [] && t.text.Some? { appended := PushText(t.text.value); }
        return Some(false), appended;
      }
      if t.calls == [] {
        appended := PushText(TextOf(t));
        r, appended := DispatchControlVerdict(t.verdict, appended);
        return;
      }
      r, appended := ProcessToolCalls(t);
    }

    /** Executes the calls of a response and consults the controller after done. */
    method ProcessToolCalls(t: Turn) returns (r: Option<bool>, ghost appended: seq<Message>)
      requires Admitted(t) && t.calls != [] && !t.failed
      modifies execution`messages, execution.ledger
      ensures execution.messages == old(execution.messages) + appended && Appendable(appended)
      ensures execution.ledger.Total() == old(execution.ledger.Total()) + Results(appended)
      ensures execution.ledger.unresolved == AfterTurn(old(execution.ledger.unresolved), t)
      ensures r == Some(true) <==> AsksController(old(execution.ledger.unresolved), t) && t.verdict == Done && execution.ledger.unresolved == []
    {
      var end;
      end, appended := RunTools(t);
      if end == DoneSignaled {
        r, appended := DispatchControlVerdict(t.verdict, appended);
        return;
      }
      r := if end == Terminal then Some(false) else None;
    }

    method PushText(text: string) returns (ghost appended: seq<Message>)
      modifies execution`messages
      ensures execution.messages == old(execution.messages) + appended && Appendable(appended) && Results(appended) == 0
    {
      appended := [Assistant(COPY, text, [])];
      AppendText(text);
      execution.messages := execution.messages + [Assistant(COPY, text, [])];
    }

    method RunTools(t: Turn) returns (end: End, ghost appended: seq<Message>)
      requires Admitted(t) && t.calls != [] && !t.failed
      modifies execution`messages, execution.ledger
      ensures execution.messages == old(execution.messages) + appended && Appendable(appended)
      ensures execution.ledger.Total() == old(execution.ledger.Total()) + Results(appended)
      ensures execution.ledger.unresolved == AfterTurn(old(execution.ledger.unresolved), t)
      ensures end == DoneSignaled <==> AsksController(old(execution.ledger.unresolved), t)
    {
      var calls := Ordered(t.calls);
      OrderedDistinct(t.calls);
      OrderedCalls(t.calls);
      ghost var before := execution.messages;
      execution.messages := execution.messages + [Assistant(COPY, TextOf(t), CallsOf(calls))];
      ghost var start := execution.messages;
      end := execution.ExecuteToolCalls(calls, t.worlds);
      appended := AppendedGroup(before, start, execution.messages, TextOf(t), calls);
    }

    /** Acts on the verdict of the termination controller; success is settled against the ledger. */
    method DispatchControlVerdict(verdict: Verdict, ghost before: seq<Message>) returns (r: Option<bool>, ghost appended: seq<Message>)
      requires Appendable(before)
      modifies execution`messages
      ensures Appendable(appended) && before <= appended && Results(appended) == Results(before)
      ensures execution.messages == old(execution.messages) + appended[|before|..]
      ensures r == Some(true) <==> verdict == Done && execution.ledger.unresolved == []
    {
      appended := before;
      match verdict {
        case Done => r := Some(execution.ledger.unresolved == []);
        case Stalled => r := Some(false);
        case Fault => r := Some(false);
        case Proceed => r := None;
        case Ask(answer) =>
          if answer.None? { return Some(false), before; }
          AppendAnswer(before, answer.value);
          appended := before + [User(COPY, answer.value)];
          execution.messages := execution.messages + [User(COPY, answer.value)];
          r := None;
      }
    }

    /** Copies the messages of a turn to the evidence. */
    method KeepEvidence(pushed: seq<Message>)
      requires WellFormed(evidence, false) && Appendable(pushed)
      modifies this`evidence
      ensures evidence == old(evidence) + Clones(pushed) && Results(evidence) == Results(old(evidence)) + Results(pushed)
      ensures WellFormed(evidence, false) && Normalized(evidence, false) == Clones(evidence)
    {
      AppendToTranscript(evidence, pushed);
      ResultsAppend(evidence, Clones(pushed));
      ResultsOfClones(pushed);
      evidence := evidence + Clones(pushed);
      NormalizeIdentity(evidence, false);
    }

    /** The context check and the compaction before a response; the turn may stop before or after. */
    method PrepareTurn(t: Turn) returns (ready: bool)
      requires Valid()
      modifies execution`messages
      ensures WellFormed(execution.messages, false)
      ensures ready <==> !t.stopped && GroupFits(old(execution.messages), budget, goal) && !t.interrupted
      ensures execution.messages == if t.stopped || !GroupFits(old(execution.messages), budget, goal) then old(execution.messages)
                                    else Compact(old(execution.messages), budget, goal)
    {
      var fits := LatestToolGroupFits(execution.messages, budget, goal);
      if t.stopped || !fits { return false; }
      CompactWellFormed(execution.messages, budget, goal);
      execution.messages := CompactMessages(execution.messages, budget, goal);
      ready := !t.interrupted;
    }

    /** Processes the response and keeps its messages as evidence. */
    method Respond(t: Turn) returns (r: Option<bool>, ghost appended: seq<Message>)
      requires Valid() && Admitted(t)
      modifies this`evidence, execution`messages, execution.ledger
      ensures Valid() && Normalized(evidence, false) == Clones(evidence)
      ensures evidence == old(evidence) + Clones(appended) && execution.messages == old(execution.messages) + appended
      ensures execution.ledger.Total() - old(execution.ledger.Total()) == Results(evidence) - Results(old(evidence))
      ensures execution.ledger.unresolved == AfterTurn(old(execution.ledger.unresolved), t)
      ensures r == Some(true) ==> execution.ledger.unresolved == []
    {
      ghost var window := execution.messages;
      var start := |execution.messages|;
      r, appended := ProcessTurnResponse(t);
      var pushed := execution.messages[start..];
      assert pushed == appended;
      AppendToTranscript(window, appended);
      AfterTurnGood(old(execution.ledger.unresolved), t);
      KeepEvidence(pushed);
    }

    /** One turn: context check, compaction, response, evidence, checkpoint, context check. */
    method ExecuteAgentTurn(t: Turn) returns (r: Option<bool>, ghost appended: seq<Message>, ghost responded: bool)
      requires Valid() && Admitted(t)
      modifies this`evidence, execution`messages, execution.ledger
      ensures Valid() && Normalized(evidence, false) == Clones(evidence)
      ensures evidence == old(evidence) + Clones(appended)
      ensures execution.messages == (if t.stopped || !GroupFits(old(execution.messages), budget, goal) then old(execution.messages)
                                     else Compact(old(execution.messages), budget, goal)) + appended
      ensures execution.ledger.Total() - old(execution.ledger.Total()) == Results(evidence) - Results(old(evidence))
      ensures responded <==> !t.stopped && GroupFits(old(execution.messages), budget, goal) && !t.interrupted
      ensures execution.ledger.unresolved == if responded then AfterTurn(old(execution.ledger.unresolved), t) else old(execution.ledger.unresolved)
      ensures !responded ==> r == Some(false) && appended == []
      ensures r == Some(true) ==> execution.ledger.unresolved == []
      ensures r == None ==> GroupFits(execution.messages, budget, goal)
    {
      var ready := PrepareTurn(t);
      responded := ready;
      if !ready {
        NormalizeIdentity(evidence, false);
        Sequences.Unit(evidence);
        Sequences.Unit(execution.messages);
        return Some(false), [], responded;
      }
      r, appended := Respond(t);
      if !t.checkpointed { return Some(false), appended, responded; }
      if r == None {
        var fits := LatestToolGroupFits(execution.messages, budget, goal);
        if !fits { r := Some(false); }
      }
    }

    /** A run claims success only with nothing unresolved; n turns reached the ledger. */
    method Execute(turns: seq<Turn>) returns (ok: bool, ghost n: nat)
      requires Valid() && forall i :: 0 <= i < |turns| ==> Admitted(turns[i])
      modifies this`evidence, execution`messages, execution.ledger
      ensures Valid() && Normalized(evidence, false) == Clones(evidence)
      ensures execution.ledger.Total() - old(execution.ledger.Total()) == Results(evidence) - Results(old(evidence))
      ensures n <= |turns| && execution.ledger.unresolved == RunLedger(old(execution.ledger.unresolved), turns, n)
      ensures ok ==> execution.ledger.unresolved == []
    {
      NormalizeIdentity(evidence, false);
      ghost var first := execution.ledger.unresolved;
      n := 0;
      for i := 0 to |turns|
        invariant Valid() && Normalized(evidence, false) == Clones(evidence)
        invariant execution.ledger.Total() - old(execution.ledger.Total()) == Results(evidence) - Results(old(evidence))
        invariant n <= i && execution.ledger.unresolved == RunLedger(first, turns, n)
        invariant n == i
      {
        var r;
        ghost var appended, responded;
        r, appended, responded := ExecuteAgentTurn(turns[i]);
        if responded { n := i + 1; }
        if r.Some? { return r.value, n; }
      }
      ok := false;
    }
  }

  /** The ledger after n turns. */
  function RunLedger(u: seq<Entry>, turns: seq<Turn>, n: nat): seq<Entry>
    requires n <= |turns|
  {
    if n == 0 then u else AfterTurn(RunLedger(u, turns, n - 1), turns[n - 1])
  }

  /** The ledger after the response of a turn was processed. */
  function AfterTurn(u: seq<Entry>, t: Turn): seq<Entry> {
    if t.failed || t.calls == [] || |t.worlds| != |Ordered(t.calls)| then u else GroupStep(u, Ordered(t.calls), t.worlds, 0).unresolved
  }

  /** The turn gets as far as the termination controller: a text, or a completed group that ends in done. */
  predicate AsksController(u: seq<Entry>, t: Turn) {
    !t.failed && (t.calls == [] || (|t.worlds| == |Ordered(t.calls)| && GroupStep(u, Ordered(t.calls), t.worlds, 0).end == DoneSignaled))
  }

  lemma {:induction false} AfterTurnGood(u: seq<Entry>, t: Turn)
    requires Good(u)
    ensures Good(AfterTurn(u, t)) && (OnePending(u) ==> OnePending(AfterTurn(u, t)))
  {
    if |t.worlds| == |Ordered(t.calls)| { GroupKeepsGood(u, Ordered(t.calls), t.worlds, 0); }
  }

  lemma {:induction false} RunKeepsGood(u: seq<Entry>, turns: seq<Turn>, n: nat)
    requires n <= |turns| && Good(u)
    ensures Good(RunLedger(u, turns, n)) && (OnePending(u) ==> OnePending(RunLedger(u, turns, n)))
  {
    if n > 0 {
      RunKeepsGood(u, turns, n - 1);
      AfterTurnGood(RunLedger(u, turns, n - 1), turns[n - 1]);
    }
  }

  /** From an empty ledger no tool and argument digest ever has two pending observations. */
  lemma {:induction false} RunOnePending(turns: seq<Turn>, n: nat)
    requires n <= |turns|
    ensures OnePending(RunLedger([], turns, n))
  {
    RunKeepsGood([], turns, n);
  }

  predicate HasPermanent(u: seq<Entry>) {
    exists i :: 0 <= i < |u| && Permanent(u[i].key)
  }

  lemma {:induction false} AfterTurnPermanent(u: seq<Entry>, t: Turn)
    requires Good(u) && HasPermanent(u)
    ensures HasPermanent(AfterTurn(u, t))
  {
    var i :| 0 <= i < |u| && Permanent(u[i].key);
    if |t.worlds| == |Ordered(t.calls)| { GroupKeepsPermanent(u, Ordered(t.calls), t.worlds, 0, u[i]); }
  }

  lemma {:induction false} RunPermanent(u: seq<Entry>, turns: seq<Turn>, m: nat, n: nat)
    requires m <= n <= |turns| && Good(u) && HasPermanent(RunLedger(u, turns, m))
    ensures HasPermanent(RunLedger(u, turns, n))
    decreases n - m
  {
    if m < n {
      RunPermanent(u, turns, m, n - 1);
      RunKeepsGood(u, turns, n - 1);
      AfterTurnPermanent(RunLedger(u, turns, n - 1), turns[n - 1]);
    }
  }

  /** Call i of the turn is reached, and fails for good. */
  predicate FailsInTurn(u: seq<Entry>, t: Turn, i: nat) {
    !t.failed && |t.worlds| == |Ordered(t.calls)| && FailsAt(u, Ordered(t.calls), t.worlds, i)
  }

  lemma {:induction false} FailureSpoilsTurn(u: seq<Entry>, t: Turn, i: nat)
    requires Good(u) && FailsInTurn(u, t, i)
    ensures HasPermanent(AfterTurn(u, t))
  {
    OrderedCalls(t.calls);
    FailureStaysInGroup(u, Ordered(t.calls), t.worlds, i);
  }

  lemma {:induction false} PermanentSpoilsRun(u: seq<Entry>, turns: seq<Turn>, m: nat, n: nat)
    requires m < n <= |turns| && Good(u) && HasPermanent(AfterTurn(RunLedger(u, turns, m), turns[m]))
    ensures RunLedger(u, turns, n) != []
  {
    RunPermanent(u, turns, m + 1, n);
  }

  /** After an external call has failed for good, no later turn can end the run with success. */
  lemma {:induction false} FailureSpoilsRun(u: seq<Entry>, turns: seq<Turn>, m: nat, i: nat, n: nat)
    requires m < n <= |turns| && Good(u) && FailsInTurn(RunLedger(u, turns, m), turns[m], i)
    ensures RunLedger(u, turns, n) != []
  {
    RunKeepsGood(u, turns, m);
    FailureSpoilsTurn(RunLedger(u, turns, m), turns[m], i);
    PermanentSpoilsRun(u, turns, m, n);
  }

  // ----- pending observations over a whole run -----

  /** The response of the turn is processed call by call. */
  predicate RunsTools(t: Turn) {
    !t.failed && t.calls != [] && |t.worlds| == |Ordered(t.calls)|
  }

  /** No turn from m on uses the call id of the entry again for the same tool. */
  ghost predicate FreshInRun(turns: seq<Turn>, m: nat, e: Entry) {
    forall k :: m <= k < |turns| ==> FreshFor(Ordered(turns[k].calls), e)
  }

  predicate ObservedInTurn(u: seq<Entry>, t: Turn, e: Entry) {
    RunsTools(t) && ObservedFrom(u, Ordered(t.calls), t.worlds, 0, e)
  }

  predicate AskedInTurn(u: seq<Entry>, t: Turn, e: Entry) {
    RunsTools(t) && AskedFrom(u, Ordered(t.calls), t.worlds, 0, e)
  }

  /** From turn m on, the stored output the entry waits for is observed. */
  predicate ObservedInRun(u: seq<Entry>, turns: seq<Turn>, m: nat, e: Entry)
    requires m <= |turns|
    decreases |turns| - m
  {
    m < |turns| && (ObservedInTurn(u, turns[m], e) || ObservedInRun(AfterTurn(u, turns[m]), turns, m + 1, e))
  }

  /** From turn m on, the executor is asked for the tool and arguments of the entry before its output is observed. */
  predicate AskedInRun(u: seq<Entry>, turns: seq<Turn>, m: nat, e: Entry)
    requires m <= |turns|
    decreases |turns| - m
  {
    m < |turns| && (AskedInTurn(u, turns[m], e) || (!ObservedInTurn(u, turns[m], e) && AskedInRun(AfterTurn(u, turns[m]), turns, m + 1, e)))
  }

  /** The ledger at the end of a run that goes on from turn m. */
  function LedgerFrom(u: seq<Entry>, turns: seq<Turn>, m: nat): seq<Entry>
    requires m <= |turns|
    decreases |turns| - m
  {
    if m == |turns| then u else LedgerFrom(AfterTurn(u, turns[m]), turns, m + 1)
  }

  lemma {:induction false} LedgerFromStart(u: seq<Entry>, turns: seq<Turn>, m: nat)
    requires m <= |turns|
    ensures LedgerFrom(RunLedger(u, turns, m), turns, m) == RunLedger(u, turns, |turns|)
    decreases |turns| - m
  {
    if m < |turns| { LedgerFromStart(u, turns, m + 1); }
  }

  lemma {:induction false} TurnKeepsPending(u: seq<Entry>, t: Turn, e: Entry)
    requires Good(u) && e in u && e.failure.recovery.Some? && FreshFor(Ordered(t.calls), e)
    ensures !AskedInTurn(u, t, e) && (e in AfterTurn(u, t) || ObservedInTurn(u, t, e))
  {
    if RunsTools(t) { GroupKeepsPending(u, Ordered(t.calls), t.worlds, 0, e); }
  }

  /**
   * While call ids are not used twice, a pending observation survives every turn until its stored output is
   * observed, and until then no call of its tool and arguments reaches the executor.
   */
  lemma {:induction false} RunKeepsPending(u: seq<Entry>, turns: seq<Turn>, m: nat, e: Entry)
    requires m <= |turns| && Good(u) && e in u && e.failure.recovery.Some? && FreshInRun(turns, m, e)
    ensures !AskedInRun(u, turns, m, e) && (e in LedgerFrom(u, turns, m) || ObservedInRun(u, turns, m, e))
    decreases |turns| - m
  {
    if m < |turns| {
      TurnKeepsPending(u, turns[m], e);
      AfterTurnGood(u, turns[m]);
      if !ObservedInTurn(u, turns[m], e) { RunKeepsPending(AfterTurn(u, turns[m]), turns, m + 1, e); }
    }
  }

  /** A run that starts with nothing unresolved and ends so has observed every output it stored. */
  lemma {:induction false} SuccessObservesAll(turns: seq<Turn>, m: nat, e: Entry)
    requires m <= |turns| && e in RunLedger([], turns, m) && e.failure.recovery.Some? && FreshInRun(turns, m, e)
    ensures RunLedger([], turns, |turns|) == [] ==> ObservedInRun(RunLedger([], turns, m), turns, m, e)
  {
    RunKeepsGood([], turns, m);
    RunKeepsPending(RunLedger([], turns, m), turns, m, e);
    LedgerFromStart([], turns, m);
  }

}
