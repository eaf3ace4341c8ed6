/** External tool invocations: a write-ahead journal, and recovery decided by the tier of the tool. */
module ExternalTools {
  import opened Options
  import opened Journal
  import Sequences

  datatype Tier = ReadTier | Idempotent | NonIdempotent

  datatype Answer = Known(output: Bytes) | Unknown | Raised

  /** What the executor answers: an output, a failure, or something that is no result. */
  datatype Execution = Produced(output: Bytes) | Failed | Invalid

  datatype Approver = Approver(tiers: Option<set<Tier>>, allowed: bool)

  /** Configuration and behaviour of the outside during one attempt. */
  datatype Env = Env(
    executor: bool, tier: Option<Tier>, reconcile: Option<Answer>, approver: Option<Approver>, lands: bool, execution: Execution, observed: bool)

  /** `arguments` is absent when they have no canonical JSON form. */
  datatype ToolCall = ToolCall(tool: Str, callId: Str, arguments: Option<Json>)

  datatype ToolResult = ToolResult(ok: bool, output: Option<Ref>, recovery: Option<ObservationRecovery>, ambiguous: bool)

  datatype Effect =
    | Asked(key: InvocationKey, allowed: bool)
    | Stored(bytes: Bytes, mime: string, creator: string)
    | Executed(key: InvocationKey)
    | Landed(key: InvocationKey)
    | Reconciled(key: InvocationKey)
    | Observed(ref: Ref)

  datatype State = State(store: Store, log: seq<Effect>)

  const TEXT := "text/plain"
  const TOOL_CREATOR := "tool:"

  function Apply(s: State, e: Effect): State {
    State(if e.Stored? then Put(s.store, e.bytes, e.mime, e.creator) else s.store, s.log + [e])
  }

  function ApplyAll(s: State, es: seq<Effect>): State
    decreases es
  {
    if es == [] then s else ApplyAll(Apply(s, es[0]), es[1..])
  }

  // ----- what one attempt does, if it is not cut off -----

  datatype Plan = Plan(effects: seq<Effect>, result: ToolResult)

  const REJECTED := ToolResult(false, None, None, false)
  const AMBIGUOUS := ToolResult(false, None, None, true)

  function TierOf(env: Env): Tier {
    if env.tier.Some? then env.tier.value else NonIdempotent
  }

  function KeyOf(principal: Principal, call: ToolCall, arguments: Json): InvocationKey {
    InvocationKey(principal, call.tool, RefText(Sha(Printed(arguments))), call.callId)
  }

  function StoredIntent(i: Intent): Effect {
    Stored(IntentText(i), INTENT_MIME, INTENT_CREATOR)
  }

  function StoredDispatch(key: InvocationKey): Effect {
    StoredIntent(Intent(key, DispatchedStatus, None))
  }

  function RecoveryFor(key: InvocationKey, output: Ref): ObservationRecovery {
    var receipt := Receipt(key, RefText(output));
    ObservationRecovery(key.tool, key.callId, key.digest, RefText(output), RefText(Sha(ReceiptText(receipt))))
  }

  /** Output, receipt and completion are stored before the observation. */
  function CommitPlan(key: InvocationKey, output: Bytes, observed: bool): Plan {
    var ref := Sha(output);
    Plan([Stored(output, TEXT, TOOL_CREATOR), Stored(ReceiptText(Receipt(key, RefText(ref))), RECEIPT_MIME, RECEIPT_CREATOR),
          StoredIntent(Intent(key, CompletedStatus, Some(RefText(ref)))), Observed(ref)],
         ToolResult(observed, Some(ref), if observed then None else Some(RecoveryFor(key, ref)), false))
  }

  function DispatchPlan(key: InvocationKey, env: Env): Plan {
    var started := [Executed(key)] + (if env.lands then [Landed(key)] else []);
    if env.execution.Produced? then
      var commit := CommitPlan(key, env.execution.output, env.observed);
      Plan(started + commit.effects, commit.result)
    else Plan(started, REJECTED)
  }

  /** A journaled dispatch without a known output. */
  function RecoverPlan(key: InvocationKey, env: Env): Plan {
    match TierOf(env)
    case ReadTier => DispatchPlan(key, env)
    case NonIdempotent => Plan([], AMBIGUOUS)
    case Idempotent =>
      if env.reconcile.None? then Plan([], AMBIGUOUS)
      else
        var next :=
          match env.reconcile.value
          case Raised => Plan([], AMBIGUOUS)
          case Known(output) => CommitPlan(key, output, env.observed)
          case Unknown => DispatchPlan(key, env);
        Plan([Reconciled(key)] + next.effects, next.result)
  }

  predicate NeedsApproval(env: Env) {
    env.approver.Some? && TierOf(env) in (if env.approver.value.tiers.Some? then env.approver.value.tiers.value else {Idempotent, NonIdempotent})
  }

  function FreshPlan(key: InvocationKey, env: Env): Plan {
    var next := DispatchPlan(key, env);
    var journaled := [StoredDispatch(key)] + next.effects;
    if !NeedsApproval(env) then Plan(journaled, next.result)
    else if env.approver.value.allowed then Plan([Asked(key, true)] + journaled, next.result)
    else Plan([Asked(key, false)], REJECTED)
  }

  /** The calls rejected before anything happens have no key. */
  function Admitted(principal: Principal, call: ToolCall, env: Env): Option<InvocationKey> {
    if !env.executor || call.tool == Text("") || call.callId == Text("") || call.arguments.None? then None
    else Some(KeyOf(principal, call, call.arguments.value))
  }

  function UseToolPlan(store: Store, principal: Principal, call: ToolCall, env: Env): Plan {
    var key := Admitted(principal, call, env);
    if key.None? then Plan([], REJECTED)
    else if ReadIntent(store, DispatchedRef(key.value)).Some? then RecoverPlan(key.value, env)
    else FreshPlan(key.value, env)
  }

  // ----- the system call, step by step -----

  /** The store and the outside; the process ends when no step remains. */
  class Host {
    var store: Store
    var log: seq<Effect>
    var remaining: nat

    function Here(): State
      reads this
    {
      State(store, log)
    }

    method Step(e: Effect) returns (alive: bool)
      modifies this
      ensures alive <==> old(remaining) > 0
      ensures alive ==> Here() == Apply(old(Here()), e) && remaining == old(remaining) - 1
      ensures !alive ==> Here() == old(Here()) && remaining == 0
    {
      if remaining == 0 { return false; }
      remaining := remaining - 1;
      if e.Stored? { store := Put(store, e.bytes, e.mime, e.creator); }
      log := log + [e];
      alive := true;
    }

    method Steps(es: seq<Effect>) returns (alive: bool)
      modifies this
      ensures alive <==> old(remaining) >= |es|
      ensures Here() == ApplyAll(old(Here()), es[..Least(old(remaining), |es|)])
      ensures alive ==> Here() == ApplyAll(old(Here()), es) && remaining == old(remaining) - |es|
      ensures !alive ==> remaining == 0
    {
      for i := 0 to |es|
        invariant old(remaining) >= i && remaining == old(remaining) - i
        invariant Here() == ApplyAll(old(Here()), es[..i])
      {
        ApplyNext(old(Here()), es, i);
        var going := Step(es[i]);
        if !going { return false; }
      }
      assert es[..|es|] == es;
      alive := true;
    }

    method CommitReconciledOutput(key: InvocationKey, output: Bytes, observed: bool) returns (r: Option<ToolResult>)
      modifies this
      ensures Performed(old(Here()), old(remaining), CommitPlan(key, output, observed), Here(), r)
    {
      var plan := CommitPlan(key, output, observed);
      var alive := Steps(plan.effects);
      r := if alive then Some(plan.result) else None;
    }

    method DispatchAndCommit(key: InvocationKey, env: Env) returns (r: Option<ToolResult>)
      modifies this
      ensures Performed(old(Here()), old(remaining), DispatchPlan(key, env), Here(), r)
    {
      var started := [Executed(key)] + (if env.lands then [Landed(key)] else []);
      ghost var before, budget := Here(), remaining;
      var alive := Steps(started);
      if !alive {
        if env.execution.Produced? { CutEarly(before, budget, started, CommitPlan(key, env.execution.output, env.observed)); }
        return None;
      }
      if !env.execution.Produced? {
        return Some(REJECTED);
      }
      ghost var middle, left := Here(), remaining;
      r := CommitReconciledOutput(key, env.execution.output, env.observed);
      Continued(before, budget, started, CommitPlan(key, env.execution.output, env.observed), Here(), r);
    }

    method RecoverDispatchedInvocation(key: InvocationKey, env: Env) returns (r: Option<ToolResult>)
      modifies this
      ensures Performed(old(Here()), old(remaining), RecoverPlan(key, env), Here(), r)
    {
      match TierOf(env) {
        case ReadTier => r := DispatchAndCommit(key, env);
        case NonIdempotent => r := Some(AMBIGUOUS);
        case Idempotent =>
          if env.reconcile.None? { return Some(AMBIGUOUS); }
          ghost var before, budget := Here(), remaining;
          ghost var next :=
            match env.reconcile.value
            case Raised => Plan([], AMBIGUOUS)
            case Known(output) => CommitPlan(key, output, env.observed)
            case Unknown => DispatchPlan(key, env);
          var alive := Steps([Reconciled(key)]);
          if !alive {
            CutEarly(before, budget, [Reconciled(key)], next);
            return None;
          }
          match env.reconcile.value {
            case Raised => r := Some(AMBIGUOUS);
            case Known(output) => r := CommitReconciledOutput(key, output, env.observed);
            case Unknown => r := DispatchAndCommit(key, env);
          }
          Continued(before, budget, [Reconciled(key)], next, Here(), r);
      }
    }

    /** Every crash point: after any number of effects the attempt may be over. */
    method UseTool(principal: Principal, call: ToolCall, env: Env) returns (r: Option<ToolResult>)
      modifies this
      ensures Performed(old(Here()), old(remaining), UseToolPlan(old(store), principal, call, env), Here(), r)
    {
      var admitted := Admitted(principal, call, env);
      if admitted.None? { return Some(REJECTED); }
      var key := admitted.value;
      if ReadIntent(store, DispatchedRef(key)).Some? {
        r := RecoverDispatchedInvocation(key, env);
        return;
      }
      ghost var before, budget, next := Here(), remaining, DispatchPlan(key, env);
      var gate := if NeedsApproval(env) then [Asked(key, env.approver.value.allowed)] else [];
      var alive := Steps(gate);
      if !alive {
        if env.approver.value.allowed { CutEarly(before, budget, gate, Plan([StoredDispatch(key)] + next.effects, next.result)); }
        return None;
      }
      if NeedsApproval(env) && !env.approver.value.allowed { return Some(REJECTED); }
      ghost var asked, left := Here(), remaining;
      alive := Steps([StoredDispatch(key)]);
      if !alive {
        CutEarly(asked, left, [StoredDispatch(key)], next);
      } else {
        r := DispatchAndCommit(key, env);
        Continued(asked, left, [StoredDispatch(key)], next, Here(), r);
      }
      if !alive { r := None; }
      Continued(before, budget, gate, Plan([StoredDispatch(key)] + next.effects, next.result), Here(), r);
      Sequences.Unit([StoredDispatch(key)] + next.effects);
    }

    /** Observes a stored output again; the tool is not executed. */
    method RetryToolObservation(principal: Principal, recovery: ObservationRecovery, observed: bool) returns (ok: Option<bool>)
      modifies this
      ensures !ValidateRecovery(old(store), principal, recovery) ==> ok == Some(false) && Here() == old(Here())
      ensures ValidateRecovery(old(store), principal, recovery) ==>
                && ok == (if old(remaining) > 0 then Some(observed) else None)
                && Here() == if old(remaining) > 0 then Apply(old(Here()), Observed(recovery.output.ref)) else old(Here())
    {
      if !ValidateRecovery(store, principal, recovery) { return Some(false); }
      var alive := Step(Observed(recovery.output.ref));
      ok := if alive then Some(observed) else None;
    }
  }

  function Least(a: nat, b: nat): nat {
    if a < b then a else b
  }

  /** The plan carried out as far as the steps reach; a result only when it is complete. */
  ghost predicate Performed(before: State, budget: nat, plan: Plan, after: State, r: Option<ToolResult>) {
    && after == ApplyAll(before, plan.effects[..Least(budget, |plan.effects|)])
    && r == if budget >= |plan.effects| then Some(plan.result) else None
  }

  lemma {:induction false} ApplyAppend(s: State, a: seq<Effect>, b: seq<Effect>)
    ensures ApplyAll(s, a + b) == ApplyAll(ApplyAll(s, a), b)
    decreases a
  {
    if a == [] {
      Sequences.Unit(b);
    } else {
      Sequences.Head(a, b);
      ApplyAppend(Apply(s, a[0]), a[1..], b);
    }
  }

  lemma {:induction false} ApplyNext(s: State, es: seq<Effect>, i: nat)
    requires i < |es|
    ensures ApplyAll(s, es[..i + 1]) == Apply(ApplyAll(s, es[..i]), es[i])
  {
    assert es[..i + 1] == es[..i] + [es[i]];
    ApplyAppend(s, es[..i], [es[i]]);
    assert [es[i]][1..] == [];
    assert ApplyAll(Apply(ApplyAll(s, es[..i]), es[i]), []) == Apply(ApplyAll(s, es[..i]), es[i]);
  }

  lemma {:induction false} CutEarly(before: State, budget: nat, first: seq<Effect>, next: Plan)
    requires budget < |first|
    ensures Performed(before, budget, Plan(first + next.effects, next.result), ApplyAll(before, first[..Least(budget, |first|)]), None)
  {
    assert (first + next.effects)[..budget] == first[..budget];
  }

  lemma {:induction false} Continued(before: State, budget: nat, first: seq<Effect>, next: Plan, after: State, r: Option<ToolResult>)
    requires budget >= |first| && Performed(ApplyAll(before, first), budget - |first|, next, after, r)
    ensures Performed(before, budget, Plan(first + next.effects, next.result), after, r)
  {
    var n := Least(budget - |first|, |next.effects|);
    assert (first + next.effects)[..|first| + n] == first + next.effects[..n];
    ApplyAppend(before, first, next.effects[..n]);
  }
}
