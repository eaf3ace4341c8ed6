/** Any sequence of attempts, each cut off anywhere: what happens at most once, and only when allowed. */
module AtMostOnce {
  import opened Options
  import opened Journal
  import opened ExternalTools
  import Sequences

  // ----- logs -----

  function Count(log: seq<Effect>, e: Effect): nat {
    if log == [] then 0 else (if log[0] == e then 1 else 0) + Count(log[1..], e)
  }

  lemma {:induction false} CountAppend(a: seq<Effect>, b: seq<Effect>, e: Effect)
    ensures Count(a + b, e) == Count(a, e) + Count(b, e)
  {
    if a == [] {
      Sequences.Unit(b);
    } else {
      Sequences.Head(a, b);
      CountAppend(a[1..], b, e);
    }
  }

  lemma {:induction false} CountPrefix(log: seq<Effect>, n: nat, e: Effect)
    requires n <= |log|
    ensures Count(log[..n], e) <= Count(log, e)
  {
    assert log == log[..n] + log[n..];
    CountAppend(log[..n], log[n..], e);
  }

  lemma {:induction false} CountAbsent(log: seq<Effect>, e: Effect)
    ensures Count(log, e) == 0 <==> e !in log
  {
    if log != [] {
      assert log == [log[0]] + log[1..];
      CountAbsent(log[1..], e);
    }
  }

  lemma {:induction false} CountOne(x: Effect, e: Effect)
    ensures Count([x], e) == if x == e then 1 else 0
  {
    assert [x][1..] == [];
  }

  lemma {:induction false} StartedCounts(key: InvocationKey, lands: bool)
    ensures var started := [Executed(key)] + (if lands then [Landed(key)] else []);
            Count(started, Executed(key)) <= 1 && Count(started, Landed(key)) <= 1
  {
    StartedCount(key, lands, Executed(key));
    StartedCount(key, lands, Landed(key));
  }

  lemma {:induction false} StartedCount(key: InvocationKey, lands: bool, e: Effect)
    ensures Count([Executed(key)] + (if lands then [Landed(key)] else []), e) <= 1
  {
    CountAppend([Executed(key)], if lands then [Landed(key)] else [], e);
    CountOne(Executed(key), e);
    CountOne(Landed(key), e);
  }

  /** Every occurrence of b has an a before it. */
  ghost predicate Precedes(log: seq<Effect>, a: Effect, b: Effect) {
    forall i :: 0 <= i < |log| && log[i] == b ==> a in log[..i]
  }

  lemma {:induction false} PrecedesAppend(log: seq<Effect>, es: seq<Effect>, n: nat, a: Effect, b: Effect)
    requires Precedes(log, a, b) && (a in log || Precedes(es, a, b)) && n <= |es|
    ensures Precedes(log + es[..n], a, b)
  {
    var all := log + es[..n];
    forall i | 0 <= i < |all| && all[i] == b ensures a in all[..i] {
      if i < |log| {
        assert all[..i] == log[..i];
      } else {
        assert all[..i] == log + es[..i - |log|];
      }
    }
  }

  lemma {:induction false} PrecededPresent(log: seq<Effect>, a: Effect, b: Effect)
    requires Precedes(log, a, b) && b in log
    ensures a in log
  {
    var i :| 0 <= i < |log| && log[i] == b;
  }

  lemma {:induction false} HeadPrecedes(gate: seq<Effect>, a: Effect, rest: seq<Effect>, b: Effect)
    requires b !in gate && a != b
    ensures Precedes(gate + [a] + rest, a, b)
  {
    var all := gate + [a] + rest;
    assert all[|gate|] == a;
    forall i | 0 <= i < |all| && all[i] == b ensures a in all[..i] {
      assert i >= |gate|;
      assert all[..i][|gate|] == a;
    }
  }

  lemma {:induction false} LogOf(s: State, es: seq<Effect>)
    ensures ApplyAll(s, es).log == s.log + es
    decreases es
  {
    if es == [] {
      Sequences.Unit(s.log);
    } else {
      LogOf(Apply(s, es[0]), es[1..]);
      Sequences.Associative(s.log, [es[0]], es[1..]);
      assert es == [es[0]] + es[1..];
    }
  }

  // ----- the store follows the log -----

  lemma {:induction false} IntentInjective(a: Intent, b: Intent)
    requires IntentText(a) == IntentText(b)
    ensures a == b
  {
    IntentRoundTrip(a);
    IntentRoundTrip(b);
  }

  /** Text that is no record of the journal. */
  ghost predicate ForeignText(b: Bytes) {
    (forall i :: b != IntentText(i)) && (forall r :: b != ReceiptText(r))
  }

  ghost predicate Lawful(e: Effect) {
    e.Stored? ==> Owned(Blob(e.bytes, e.mime, e.creator))
  }

  /** The journal of a key is in the store exactly when the log says so. */
  ghost predicate Consistent(s: State, k: InvocationKey) {
    Addressed(s.store) && OwnWriters(s.store) && (DispatchedRef(k) in s.store <==> StoredDispatch(k) in s.log)
  }

  lemma {:induction false} ApplyConsistent(s: State, e: Effect, k: InvocationKey)
    requires Consistent(s, k) && Lawful(e)
    ensures Consistent(Apply(s, e), k) && Extends(Apply(s, e).store, s.store)
  {
    if e.Stored? {
      PutOwned(s.store, e.bytes, e.mime, e.creator);
      PutExtends(s.store, e.bytes, e.mime, e.creator);
    }
  }

  lemma {:induction false} ApplyAllConsistent(s: State, es: seq<Effect>, k: InvocationKey)
    requires Consistent(s, k) && forall e :: e in es ==> Lawful(e)
    ensures Consistent(ApplyAll(s, es), k) && Extends(ApplyAll(s, es).store, s.store)
    decreases es
  {
    if es != [] {
      assert es[0] in es;
      ApplyConsistent(s, es[0], k);
      ApplyAllConsistent(Apply(s, es[0]), es[1..], k);
    }
  }

  // ----- attempts -----

  datatype Attempt = Attempt(principal: Principal, call: ToolCall, env: Env, survives: nat)

  function AttemptKey(a: Attempt): Option<InvocationKey> {
    Admitted(a.principal, a.call, a.env)
  }

  function AttemptPlan(s: State, a: Attempt): Plan {
    UseToolPlan(s.store, a.principal, a.call, a.env)
  }

  function After(s: State, a: Attempt): State {
    var es := AttemptPlan(s, a).effects;
    ApplyAll(s, es[..Least(a.survives, |es|)])
  }

  function Run(s: State, attempts: seq<Attempt>): State
    decreases attempts
  {
    if attempts == [] then s else Run(After(s, attempts[0]), attempts[1..])
  }

  /** Tools and reconcile methods do not output the journal's own records. */
  ghost predicate Honest(a: Attempt) {
    && (a.env.execution.Produced? ==> ForeignText(a.env.execution.output))
    && (a.env.reconcile.Some? && a.env.reconcile.value.Known? ==> ForeignText(a.env.reconcile.value.output))
  }

  lemma {:induction false} CommitFacts(key: InvocationKey, output: Bytes, observed: bool)
    requires ForeignText(output)
    ensures forall e :: e in CommitPlan(key, output, observed).effects ==> Lawful(e) && (e.Stored? || e.Observed?)
    ensures forall k :: StoredDispatch(k) !in CommitPlan(key, output, observed).effects
  {
    var receipt, completed := Receipt(key, RefText(Sha(output))), Intent(key, CompletedStatus, Some(RefText(Sha(output))));
    ReceiptOwned(receipt);
    IntentOwned(completed);
    forall k ensures StoredDispatch(k) !in CommitPlan(key, output, observed).effects {
      KindsDiffer(Intent(k, DispatchedStatus, None), receipt);
      if IntentText(Intent(k, DispatchedStatus, None)) == IntentText(completed) { IntentInjective(Intent(k, DispatchedStatus, None), completed); }
    }
  }

  /** Nothing but the given invocation is executed, once, and no dispatch is journaled. */
  lemma {:induction false} DispatchFacts(key: InvocationKey, env: Env)
    requires env.execution.Produced? ==> ForeignText(env.execution.output)
    ensures forall e :: e in DispatchPlan(key, env).effects ==> Lawful(e) && !e.Asked? && (e.Executed? || e.Landed? ==> e.key == key)
    ensures forall k :: StoredDispatch(k) !in DispatchPlan(key, env).effects
    ensures Count(DispatchPlan(key, env).effects, Executed(key)) <= 1 && Count(DispatchPlan(key, env).effects, Landed(key)) <= 1
  {
    if env.execution.Produced? { CommitFacts(key, env.execution.output, env.observed); }
    DispatchCount(key, env, Executed(key));
    DispatchCount(key, env, Landed(key));
  }

  lemma {:induction false} DispatchCount(key: InvocationKey, env: Env, e: Effect)
    requires env.execution.Produced? ==> ForeignText(env.execution.output)
    requires e == Executed(key) || e == Landed(key)
    ensures Count(DispatchPlan(key, env).effects, e) <= 1
  {
    StartedCounts(key, env.lands);
    if env.execution.Produced? {
      var started := [Executed(key)] + (if env.lands then [Landed(key)] else []);
      var commit := CommitPlan(key, env.execution.output, env.observed);
      CommitFacts(key, env.execution.output, env.observed);
      CountAppend(started, commit.effects, e);
      CountAbsent(commit.effects, e);
    }
  }

  lemma {:induction false} RecoverFacts(key: InvocationKey, env: Env)
    requires env.execution.Produced? ==> ForeignText(env.execution.output)
    requires env.reconcile.Some? && env.reconcile.value.Known? ==> ForeignText(env.reconcile.value.output)
    ensures forall e :: e in RecoverPlan(key, env).effects ==> Lawful(e) && !e.Asked? && (e.Executed? || e.Landed? ==> e.key == key)
    ensures forall k :: StoredDispatch(k) !in RecoverPlan(key, env).effects
    ensures TierOf(env) == NonIdempotent ==> RecoverPlan(key, env).effects == []
  {
    DispatchFacts(key, env);
    if env.reconcile.Some? && env.reconcile.value.Known? { CommitFacts(key, env.reconcile.value.output, env.observed); }
  }

  /** Recovery of an idempotent tool lands an effect only when reconcile does not know one. */
  lemma {:induction false} RecoverLanded(key: InvocationKey, env: Env)
    requires env.execution.Produced? ==> ForeignText(env.execution.output)
    requires env.reconcile.Some? && env.reconcile.value.Known? ==> ForeignText(env.reconcile.value.output)
    requires TierOf(env) == Idempotent
    ensures Count(RecoverPlan(key, env).effects, Landed(key)) <= if env.reconcile == Some(Unknown) then 1 else 0
  {
    CountOne(Reconciled(key), Landed(key));
    if env.reconcile.Some? {
      match env.reconcile.value {
        case Raised => CountAppend([Reconciled(key)], [], Landed(key));
        case Known(output) =>
          CommitFacts(key, output, env.observed);
          CountAppend([Reconciled(key)], CommitPlan(key, output, env.observed).effects, Landed(key));
          CountAbsent(CommitPlan(key, output, env.observed).effects, Landed(key));
        case Unknown =>
          DispatchFacts(key, env);
          CountAppend([Reconciled(key)], DispatchPlan(key, env).effects, Landed(key));
      }
    }
  }

  lemma {:induction false} DispatchInjective(a: InvocationKey, b: InvocationKey)
    requires StoredDispatch(a) == StoredDispatch(b)
    ensures a == b
  {
    IntentInjective(Intent(a, DispatchedStatus, None), Intent(b, DispatchedStatus, None));
  }

  function Gate(key: InvocationKey, env: Env): seq<Effect> {
    if NeedsApproval(env) then [Asked(key, env.approver.value.allowed)] else []
  }

  predicate Allowed(env: Env) {
    NeedsApproval(env) ==> env.approver.value.allowed
  }

  lemma {:induction false} FreshParts(key: InvocationKey, env: Env)
    ensures FreshPlan(key, env).effects == Gate(key, env) + (if Allowed(env) then [StoredDispatch(key)] + DispatchPlan(key, env).effects else [])
  {
  }

  lemma {:induction false} FreshMembers(key: InvocationKey, env: Env)
    requires env.execution.Produced? ==> ForeignText(env.execution.output)
    ensures forall e :: e in FreshPlan(key, env).effects ==> Lawful(e) && (e.Executed? || e.Landed? || e.Asked? ==> e.key == key)
    ensures forall k :: k != key ==> StoredDispatch(k) !in FreshPlan(key, env).effects
  {
    DispatchFacts(key, env);
    FreshParts(key, env);
    IntentOwned(Intent(key, DispatchedStatus, None));
    forall k | k != key ensures StoredDispatch(k) != StoredDispatch(key) {
      if StoredDispatch(k) == StoredDispatch(key) { DispatchInjective(k, key); }
    }
  }

  /** The gate, then the journal entry, then what the dispatch does. */
  lemma {:induction false} FreshOrder(key: InvocationKey, env: Env, e: Effect)
    requires env.execution.Produced? ==> ForeignText(env.execution.output)
    requires e == Executed(key) || e == Landed(key)
    ensures Count(FreshPlan(key, env).effects, e) <= 1 && Precedes(FreshPlan(key, env).effects, StoredDispatch(key), e)
  {
    var gate, stored, rest := Gate(key, env), [StoredDispatch(key)], DispatchPlan(key, env).effects;
    FreshParts(key, env);
    CountAbsent(gate, e);
    if Allowed(env) {
      DispatchFacts(key, env);
      Sequences.Associative(gate, stored, rest);
      CountAbsent(gate + stored, e);
      CountAppend(gate + stored, rest, e);
      HeadPrecedes(gate, StoredDispatch(key), rest, e);
    } else {
      Sequences.Unit(gate);
    }
  }

  lemma {:induction false} FreshAsked(key: InvocationKey, env: Env, e: Effect)
    requires NeedsApproval(env) && (e == StoredDispatch(key) || e == Executed(key))
    ensures Precedes(FreshPlan(key, env).effects, Asked(key, true), e)
  {
    FreshParts(key, env);
    if Allowed(env) {
      var rest := [StoredDispatch(key)] + DispatchPlan(key, env).effects;
      Sequences.Unit([Asked(key, true)]);
      HeadPrecedes([], Asked(key, true), rest, e);
    } else {
      assert FreshPlan(key, env).effects == [Asked(key, false)];
    }
  }

  // ----- one attempt -----

  lemma {:induction false} AttemptLawful(s: State, a: Attempt, k: InvocationKey)
    requires Consistent(s, k) && Honest(a)
    ensures forall e :: e in AttemptPlan(s, a).effects ==> Lawful(e)
    ensures AttemptKey(a) != Some(k) ==> forall e :: e in AttemptPlan(s, a).effects ==>
                                          e != StoredDispatch(k) && (e.Executed? || e.Landed? ==> e.key != k)
  {
    if AttemptKey(a).Some? {
      RecoverFacts(AttemptKey(a).value, a.env);
      FreshMembers(AttemptKey(a).value, a.env);
    }
  }

  lemma {:induction false} DispatchSeen(s: State, k: InvocationKey)
    requires Consistent(s, k)
    ensures ReadIntent(s.store, DispatchedRef(k)).Some? <==> StoredDispatch(k) in s.log
  {
    ReadStored(s.store, Intent(k, DispatchedStatus, None));
  }

  lemma {:induction false} AfterConsistent(s: State, a: Attempt, k: InvocationKey)
    requires Consistent(s, k) && Honest(a)
    ensures Consistent(After(s, a), k) && Extends(After(s, a).store, s.store)
    ensures After(s, a).log == s.log + AttemptPlan(s, a).effects[..Least(a.survives, |AttemptPlan(s, a).effects|)]
  {
    var es := AttemptPlan(s, a).effects;
    AttemptLawful(s, a, k);
    ApplyAllConsistent(s, es[..Least(a.survives, |es|)], k);
    LogOf(s, es[..Least(a.survives, |es|)]);
  }

  /** Nothing about the invocation happens before its dispatch is journaled. */
  ghost predicate Journaled(s: State, k: InvocationKey) {
    Consistent(s, k) && Precedes(s.log, StoredDispatch(k), Executed(k)) && Precedes(s.log, StoredDispatch(k), Landed(k))
  }

  lemma {:induction false} AfterJournaled(s: State, a: Attempt, k: InvocationKey)
    requires Journaled(s, k) && Honest(a)
    ensures Journaled(After(s, a), k)
  {
    var es := AttemptPlan(s, a).effects;
    AfterConsistent(s, a, k);
    AttemptLawful(s, a, k);
    DispatchSeen(s, k);
    if AttemptKey(a) == Some(k) && StoredDispatch(k) !in s.log {
      FreshOrder(k, a.env, Executed(k));
      FreshOrder(k, a.env, Landed(k));
    }
    PrecedesAppend(s.log, es, Least(a.survives, |es|), StoredDispatch(k), Executed(k));
    PrecedesAppend(s.log, es, Least(a.survives, |es|), StoredDispatch(k), Landed(k));
  }

  /** A fresh store and an empty log are where every history starts. */
  lemma {:induction false} StartJournaled(k: InvocationKey)
    ensures Journaled(State(map[], []), k) && AllowedFirst([], k) && Count([], Executed(k)) == Count([], Landed(k)) == 0
  {
  }

  /** How often an attempt may add an effect of the invocation. */
  lemma {:induction false} AfterCount(s: State, a: Attempt, k: InvocationKey, e: Effect)
    requires Journaled(s, k) && Honest(a)
    ensures Count(After(s, a).log, e) <= Count(s.log, e) + Count(AttemptPlan(s, a).effects, e)
  {
    var es := AttemptPlan(s, a).effects;
    AfterConsistent(s, a, k);
    CountAppend(s.log, es[..Least(a.survives, |es|)], e);
    CountPrefix(es, Least(a.survives, |es|), e);
  }

  lemma {:induction false} NotYet(s: State, k: InvocationKey, e: Effect)
    requires Journaled(s, k) && StoredDispatch(k) !in s.log && (e == Executed(k) || e == Landed(k))
    ensures Count(s.log, e) == 0
  {
    CountAbsent(s.log, e);
    if e in s.log { PrecededPresent(s.log, StoredDispatch(k), e); }
  }

  /** The tier under which an attempt runs. */
  predicate RunsAs(a: Attempt, k: InvocationKey, tiers: set<Tier>) {
    AttemptKey(a) == Some(k) ==> TierOf(a.env) in tiers
  }

  lemma {:induction false} OnceExecuted(s: State, a: Attempt, k: InvocationKey)
    requires Journaled(s, k) && Honest(a) && RunsAs(a, k, {NonIdempotent}) && Count(s.log, Executed(k)) <= 1
    ensures Count(After(s, a).log, Executed(k)) <= 1
  {
    AfterCount(s, a, k, Executed(k));
    AttemptLawful(s, a, k);
    DispatchSeen(s, k);
    CountAbsent(AttemptPlan(s, a).effects, Executed(k));
    if AttemptKey(a) == Some(k) {
      RecoverFacts(k, a.env);
      if StoredDispatch(k) !in s.log {
        FreshOrder(k, a.env, Executed(k));
        NotYet(s, k, Executed(k));
      }
    }
  }

  /** Reconcile never denies an effect that has landed. */
  predicate Truthful(s: State, a: Attempt, k: InvocationKey) {
    AttemptKey(a) == Some(k) && a.env.reconcile == Some(Unknown) ==> Landed(k) !in s.log
  }

  /** What one attempt can add to the landed effects of its key. */
  lemma {:induction false} PlanLanded(s: State, a: Attempt, k: InvocationKey)
    requires Journaled(s, k) && Honest(a) && Truthful(s, a, k) && RunsAs(a, k, {Idempotent, NonIdempotent}) && AttemptKey(a) == Some(k)
    ensures Count(AttemptPlan(s, a).effects, Landed(k)) <= if Landed(k) in s.log then 0 else 1
  {
    DispatchSeen(s, k);
    if StoredDispatch(k) in s.log {
      RecoverFacts(k, a.env);
      if TierOf(a.env) == Idempotent { RecoverLanded(k, a.env); }
    } else {
      FreshOrder(k, a.env, Landed(k));
      NotYet(s, k, Landed(k));
      CountAbsent(s.log, Landed(k));
    }
  }

  lemma {:induction false} OnceLanded(s: State, a: Attempt, k: InvocationKey)
    requires Journaled(s, k) && Honest(a) && Truthful(s, a, k) && RunsAs(a, k, {Idempotent, NonIdempotent}) && Count(s.log, Landed(k)) <= 1
    ensures Count(After(s, a).log, Landed(k)) <= 1
  {
    AfterCount(s, a, k, Landed(k));
    CountAbsent(s.log, Landed(k));
    if AttemptKey(a) == Some(k) {
      PlanLanded(s, a, k);
    } else {
      AttemptLawful(s, a, k);
      CountAbsent(AttemptPlan(s, a).effects, Landed(k));
    }
  }

  // ----- any sequence of attempts -----

  ghost predicate AllHonest(attempts: seq<Attempt>) {
    forall i :: 0 <= i < |attempts| ==> Honest(attempts[i])
  }

  predicate AllRunAs(attempts: seq<Attempt>, k: InvocationKey, tiers: set<Tier>) {
    forall i :: 0 <= i < |attempts| ==> RunsAs(attempts[i], k, tiers)
  }

  lemma {:induction false} RunJournaled(s: State, attempts: seq<Attempt>, k: InvocationKey)
    requires Journaled(s, k) && AllHonest(attempts)
    ensures Journaled(Run(s, attempts), k) && Extends(Run(s, attempts).store, s.store)
    decreases attempts
  {
    if attempts != [] {
      AfterJournaled(s, attempts[0], k);
      AfterConsistent(s, attempts[0], k);
      RunJournaled(After(s, attempts[0]), attempts[1..], k);
    }
  }

  /** A non-idempotent tool is executed at most once per invocation key, wherever the attempts are cut off. */
  lemma {:induction false} ExecutedAtMostOnce(s: State, attempts: seq<Attempt>, k: InvocationKey)
    requires Journaled(s, k) && AllHonest(attempts) && Count(s.log, Executed(k)) <= 1
    requires AllRunAs(attempts, k, {NonIdempotent})
    ensures Count(Run(s, attempts).log, Executed(k)) <= 1
    decreases attempts
  {
    if attempts != [] {
      OnceExecuted(s, attempts[0], k);
      AfterJournaled(s, attempts[0], k);
      ExecutedAtMostOnce(After(s, attempts[0]), attempts[1..], k);
    }
  }

  predicate AllTruthful(s: State, attempts: seq<Attempt>, k: InvocationKey)
    decreases attempts
  {
    attempts == [] || (Truthful(s, attempts[0], k) && AllTruthful(After(s, attempts[0]), attempts[1..], k))
  }

  /** With a reconcile that never denies a landed effect, the effect of an invocation lands at most once. */
  lemma {:induction false} LandedAtMostOnce(s: State, attempts: seq<Attempt>, k: InvocationKey)
    requires Journaled(s, k) && AllHonest(attempts) && AllTruthful(s, attempts, k) && Count(s.log, Landed(k)) <= 1
    requires AllRunAs(attempts, k, {Idempotent, NonIdempotent})
    ensures Count(Run(s, attempts).log, Landed(k)) <= 1
    decreases attempts
  {
    if attempts != [] {
      OnceLanded(s, attempts[0], k);
      AfterJournaled(s, attempts[0], k);
      LandedAtMostOnce(After(s, attempts[0]), attempts[1..], k);
    }
  }

  // ----- the gate -----

  predicate Gated(a: Attempt, k: InvocationKey) {
    AttemptKey(a) == Some(k) ==> NeedsApproval(a.env)
  }

  /** Neither dispatch nor execution without an earlier allowance. */
  ghost predicate AllowedFirst(log: seq<Effect>, k: InvocationKey) {
    Precedes(log, Asked(k, true), StoredDispatch(k)) && Precedes(log, Asked(k, true), Executed(k))
  }

  lemma {:induction false} PlanAllowed(s: State, a: Attempt, k: InvocationKey, e: Effect)
    requires Journaled(s, k) && Honest(a) && Gated(a, k) && AllowedFirst(s.log, k) && (e == StoredDispatch(k) || e == Executed(k))
    ensures Asked(k, true) in s.log || Precedes(AttemptPlan(s, a).effects, Asked(k, true), e)
  {
    DispatchSeen(s, k);
    if AttemptKey(a) != Some(k) {
      AttemptLawful(s, a, k);
    } else if StoredDispatch(k) in s.log {
      PrecededPresent(s.log, Asked(k, true), StoredDispatch(k));
    } else {
      FreshAsked(k, a.env, e);
    }
  }

  lemma {:induction false} AfterAllowed(s: State, a: Attempt, k: InvocationKey)
    requires Journaled(s, k) && Honest(a) && Gated(a, k) && AllowedFirst(s.log, k)
    ensures AllowedFirst(After(s, a).log, k)
  {
    var es := AttemptPlan(s, a).effects;
    AfterConsistent(s, a, k);
    PlanAllowed(s, a, k, StoredDispatch(k));
    PlanAllowed(s, a, k, Executed(k));
    PrecedesAppend(s.log, es, Least(a.survives, |es|), Asked(k, true), StoredDispatch(k));
    PrecedesAppend(s.log, es, Least(a.survives, |es|), Asked(k, true), Executed(k));
  }

  /** While an approver gates the tool, nothing is executed without an earlier allowance of the same key. */
  lemma {:induction false} GatedExecution(s: State, attempts: seq<Attempt>, k: InvocationKey)
    requires Journaled(s, k) && AllHonest(attempts) && AllowedFirst(s.log, k)
    requires forall i :: 0 <= i < |attempts| ==> Gated(attempts[i], k)
    ensures AllowedFirst(Run(s, attempts).log, k)
    decreases attempts
  {
    if attempts != [] {
      AfterAllowed(s, attempts[0], k);
      AfterJournaled(s, attempts[0], k);
      GatedExecution(After(s, attempts[0]), attempts[1..], k);
    }
  }

  /** From an empty store and log: every promise of this module about any sequence of attempts. */
  lemma {:induction false} FromEmptyStore(attempts: seq<Attempt>, k: InvocationKey)
    requires AllHonest(attempts)
    ensures var log := Run(State(map[], []), attempts).log;
            && Precedes(log, StoredDispatch(k), Executed(k)) && Precedes(log, StoredDispatch(k), Landed(k))
            && (AllRunAs(attempts, k, {NonIdempotent}) ==> Count(log, Executed(k)) <= 1)
            && (AllRunAs(attempts, k, {Idempotent, NonIdempotent}) && AllTruthful(State(map[], []), attempts, k) ==> Count(log, Landed(k)) <= 1)
            && ((forall i :: 0 <= i < |attempts| ==> Gated(attempts[i], k)) ==> AllowedFirst(log, k))
  {
    var s := State(map[], []);
    StartJournaled(k);
    RunJournaled(s, attempts, k);
    if AllRunAs(attempts, k, {NonIdempotent}) { ExecutedAtMostOnce(s, attempts, k); }
    if AllRunAs(attempts, k, {Idempotent, NonIdempotent}) && AllTruthful(s, attempts, k) { LandedAtMostOnce(s, attempts, k); }
    if forall i :: 0 <= i < |attempts| ==> Gated(attempts[i], k) { GatedExecution(s, attempts, k); }
  }

  /** A gated attempt executes without asking exactly when it resumes a journaled dispatch it may repeat. */
  lemma {:induction false} ExecutesUnasked(s: State, a: Attempt, k: InvocationKey)
    requires Consistent(s, k) && Honest(a) && AttemptKey(a) == Some(k) && NeedsApproval(a.env)
    ensures Executed(k) in AttemptPlan(s, a).effects && Asked(k, true) !in AttemptPlan(s, a).effects
       <==> StoredDispatch(k) in s.log && (TierOf(a.env) == ReadTier || (TierOf(a.env) == Idempotent && a.env.reconcile == Some(Unknown)))
  {
    DispatchSeen(s, k);
    RecoverFacts(k, a.env);
    FreshParts(k, a.env);
    DispatchFacts(k, a.env);
    assert Executed(k) == DispatchPlan(k, a.env).effects[0];
    if StoredDispatch(k) in s.log {
      RecoverExecutes(k, a.env);
    } else if Allowed(a.env) {
      assert Asked(k, true) == FreshPlan(k, a.env).effects[0];
    }
  }

  lemma {:induction false} RecoverExecutes(key: InvocationKey, env: Env)
    requires env.execution.Produced? ==> ForeignText(env.execution.output)
    requires env.reconcile.Some? && env.reconcile.value.Known? ==> ForeignText(env.reconcile.value.output)
    ensures Executed(key) in RecoverPlan(key, env).effects
       <==> TierOf(env) == ReadTier || (TierOf(env) == Idempotent && env.reconcile == Some(Unknown))
  {
    assert Executed(key) == DispatchPlan(key, env).effects[0];
    if TierOf(env) == Idempotent && env.reconcile.Some? && env.reconcile.value.Known? {
      CommitFacts(key, env.reconcile.value.output, env.observed);
    }
  }

  // ----- recoveries -----

  function StoredReceipt(key: InvocationKey, output: Bytes): Effect {
    Stored(ReceiptText(Receipt(key, RefText(Sha(output)))), RECEIPT_MIME, RECEIPT_CREATOR)
  }

  lemma {:induction false} CommitStores(first: seq<Effect>, key: InvocationKey, output: Bytes, observed: bool)
    ensures Stored(output, TEXT, TOOL_CREATOR) in first + CommitPlan(key, output, observed).effects
    ensures StoredReceipt(key, output) in first + CommitPlan(key, output, observed).effects
  {
    var es := CommitPlan(key, output, observed).effects;
    assert es[0] == Stored(output, TEXT, TOOL_CREATOR) && es[1] == StoredReceipt(key, output);
  }

  /** A plan offers a recovery only for an output it stores, with the receipt beside it. */
  ghost predicate Offers(p: Plan, key: InvocationKey) {
    p.result.recovery.Some? ==> exists output ::
      p.result.recovery == Some(RecoveryFor(key, Sha(output))) && Stored(output, TEXT, TOOL_CREATOR) in p.effects && StoredReceipt(key, output) in p.effects
  }

  lemma {:induction false} OffersAfter(first: seq<Effect>, p: Plan, key: InvocationKey)
    requires Offers(p, key)
    ensures Offers(Plan(first + p.effects, p.result), key)
  {
    if p.result.recovery.Some? {
      var output :| p.result.recovery == Some(RecoveryFor(key, Sha(output))) && Stored(output, TEXT, TOOL_CREATOR) in p.effects && StoredReceipt(key, output) in p.effects;
      assert Stored(output, TEXT, TOOL_CREATOR) in first + p.effects && StoredReceipt(key, output) in first + p.effects;
    }
  }

  lemma {:induction false} DispatchOffers(key: InvocationKey, env: Env)
    ensures Offers(DispatchPlan(key, env), key)
  {
    if env.execution.Produced? {
      var commit := CommitPlan(key, env.execution.output, env.observed);
      CommitStores([], key, env.execution.output, env.observed);
      Sequences.Unit(commit.effects);
      OffersAfter([Executed(key)] + (if env.lands then [Landed(key)] else []), commit, key);
    }
  }

  lemma {:induction false} RecoverOffers(k: InvocationKey, env: Env)
    ensures Offers(RecoverPlan(k, env), k)
  {
    DispatchOffers(k, env);
    if env.reconcile.Some? && env.reconcile.value.Known? {
      CommitStores([Reconciled(k)], k, env.reconcile.value.output, env.observed);
    }
    OffersAfter([Reconciled(k)], DispatchPlan(k, env), k);
  }

  lemma {:induction false} FreshOffers(k: InvocationKey, env: Env)
    ensures Offers(FreshPlan(k, env), k)
  {
    var dispatch := DispatchPlan(k, env);
    DispatchOffers(k, env);
    FreshParts(k, env);
    OffersAfter([StoredDispatch(k)], dispatch, k);
    OffersAfter(Gate(k, env), Plan([StoredDispatch(k)] + dispatch.effects, dispatch.result), k);
  }

  lemma {:induction false} UseToolOffers(s: State, a: Attempt, k: InvocationKey)
    requires AttemptKey(a) == Some(k)
    ensures Offers(AttemptPlan(s, a), k)
  {
    RecoverOffers(k, a.env);
    FreshOffers(k, a.env);
  }

  lemma {:induction false} StoredThere(s: State, es: seq<Effect>, k: InvocationKey, e: Effect)
    requires Consistent(s, k) && (forall x :: x in es ==> Lawful(x)) && e in es && e.Stored?
    ensures Sha(e.bytes) in ApplyAll(s, es).store
    decreases es
  {
    assert es[0] in es && es == [es[0]] + es[1..];
    ApplyConsistent(s, es[0], k);
    if e == es[0] {
      PutExtends(s.store, e.bytes, e.mime, e.creator);
      ApplyAllConsistent(Apply(s, es[0]), es[1..], k);
    } else {
      StoredThere(Apply(s, es[0]), es[1..], k, e);
    }
  }

  /** A failed observation leaves a recovery that stays valid however the store grows. */
  lemma {:induction false} RecoveryValid(s: State, a: Attempt, k: InvocationKey, later: Store)
    requires Consistent(s, k) && Honest(a) && AttemptKey(a) == Some(k) && AttemptPlan(s, a).result.recovery.Some?
    requires Extends(later, ApplyAll(s, AttemptPlan(s, a).effects).store)
    ensures ValidateRecovery(later, a.principal, AttemptPlan(s, a).result.recovery.value)
  {
    var p := AttemptPlan(s, a);
    UseToolOffers(s, a, k);
    AttemptLawful(s, a, k);
    var output :| p.result.recovery == Some(RecoveryFor(k, Sha(output))) && Stored(output, TEXT, TOOL_CREATOR) in p.effects && StoredReceipt(k, output) in p.effects;
    OfferedValid(s, p.effects, k, output);
    ValidatedLater(ApplyAll(s, p.effects).store, later, k.principal, RecoveryFor(k, Sha(output)));
  }

  lemma {:induction false} OfferedValid(s: State, es: seq<Effect>, k: InvocationKey, output: Bytes)
    requires Consistent(s, k) && (forall x :: x in es ==> Lawful(x)) && k.tool != Text("") && k.callId != Text("") && k.digest.RefText?
    requires Stored(output, TEXT, TOOL_CREATOR) in es && StoredReceipt(k, output) in es
    ensures ValidateRecovery(ApplyAll(s, es).store, k.principal, RecoveryFor(k, Sha(output)))
  {
    var store, receipt := ApplyAll(s, es).store, Receipt(k, RefText(Sha(output)));
    ApplyAllConsistent(s, es, k);
    StoredThere(s, es, k, Stored(output, TEXT, TOOL_CREATOR));
    StoredThere(s, es, k, StoredReceipt(k, output));
    assert Owned(store[Sha(ReceiptText(receipt))]);
    assert ReceiptOf(k.principal, RecoveryFor(k, Sha(output))) == receipt;
    ValidatedWhen(store, k.principal, RecoveryFor(k, Sha(output)));
  }
}
