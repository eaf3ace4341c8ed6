/** The supervisor's steps, in any interleaving, against the limits of the scheduler. */
module Supervisor {
  import opened Options
  import opened Scheduler

  /** How a start ends: the agent runs, or the start throws before or after registering it. */
  datatype Start = Runs | ThrowsEarly | ThrowsLate

  datatype Step =
    | Activate(id: string, base: int, at: int)
    | BeginPass(world: Option<set<string>>, budgetAt: int, sortAt: int)
    | StartNext(start: Start)
    | EndPass
    | SignalDone(id: string)
    | Complete(id: string, turns: Option<int>)
    | Retire(id: string)
    | Change
    | CheckStall

  predicate Fits(limit: Option<int>, n: int) {
    limit.Some? ==> n <= limit.value
  }

  ghost predicate Distinct(ids: seq<string>) {
    forall i, k :: 0 <= i < k < |ids| ==> ids[i] != ids[k]
  }

  /** A pass in progress holds only admitted agents that never started, each once. */
  ghost predicate Startable(batch: seq<string>, known: set<string>, everStarted: set<string>) {
    Distinct(batch) && forall id :: id in batch ==> id in known && id !in everStarted
  }

  /** The ended agents, each counted once, and none of them running. */
  ghost predicate Ends(ended: set<string>, running: set<string>, everStarted: set<string>, completed: nat) {
    completed == |ended| && ended !! running && ended <= everStarted
  }

  /** Limits and accounting, for the agents of a pass that still wait as well. */
  ghost predicate Accounts(policy: Policy, waiting: nat, ended: set<string>, running: set<string>, everStarted: set<string>, started: int, completed: nat) {
    && Fits(policy.maxConcurrent, |running| + waiting) && Fits(policy.maxTotal, started + waiting)
    && Ends(ended, running, everStarted, completed)
  }

  lemma {:induction false} OneMoreEnd(
    policy: Policy, waiting: nat, ended: set<string>, running: set<string>, everStarted: set<string>, started: int, completed: nat, id: string)
    requires Accounts(policy, waiting, ended, running, everStarted, started, completed) && running <= everStarted
    ensures Accounts(policy, waiting, ended + (if id in running then {id} else {}), running - {id}, everStarted, started,
                     completed + if id in running then 1 else 0)
  {
    assert running == (running - {id}) + (if id in running then {id} else {});
  }

  class ClusterSupervisor {
    const scheduler: SwarmScheduler
    var agents: set<string>
    var batch: seq<string>
    var dispatching: bool
    ghost var ended: set<string>

    ghost predicate Valid()
      reads this, scheduler
    {
      && scheduler.Valid() && scheduler.Once()
      && Startable(batch, scheduler.known, scheduler.everStarted)
      && (batch != [] ==> dispatching)
      && agents <= scheduler.everStarted
      && Accounts(scheduler.policy, |batch|, ended, scheduler.running, scheduler.everStarted, scheduler.startedTotal, scheduler.completedTotal)
    }

    constructor (policy: Option<PolicyInput>, startedAt: int)
      ensures Valid() && fresh(scheduler) && agents == {} && !dispatching
    {
      scheduler := new SwarmScheduler(policy, startedAt);
      agents, batch, dispatching, ended := {}, [], false, {};
    }

    method OnParticipantActivated(id: string, base: int, at: int)
      requires Valid()
      modifies scheduler
      ensures Valid() && scheduler.known == old(scheduler.known) + (if id in agents then {} else {id})
      ensures scheduler.pending == old(scheduler.pending)
           + if id in agents || id in old(scheduler.known) then [] else [Pending(id, at, base, old(scheduler.sequenceCounter), ConditionUnmet, 0)]
      ensures scheduler.running == old(scheduler.running) && scheduler.everStarted == old(scheduler.everStarted)
    {
      if id in agents { return; }
      var _ := scheduler.Admit(id, base, at);
    }

    /** A dispatch pass selects its whole batch at once. */
    method BeginDispatch(world: Option<set<string>>, budgetAt: int, sortAt: int)
      requires Valid()
      modifies this`batch, this`dispatching, scheduler`pending
      ensures Valid() && dispatching
      ensures old(dispatching) ==> batch == old(batch) && scheduler.pending == old(scheduler.pending)
      ensures !old(dispatching) && (world.None? || !old(scheduler.WithinBudget(budgetAt))) ==> batch == []
      ensures !old(dispatching) && world.Some? && old(scheduler.WithinBudget(budgetAt)) ==>
                var eligible := Eligible(scheduler.pending, world.value);
                batch == Ids(Sort(eligible, scheduler.policy.agingInterval, sortAt)[..BatchSize(scheduler.Slots(), scheduler.Spawns(), |eligible|)])
    {
      if dispatching { return; }
      dispatching := true;
      batch := scheduler.SelectDispatchable(world, budgetAt, sortAt);
      if world.Some? {
        BatchStartable(scheduler.pending, world.value, scheduler.policy.agingInterval, sortAt, scheduler.known, scheduler.everStarted,
                       BatchSize(scheduler.Slots(), scheduler.Spawns(), |Eligible(scheduler.pending, world.value)|));
      }
    }

    /** Takes the next agent of the pass and claims its slot; it has never been started before. */
    method ClaimNext() returns (id: string)
      requires Valid() && batch != []
      modifies this`batch, scheduler`pending, scheduler`running, scheduler`startedTotal, scheduler`worldMoved, scheduler`events, scheduler`everStarted
      ensures Valid() && id == old(batch)[0] && batch == old(batch)[1..]
      ensures id !in old(scheduler.everStarted) && scheduler.everStarted == old(scheduler.everStarted) + {id}
      ensures scheduler.running == old(scheduler.running) + {id}
    {
      id := batch[0];
      assert batch == [id] + batch[1..];
      batch := batch[1..];
      scheduler.OnStarted(id);
    }

    method Register(id: string)
      requires Valid() && id in scheduler.everStarted
      modifies this`agents
      ensures Valid() && agents == old(agents) + {id}
    {
      agents := agents + {id};
    }

    /** A start that throws, before or after the agent is registered: the slot goes back and the pass ends. */
    method AbandonStart(id: string, late: bool)
      requires Valid() && id in scheduler.everStarted
      modifies this`agents, this`batch, this`dispatching, scheduler`running, scheduler`startedTotal, scheduler`events
      ensures Valid() && batch == [] && !dispatching && scheduler.running == old(scheduler.running) - {id}
      ensures agents == old(agents) + if late then {id} else {}
    {
      if late { Register(id); }
      scheduler.ReleaseSlot(id);
      batch, dispatching := [], false;
    }

    /** Starts the next agent of the pass; a start that throws gives the slot back and ends the pass. */
    method DispatchNext(start: Start)
      requires Valid() && batch != []
      modifies this`batch, this`agents, this`dispatching, scheduler
      ensures Valid()
      ensures old(batch)[0] !in old(scheduler.everStarted) && scheduler.everStarted == old(scheduler.everStarted) + {old(batch)[0]}
      ensures scheduler.completedTotal == old(scheduler.completedTotal) && ended == old(ended)
      ensures start == Runs ==> scheduler.running == old(scheduler.running) + {old(batch)[0]} && batch == old(batch)[1..]
      ensures start != Runs ==> scheduler.running == old(scheduler.running) && batch == []
      ensures agents == old(agents) + if start == ThrowsEarly then {} else {old(batch)[0]}
    {
      var id := ClaimNext();
      // what has never started is not live, so the check for a live agent finds none
      assert id !in agents;
      if start == Runs { Register(id); } else { AbandonStart(id, start == ThrowsLate); }
    }

    method EndDispatch()
      requires Valid() && batch == []
      modifies this`dispatching
      ensures Valid() && !dispatching
    {
      dispatching := false;
    }

    /** Every report of an end comes here; only the first one counts. */
    method CountEnd(id: string, turns: Option<int>)
      requires Valid()
      modifies this`agents, this`ended, scheduler`running, scheduler`completedTotal, scheduler`consumedTurns, scheduler`worldMoved, scheduler`events
      ensures Valid() && agents == old(agents) - {id} && scheduler.running == old(scheduler.running) - {id}
      ensures ended == old(ended) + if id in old(scheduler.running) then {id} else {}
      ensures scheduler.consumedTurns == old(scheduler.consumedTurns) + if turns.Some? && turns.value > 0 then turns.value else 0
      ensures scheduler.completedTotal == old(scheduler.completedTotal) + if id in old(scheduler.running) then 1 else 0
    {
      OneMoreEnd(scheduler.policy, |batch|, ended, scheduler.running, scheduler.everStarted, scheduler.startedTotal, scheduler.completedTotal, id);
      Unregister(id);
      scheduler.OnCompleted(id, turns);
    }

    method Unregister(id: string)
      modifies this`agents, this`ended
      ensures agents == old(agents) - {id} && ended == old(ended) + if id in scheduler.running then {id} else {}
    {
      agents := agents - {id};
      ended := ended + if id in scheduler.running then {id} else {};
    }

    method OnSignalDoneChange(id: string)
      requires Valid()
      modifies this`agents, this`ended, scheduler`running, scheduler`completedTotal, scheduler`consumedTurns, scheduler`worldMoved, scheduler`events
      ensures Valid() && agents == old(agents) - {id}
      ensures ended == old(ended) + if id in old(agents) && id in old(scheduler.running) then {id} else {}
      ensures scheduler.running == if id in old(agents) then old(scheduler.running) - {id} else old(scheduler.running)
    {
      if id in agents { CountEnd(id, Some(0)); }
    }

    method OnAgentComplete(id: string, turns: Option<int>)
      requires Valid()
      modifies this`agents, this`ended, scheduler`running, scheduler`completedTotal, scheduler`consumedTurns, scheduler`worldMoved, scheduler`events
      ensures Valid() && agents == old(agents) - {id} && scheduler.running == old(scheduler.running) - {id}
      ensures ended == old(ended) + if id in old(scheduler.running) then {id} else {}
      ensures scheduler.consumedTurns == old(scheduler.consumedTurns) + if turns.Some? && turns.value > 0 then turns.value else 0
    {
      CountEnd(id, turns);
    }

    method Discard(id: string)
      requires Valid()
      modifies scheduler
      ensures Valid() && scheduler.pending == Without(old(scheduler.pending), id)
      ensures scheduler.running == old(scheduler.running) && scheduler.everStarted == old(scheduler.everStarted)
    {
      scheduler.Discard(id);
    }

    method OnAgentRetired(id: string)
      requires Valid()
      modifies this`agents, this`ended, scheduler
      ensures Valid() && agents == old(agents) - {id} && scheduler.pending == Without(old(scheduler.pending), id)
      ensures ended == old(ended) + if id in old(agents) && id in old(scheduler.running) then {id} else {}
      ensures scheduler.running == if id in old(agents) then old(scheduler.running) - {id} else old(scheduler.running)
      ensures scheduler.everStarted == old(scheduler.everStarted)
    {
      if id in agents { CountEnd(id, Some(0)); }
      Discard(id);
    }

    method TakePass(step: Step)
      requires Valid() && (step.BeginPass? || step.StartNext? || step.EndPass?)
      modifies this`agents, this`batch, this`dispatching, scheduler
      ensures Valid() && old(scheduler.everStarted) <= scheduler.everStarted
    {
      match step {
        case BeginPass(world, budgetAt, sortAt) => BeginDispatch(world, budgetAt, sortAt);
        case StartNext(start) => if batch != [] { DispatchNext(start); }
        case EndPass => if batch == [] { EndDispatch(); }
      }
    }

    method TakeReport(step: Step)
      requires Valid() && (step.SignalDone? || step.Complete? || step.Retire?)
      modifies this`agents, this`ended, scheduler
      ensures Valid() && old(ended) <= ended && scheduler.everStarted == old(scheduler.everStarted)
    {
      match step {
        case SignalDone(id) => OnSignalDoneChange(id);
        case Complete(id, turns) => OnAgentComplete(id, turns);
        case Retire(id) => OnAgentRetired(id);
      }
    }

    method Take(step: Step)
      requires Valid()
      modifies this`agents, this`ended, this`batch, this`dispatching, scheduler
      ensures Valid() && old(ended) <= ended && old(scheduler.everStarted) <= scheduler.everStarted
    {
      if step.Activate? {
        OnParticipantActivated(step.id, step.base, step.at);
      } else if step.Change? {
        scheduler.NoteWorldMovement();
      } else if step.CheckStall? {
        var _ := scheduler.ObserveStall();
      } else if step.BeginPass? || step.StartNext? || step.EndPass? {
        TakePass(step);
      } else {
        TakeReport(step);
      }
    }

    /** The limits hold after every interleaving of passes, feed changes and completions. */
    method Run(steps: seq<Step>)
      requires Valid()
      modifies this`agents, this`ended, this`batch, this`dispatching, scheduler
      ensures Valid()
      ensures Fits(scheduler.policy.maxConcurrent, |scheduler.running|) && Fits(scheduler.policy.maxTotal, scheduler.startedTotal)
      ensures scheduler.startedTotal == |scheduler.running| + |ended|
      ensures old(ended) <= ended <= scheduler.everStarted && old(scheduler.everStarted) <= scheduler.everStarted
    {
      for i := 0 to |steps|
        invariant Valid() && old(ended) <= ended && old(scheduler.everStarted) <= scheduler.everStarted
      {
        Take(steps[i]);
      }
    }
  }

  /** A selected batch names eligible agents of the queue, each once. */
  lemma {:induction false} BatchStartable(
    pending: seq<Pending>, satisfied: set<string>, interval: Option<int>, at: int, known: set<string>, everStarted: set<string>, k: nat)
    requires Positive(interval) && k <= |Eligible(pending, satisfied)| && Untouched(pending, everStarted)
    requires Numbered(pending) && (forall e :: e in pending ==> e.id in known)
    requires forall i, j :: 0 <= i < j < |pending| ==> pending[i].id != pending[j].id
    ensures Startable(Ids(Sort(Eligible(pending, satisfied), interval, at)[..k]), known, everStarted)
  {
    var eligible := Eligible(pending, satisfied);
    EligibleFrom(pending, satisfied);
    SortRanked(eligible, interval, at);
    var chosen := Sort(eligible, interval, at)[..k];
    forall i, j | 0 <= i < j < k ensures chosen[i].id != chosen[j].id {
      ChosenDiffer(pending, eligible, chosen, interval, at, i, j);
    }
    forall id | id in Ids(chosen) ensures id in known && id !in everStarted {
      var i :| 0 <= i < k && Ids(chosen)[i] == id;
      assert chosen[i] in Sort(eligible, interval, at);
    }
  }

  lemma {:induction false} ChosenDiffer(
    pending: seq<Pending>, eligible: seq<Pending>, chosen: seq<Pending>, interval: Option<int>, at: int, i: nat, j: nat)
    requires Positive(interval) && i < j < |chosen| && chosen <= Sort(eligible, interval, at) && Ranked(Sort(eligible, interval, at), interval, at)
    requires forall x :: x in Sort(eligible, interval, at) ==> x in pending
    requires forall a, b :: 0 <= a < b < |pending| ==> pending[a].id != pending[b].id
    ensures chosen[i].id != chosen[j].id
  {
    var s := Sort(eligible, interval, at);
    assert Ahead(s[i], s[j], interval, at);
    assert s[i] in pending && s[j] in pending;
    var a :| 0 <= a < |pending| && pending[a] == s[i];
    var b :| 0 <= b < |pending| && pending[b] == s[j];
  }
}
