# Verified models of the coordination runtime

Dafny models of five parts of the runtime, with proofs about whole runs. `dafny verify dfyconfig.toml` checks everything.

- **Petri engine** (`PetriNet`, `MarkingKeys`, `Reachability`, `Cone`, `Elimination`, `Invariants`, `Collisions`). The
  token game, breadth-first reachability with its string keys, and the invariants computed by elimination. The search is
  proved against "some run of at most this many steps meets the goal", and the elimination against all real non-negative
  solutions of the matrix, so that an empty result means that only the zero invariant exists.
- **Agent loop** (`Transcript`, `Compaction`, `CompactionSafety`, `CompactionGroups`, `Ledger`, `ToolGroups`,
  `LedgerSafety`, `AgentRun`). Histories, the bounded context window, tool-result groups, and the ledger of unresolved
  failures. Messages carry an identity, because the goal is found by reference; every copy the engine makes has the
  same identity `COPY`.
- **External tools** (`Journal`, `ExternalTools`, `AtMostOnce`). A write-ahead journal over a content-addressed store.
  An attempt is a list of effects, and the process may end after any of them.
- **Swarm scheduler and supervisor** (`Scheduler`, `Supervisor`). Admission, dispatch order with aging, budgets, stall
  detection, and the supervisor's steps in any interleaving.
- **Adapter codecs** (`ToolNames`, `Sse`, `StreamAccumulation`). The reversible tool-name encoding, the reader of
  server-sent events, and the accumulation of streamed tool calls.

`Options`, `Sequences` and `Text` hold what the parts share: optional values, laws of concatenation, numerals, joined
texts and the order of strings.

## Findings

Properties one might expect that the code has only under a condition. Each is stated by a lemma that gives the exact
condition or an example.

- Parallel arcs are counted in three ways. Firing takes one token per input place, the search takes one per arc, and
  the matrix counts every arc. A firing sequence ends with what the matrix predicts plus the surplus of parallel input
  arcs, place by place (`Invariants.StateEquation`), so weighted sums of invariants can grow but never fall
  (`Invariants.TokenConservation`). A search step is a firing exactly when every place with several arcs holds a single
  token (`Reachability.StepsAgree`).
- A place id that holds `|` behind `:` and digits makes different markings or different invariants look equal
  (`MarkingKeys.KeyCollision`, `Invariants.SignatureCollision`). On one such net the search denies a goal that one step
  reaches (`Collisions.MissesGoal`), on another the analysis loses an invariant (`Collisions.LosesInvariant`). For all
  other ids keys and signatures tell apart what they should (`Reachability.UnbrokenIdsTell`,
  `Invariants.SignatureInjective`).
- A compaction keeps its dropped count exactly when everything fits and nothing was dropped before, or a slot for the
  marker is left beside the required messages and costs no other message (`CompactionSafety.CountConserved`); otherwise
  it is lost, as in `CompactionSafety.CountLost`.
- A system prompt that starts like a compaction marker makes the first transcript ill-formed when the history brings a
  marker too (`AgentRun.InitialWellFormed`).
- A pending observation leaves the ledger exactly when a retry observes it, or a later call with the same id and tool
  stores the same output under another receipt (`LedgerSafety.PendingLeaves`). In the second case it was never
  observed, and its tool and arguments may be executed again (`LedgerSafety.PendingLost`): a response is checked for
  repeated call ids, a run is not (`src/packages/boot/src/agentLoop.ts:595-614`). Without such a repetition neither can
  happen in any run (`AgentRun.RunKeepsPending`).
- Recovery never asks the approver again. A gated attempt executes without asking exactly when it resumes a journaled
  dispatch that it may repeat (`AtMostOnce.ExecutesUnasked`), so a gate added after the dispatch is not consulted.
- Releasing the slot of a failed start is not a movement of the world for the stall counter
  (`Scheduler.SwarmScheduler.ReleaseSlot`).

## Model

| member | source | states |
|---|---|---|
| PetriNet.ClassifyArcsForTransition | src/packages/petri/src/net.ts:106-131 | the input and output places of a transition in arc order, or the first self-loop arc |
| PetriNet.FindTransition | src/packages/petri/src/net.ts:148-150 | the first transition with the id, if there is one |
| PetriNet.EnabledTransitions | src/packages/petri/src/net.ts:167-186 | the enabled transitions of the net in net order, with their inputs and outputs |
| PetriNet.EnabledListExact | src/packages/petri/src/net.ts:153-186 | a transition is listed exactly when it is in the net, has no self-loop, and every input place holds a token |
| PetriNet.InitialMarking | src/packages/petri/src/net.ts:72-87 | every declared place holds the floored, non-negative initial count of its last declaration |
| PetriNet.ApplyFire | src/packages/petri/src/firing.ts:38-58 | one token leaves every distinct input place, however many arcs lead from it, and one arrives per output arc |
| PetriNet.Fire | src/packages/petri/src/firing.ts:65-108 | fires exactly when known, free of self-loops and enabled; otherwise the marking is unchanged and the reason and the under-marked places are reported |
| MarkingKeys.MarkingKey | src/packages/petri/src/reachability.ts:47-63 | the key lists the positive counts of the marking, ids ascending |
| MarkingKeys.KeyInjective | src/packages/petri/src/reachability.ts:58-63 | for ids that hold no separator behind a colon and digits, equal keys mean equal token counts |
| MarkingKeys.KeyCanonical | src/packages/petri/src/reachability.ts:57-63 | equal token counts mean equal keys, whatever the maps contain besides |
| MarkingKeys.KeyCollision | src/packages/petri/src/reachability.ts:62-62 | with such a separator inside a place id two different markings share a key |
| Reachability.ApplyEnabled | src/packages/petri/src/reachability.ts:13-24 | the search consumes one token per arc, not below zero, then produces one per arc |
| Reachability.StepsAgree | src/packages/petri/src/reachability.ts:13-24 | a step of the search is a firing exactly when every input place with several arcs holds a single token |
| Reachability.SearchRunsFire | src/packages/petri/src/reachability.ts:13-24 | without parallel input arcs the steps of the search and the firings coincide |
| Reachability.Visit | src/packages/petri/src/reachability.ts:94-111 | one successor: already visited, a hit with the extended trace, or queued with the search invariant kept |
| Reachability.ExpandNode | src/packages/petri/src/reachability.ts:90-111 | expanding a node keeps the breadth-first invariant, queues at most one node per transition, and reports a hit only with a key never visited |
| Reachability.Reachable | src/packages/petri/src/reachability.ts:73-113 | a positive verdict has a genuine trace within the bound; for goals on token counts and keys that tell states apart no shorter run meets the goal, a negative verdict means that no run within the bound does, and explored is the number of token states within it |
| Reachability.UnbrokenIdsTell | src/packages/petri/src/reachability.ts:47-63 | keys tell the states of a search apart when no place id holds a separator behind a colon and digits |
| Collisions.MissesGoal | src/packages/petri/src/reachability.ts:85-113 | on a net with such an id the search denies a goal that one step reaches, whatever the bound |
| Reachability.VerdictIsAboutFiring | src/packages/petri/src/reachability.ts:65-113 | without parallel input arcs, no search run of at most d steps meets the goal exactly when no firing sequence of at most d fires does |
| Reachability.TraceFires | src/packages/petri/src/reachability.ts:102-108 | without parallel input arcs the returned trace is a firing sequence from the initial marking |
| Invariants.IncidenceMatrix | src/packages/petri/src/invariants.ts:33-66 | row i and column j hold outputs minus inputs of place i under transition j, and zero for a transition with a self-loop; repeated ids count for the first place |
| Elimination.SeedIdentity | src/packages/petri/src/invariants.ts:70-78 | the unit rows |
| Elimination.PartitionBySign | src/packages/petri/src/invariants.ts:81-100 | the ascending indices of positive, negative and zero products, each index once |
| Elimination.CombinePair | src/packages/petri/src/invariants.ts:113-124 | the weighted sum of a positive and a negative row that cancels their products |
| Elimination.CombineOppositeSigned | src/packages/petri/src/invariants.ts:103-128 | the combination of every positive row with every negative row, and nothing else |
| Elimination.KeepUnusedZeros | src/packages/petri/src/invariants.ts:131-139 | the rows with product zero that were not used |
| Elimination.DotColumn | src/packages/petri/src/invariants.ts:286-292 | the product of a row with a column |
| Elimination.IsScalarMultiple | src/packages/petri/src/invariants.ts:326-356 | true exactly when both rows are non-zero somewhere and the first is a whole positive multiple of the second |
| Elimination.ReduceRows | src/packages/petri/src/invariants.ts:309-323 | a subset of the rows in which no row is a multiple of another, and which covers every row |
| Elimination.ReductionKeepsCone | src/packages/petri/src/invariants.ts:309-323 | rows before and after reduction generate the same cone |
| Cone.ColumnStep | src/packages/petri/src/invariants.ts:103-128 | a non-negative combination whose product with the column vanishes is regenerated from the zero rows and the cancelled pairs |
| Elimination.StepComplete | src/packages/petri/src/invariants.ts:168-184 | one column of the elimination loses no real non-negative solution |
| Elimination.PairSound | src/packages/petri/src/invariants.ts:103-128 | a combined row is non-negative, non-zero and annihilates one column more |
| Elimination.EliminateColumn | src/packages/petri/src/invariants.ts:170-190 | one pass keeps soundness and completeness and extends both by the column |
| Elimination.Eliminate | src/packages/petri/src/invariants.ts:161-190 | the rows annihilate every column, and every non-negative real vector that does so is a non-negative combination of them |
| Invariants.RowToInvariant | src/packages/petri/src/invariants.ts:142-158 | the entries of the non-zero weights in place order |
| Invariants.RowIsInvariant | src/packages/petri/src/invariants.ts:295-302 | true exactly when the row annihilates every column |
| Invariants.FilterKeepsAll | src/packages/petri/src/invariants.ts:192-200 | the final filter never removes a row of the elimination |
| Invariants.DedupInvariants | src/packages/petri/src/invariants.ts:359-374 | the first invariant of every signature, in order |
| Invariants.SignatureInjective | src/packages/petri/src/invariants.ts:362-368 | for ids that hold no separator behind a colon and digits, equal signatures mean the same weights |
| Invariants.SignatureCollision | src/packages/petri/src/invariants.ts:362-368 | with such a separator inside an id two different invariants share a signature, and the second is dropped |
| Invariants.PlaceInvariants | src/packages/petri/src/invariants.ts:161-202 | every returned row is a non-negative, non-zero invariant; for distinct ids without such separators the rows generate every real invariant; the result is empty exactly when only the zero vector is one |
| Collisions.LosesInvariant | src/packages/petri/src/invariants.ts:161-202 | on a net with distinct ids, one of them with such a separator, the analysis returns one invariant that does not generate the other |
| Invariants.TransitionInvariants | src/packages/petri/src/invariants.ts:215-266 | the same of the transposed matrix |
| Invariants.StepEquation | src/packages/petri/src/invariants.ts:33-66 | one firing changes every place by its matrix entry exactly when no place feeds the transition through two arcs |
| Invariants.StateEquation | src/packages/petri/src/invariants.ts:33-66 | after any firing sequence a place holds what the matrix predicts plus the surplus of parallel input arcs, and exactly what it predicts when no fired transition takes from the place through two arcs |
| Invariants.StateEquationEverywhere | src/packages/petri/src/invariants.ts:33-66 | the matrix predicts every place exactly for firing sequences without parallel input arcs |
| Invariants.TransitionInvariantReturns | src/packages/petri/src/invariants.ts:204-215 | a firing sequence without parallel input arcs ends where it started exactly when its counts are annihilated; one with annihilated counts ends where it started exactly when it has no parallel input arcs |
| Invariants.TokenConservation | src/packages/petri/src/invariants.ts:161-202 | along every firing sequence the weighted token sum of an invariant never falls, and it is conserved exactly when no fired transition takes from a weighted place through two arcs |
| Invariants.InvariantBounds | src/packages/petri/src/invariants.ts:161-202 | weight times tokens of a place never exceeds the first weighted sum, plus the weighted surplus where there are parallel input arcs |
| Invariants.InvariantMeaning | src/packages/petri/src/invariants.ts:295-302 | without parallel input arcs, annihilating the matrix is the same as conserving the weighted sum in every firing |
| Invariants.ConservesWhen | src/packages/petri/src/invariants.ts:33-66 | in any net a weight vector is conserved by every firing exactly when its product with each column that can fire, corrected by the extra arcs, is zero |
| Transcript.MarkerRoundTrip | src/packages/boot/src/agentLoop.ts:2835-2839 | the count read from a marker is the count it was written with |
| Transcript.NormalizeHistoryMessages | src/packages/boot/src/agentLoop.ts:2777-2811 | complete groups are copied whole, the first marker and plain messages are copied, everything else is dropped |
| Transcript.NormalizeIdentity | src/packages/boot/src/agentLoop.ts:2777-2811 | normalization copies a transcript unchanged exactly when it is well formed |
| Transcript.NormalizedWellFormed | src/packages/boot/src/agentLoop.ts:2771-2811 | whatever the input, the result is well formed |
| Transcript.NormalizeIdempotent | src/packages/boot/src/agentLoop.ts:2777-2811 | normalizing twice changes nothing |
| Transcript.IsComplete | src/packages/boot/src/agentLoop.ts:2790-2799 | distinct call ids and one result per call, in call order |
| Compaction.MessageUnits | src/packages/boot/src/agentLoop.ts:2845-2863 | an assistant message with its tool results is one unit, every other message is one |
| Compaction.SelectWhole | src/packages/boot/src/agentLoop.ts:2866-2923 | every unit is selected whole or not at all |
| Compaction.CompactMessages | src/packages/boot/src/agentLoop.ts:2873-2947 | the loops compute the specified window |
| CompactionSafety.CompactFits | src/packages/boot/src/agentLoop.ts:2866-2947 | the window never exceeds the limit, and the final cut never removes anything |
| CompactionSafety.CompactContents | src/packages/boot/src/agentLoop.ts:2927-2947 | without its marker the window is the selected messages in their original order, and its marker carries all old counts plus what was newly dropped |
| CompactionSafety.GoalKept | src/packages/boot/src/agentLoop.ts:2868-2892 | the goal is kept whenever the limit is at least one |
| CompactionSafety.SystemKept | src/packages/boot/src/agentLoop.ts:2868-2893 | the first system message is kept whenever the limit is at least two, or one without the goal |
| CompactionSafety.CountConserved | src/packages/boot/src/agentLoop.ts:2914-2947 | old count plus messages equals new count plus messages exactly when everything fits and nothing was dropped before, or the marker has a slot that costs no message |
| CompactionSafety.CountLost | src/packages/boot/src/agentLoop.ts:2914-2947 | a two-message transcript whose compaction to one message loses the count |
| CompactionSafety.CompactIdentity | src/packages/boot/src/agentLoop.ts:2873-2947 | a transcript without markers that fits is unchanged |
| CompactionSafety.CompactIdempotent | src/packages/boot/src/agentLoop.ts:2873-2947 | compacting a window again changes nothing |
| CompactionGroups.CompactWellFormed | src/packages/boot/src/agentLoop.ts:2866-2947 | a well-formed transcript stays well formed, the inserted marker included |
| CompactionGroups.LatestToolGroup | src/packages/boot/src/agentLoop.ts:1279-1296 | the last request that is followed by its results |
| CompactionGroups.LatestToolGroupFits | src/packages/boot/src/agentLoop.ts:1298-1304 | the check accepts exactly when every message of the latest group is, by content, in the window |
| CompactionGroups.LatestUnitSelected | src/packages/boot/src/agentLoop.ts:1298-1304 | told apart by position, the messages of the latest group are all retained exactly when they fit beside the goal and the system message |
| CompactionGroups.LatestGroupFits | src/packages/boot/src/agentLoop.ts:1298-1304 | the check accepts a group that fits beside the goal and the system message, and only such a group unless its request reads like another message |
| Ledger.OperationLedger.constructor | src/packages/boot/src/agentLoop.ts:91-102 | one entry per distinct pending observation, no counts |
| Ledger.OperationLedger.Record | src/packages/boot/src/agentLoop.ts:104-156 | counts the call; a failure is entered under its key, a success clears what it may clear |
| Ledger.OperationLedger.ResolveSuccessfulCall | src/packages/boot/src/agentLoop.ts:128-147 | exact retries, one linked failure of the same tool, or nothing |
| Ledger.OperationLedger.RecordExternalObservationFailure | src/packages/boot/src/agentLoop.ts:159-172 | a failed call with the stored output to observe |
| Ledger.OperationLedger.ResolveExternalObservation | src/packages/boot/src/agentLoop.ts:174-190 | clears the first entry with the same call, output and receipt |
| Ledger.OperationLedger.PendingToolObservations | src/packages/boot/src/agentLoop.ts:231-235 | exactly the recoveries of the unresolved entries |
| Ledger.PutEntries | src/packages/boot/src/agentLoop.ts:89-89 | setting a key replaces the entry of that key and no other |
| LedgerSafety.ExecutedWhen | src/packages/boot/src/agentLoop.ts:2575-2614 | the executor is reached exactly for a call without recovery link about which nothing unresolved has the same tool and arguments |
| LedgerSafety.RetriedWhen | src/packages/boot/src/agentLoop.ts:2582-2599 | a stored observation is retried only when it is pending for this tool |
| LedgerSafety.HandleEntries | src/packages/boot/src/agentLoop.ts:1903-1937 | a handled call adds at most one entry and clears at most one, and leaves every other as it is |
| LedgerSafety.ClearedOnlyWhenJustified | src/packages/boot/src/agentLoop.ts:68-83 | an entry is cleared only by a success for the same target, a link that names it, the observation of its output, or completion |
| LedgerSafety.PermanentStays | src/packages/boot/src/agentLoop.ts:128-157 | an external failure without a stored output is never cleared |
| LedgerSafety.PendingStays | src/packages/boot/src/agentLoop.ts:174-190 | a pending observation stays until its own stored output is observed, unless the call uses its call id again for the same tool |
| LedgerSafety.PendingLeaves | src/packages/boot/src/agentLoop.ts:159-190 | a pending observation leaves the ledger exactly when a successful retry clears it, or a call with the same tool and id stores the same output under another receipt |
| LedgerSafety.PendingLost | src/packages/boot/src/agentLoop.ts:159-172 | with a call id used twice the observation is lost, and the executor is reached again for the same tool and arguments |
| LedgerSafety.ExecuteKeepsOnePending | src/packages/boot/src/agentLoop.ts:205-218 | at most one pending observation per tool and argument digest |
| LedgerSafety.ResumedOnePending | src/packages/boot/src/agentLoop.ts:1247-1257 | a ledger resumed from the persisted observations has at most one of each again |
| ToolGroups.OrderedCalls | src/packages/boot/src/agentLoop.ts:1718-1727 | ordering is a permutation, and a group with a done call ends in one |
| ToolGroups.ToolExecution.ExecuteOneToolCall | src/packages/boot/src/agentLoop.ts:1903-1937 | one call changes ledger and transcript as specified, and is counted exactly when it leaves a result |
| ToolGroups.ToolExecution.ProcessDoneDispatch | src/packages/boot/src/agentLoop.ts:2027-2093 | a premature done is terminal; the last one reports success exactly when nothing is unresolved |
| ToolGroups.ToolExecution.CompleteTerminatedToolGroup | src/packages/boot/src/agentLoop.ts:1863-1886 | every call without a result gets one, in call order, and is counted |
| ToolGroups.ToolExecution.ExecuteToolCalls | src/packages/boot/src/agentLoop.ts:1818-1852 | on every exit the transcript gains exactly one result per call in call order, and the tally grows by the number of calls |
| AgentRun.InitialWellFormed | src/packages/boot/src/agentLoop.ts:2763-2769 | the first transcript is well formed exactly unless prompt and history both look like markers |
| AgentRun.AgentLoop.constructor | src/packages/boot/src/agentLoop.ts:1030-1065 | transcript and evidence start as prompt, normalized history and goal, well formed unless prompt and history both look like markers |
| AgentRun.AgentLoop.ProcessTurnResponse | src/packages/boot/src/agentLoop.ts:1396-1505 | a turn ends the run with success exactly when the controller is asked, says done, and nothing is unresolved |
| AgentRun.AgentLoop.DispatchControlVerdict | src/packages/boot/src/agentLoop.ts:1641-1712 | the verdict decides the end; success is settled against the ledger |
| AgentRun.AgentLoop.ExecuteAgentTurn | src/packages/boot/src/agentLoop.ts:1129-1223 | a turn that ends before its response changes at most the window; after every turn the evidence is unchanged by normalization, and results appended equal calls counted |
| AgentRun.AgentLoop.Execute | src/packages/boot/src/agentLoop.ts:1102-1107 | over every run: evidence normalizes to itself, the tally equals the results, and success means nothing unresolved |
| AgentRun.RunOnePending | src/packages/boot/src/agentLoop.ts:205-218 | from an empty ledger no tool and digest ever has two pending observations |
| AgentRun.RunKeepsPending | src/packages/boot/src/agentLoop.ts:2575-2614 | while call ids are not used twice, a pending observation survives every turn until it is observed, and until then no call of its tool and arguments reaches the executor |
| AgentRun.SuccessObservesAll | src/packages/boot/src/agentLoop.ts:1782-1816 | a run that starts and ends with nothing unresolved has observed every stored output that was pending in between |
| AgentRun.FailureSpoilsRun | src/packages/boot/src/agentLoop.ts:1782-1816 | after an external call has failed for good, no later turn leaves the ledger empty |
| Journal.IntentIff | src/packages/syscall/src/act.ts:474-527 | an intent is recognized exactly in records with its own fields, in any order |
| Journal.ReceiptIff | src/packages/syscall/src/act.ts:1066-1106 | the same for receipts |
| Journal.IntentRoundTrip | src/packages/syscall/src/act.ts:395-408 | what was printed for an intent reads back as that intent |
| Journal.ReceiptRoundTrip | src/packages/syscall/src/act.ts:352-354 | what was printed for a receipt reads back as that receipt |
| Journal.ReadStored | src/packages/syscall/src/act.ts:446-472 | a journal entry is found exactly when it was stored |
| Journal.ValidatedWhen | src/packages/syscall/src/act.ts:1007-1064 | a recovery is accepted exactly when it names the stored receipt of its own fields and a stored output |
| Journal.ValidatedLater | src/packages/syscall/src/act.ts:1007-1064 | what is accepted once stays accepted while nothing is removed |
| ExternalTools.Host.UseTool | src/packages/syscall/src/act.ts:669-743 | the attempt carries out its plan up to the crash point, and returns only when the plan is complete |
| ExternalTools.Host.RecoverDispatchedInvocation | src/packages/syscall/src/act.ts:782-843 | recovery by tier: repeat, refuse as ambiguous, or ask for the outcome first |
| ExternalTools.Host.DispatchAndCommit | src/packages/syscall/src/act.ts:861-908 | execute, then store and observe the output |
| ExternalTools.Host.CommitReconciledOutput | src/packages/syscall/src/act.ts:911-968 | output, receipt and completion are stored before the observation |
| ExternalTools.Host.RetryToolObservation | src/packages/syscall/src/act.ts:971-1003 | an accepted recovery is observed once more without executing the tool; any other changes nothing |
| AtMostOnce.ExecutedAtMostOnce | src/packages/syscall/src/act.ts:782-808 | over any sequence of attempts cut off anywhere, a non-idempotent tool is executed at most once per key |
| AtMostOnce.LandedAtMostOnce | src/packages/syscall/src/act.ts:810-843 | with a reconcile that never denies a landed effect, the effect of an invocation lands at most once |
| AtMostOnce.FromEmptyStore | src/packages/syscall/src/act.ts:669-843 | from an empty store, for any sequence of attempts: journal before effect, at most one execution, at most one landed effect, and no execution without an allowance, each under its tier or gate |
| AtMostOnce.GatedExecution | src/packages/syscall/src/act.ts:716-743 | while an approver gates the tool, nothing is dispatched or executed without an earlier allowance of the key |
| AtMostOnce.ExecutesUnasked | src/packages/syscall/src/act.ts:700-731 | a gated attempt executes without asking exactly when it resumes a journaled dispatch it may repeat |
| AtMostOnce.AfterJournaled | src/packages/syscall/src/act.ts:733-743 | nothing about an invocation happens before its dispatch is journaled |
| AtMostOnce.RecoveryValid | src/packages/syscall/src/act.ts:557-588 | the recovery of a failed observation passes validation in every later store |
| Scheduler.SwarmScheduler.constructor | src/packages/boot/src/cluster/schedulerPolicy.ts:87-112 | each positive or unlimited override is taken over; each omitted, non-positive or non-numeric one keeps its default |
| Scheduler.SwarmScheduler.Admit | src/packages/boot/src/cluster/swarmScheduler.ts:145-163 | an agent is admitted exactly when it was never known, behind all others |
| Scheduler.SwarmScheduler.Discard | src/packages/boot/src/cluster/swarmScheduler.ts:171-175 | removes exactly this agent from the queue; only an effective removal moves the world |
| Scheduler.SwarmScheduler.OnStarted | src/packages/boot/src/cluster/swarmScheduler.ts:186-193 | claims a slot once |
| Scheduler.SwarmScheduler.ReleaseSlot | src/packages/boot/src/cluster/swarmScheduler.ts:196-200 | gives the slot and its count back |
| Scheduler.SwarmScheduler.OnCompleted | src/packages/boot/src/cluster/swarmScheduler.ts:203-210 | counts an end only while the agent holds a slot |
| Scheduler.SwarmScheduler.SelectDispatchable | src/packages/boot/src/cluster/swarmScheduler.ts:232-271 | within budget the first of the ranked eligible agents, as many as slots and spawns allow; otherwise none |
| Scheduler.SortRanked | src/packages/boot/src/cluster/swarmScheduler.ts:265-266 | sorting gives the eligible agents in strict dispatch order |
| Scheduler.ChosenWhen | src/packages/boot/src/cluster/swarmScheduler.ts:262-271 | an eligible agent is in the batch exactly when fewer than the batch size are ahead of it |
| Scheduler.NeverPassed | src/packages/boot/src/cluster/swarmScheduler.ts:377-386 | an agent is never passed by a later one exactly when that one arrives late enough to make up for its higher priority |
| Scheduler.SwarmScheduler.ObserveStall | src/packages/boot/src/cluster/swarmScheduler.ts:314-338 | stalled exactly when the last observations, as many as the policy asks for, all found nothing running, something waiting and no movement |
| Scheduler.TrailingAtLeast | src/packages/boot/src/cluster/swarmScheduler.ts:325-328 | the stall counter reaches n exactly when the last n observations were standstills |
| Supervisor.ClusterSupervisor.OnParticipantActivated | src/packages/boot/src/cluster/clusterSupervisor.ts:386-411 | an unknown agent is queued |
| Supervisor.ClusterSupervisor.BeginDispatch | src/packages/boot/src/cluster/clusterSupervisor.ts:334-339 | a pass selects its batch once, and no second pass starts meanwhile |
| Supervisor.BatchStartable | src/packages/boot/src/cluster/swarmScheduler.ts:232-271 | a batch names admitted agents that never started, each once |
| Supervisor.ClusterSupervisor.DispatchNext | src/packages/boot/src/cluster/clusterSupervisor.ts:339-349 | the started agent was never started before and is not live; a start that throws gives the slot back and ends the pass |
| Supervisor.ClusterSupervisor.OnSignalDoneChange | src/packages/boot/src/cluster/clusterSupervisor.ts:748-758 | counts the end of a live agent once |
| Supervisor.ClusterSupervisor.OnAgentComplete | src/packages/boot/src/cluster/clusterSupervisor.ts:651-682 | counts the end once and charges the turns |
| Supervisor.ClusterSupervisor.OnAgentRetired | src/packages/boot/src/cluster/clusterSupervisor.ts:783-798 | counts the end of a live agent and empties its place in the queue |
| Supervisor.ClusterSupervisor.Run | src/packages/boot/src/cluster/clusterSupervisor.ts:311-352 | after every interleaving the limits hold and started equals running plus ended |
| ToolNames.DecodeOpenAiToolName | src/packages/adapter/src/openaiCompatible/openaiToolMapping.ts:121-141 | the index loop decodes as specified, and returns the name itself when an escape is broken |
| ToolNames.RoundTrip | src/packages/adapter/src/openaiCompatible/openaiToolMapping.ts:107-141 | decoding undoes encoding, for every sequence of code points |
| ToolNames.EncodeInjective | src/packages/adapter/src/openaiCompatible/openaiToolMapping.ts:107-119 | no two names share an encoding |
| ToolNames.EncodedSafe | src/packages/adapter/src/openaiCompatible/openaiToolMapping.ts:103-119 | every encoded name is accepted by the providers |
| ToolNames.ParseNumeral | src/packages/adapter/src/openaiCompatible/openaiToolMapping.ts:116-135 | the hexadecimal numeral of a code point parses back to it |
| Sse.LinesAndTail | src/packages/adapter/src/httpClient.ts:134-141 | the lines and the tail are exactly the text |
| Sse.LinesAreLines | src/packages/adapter/src/httpClient.ts:134-141 | no line holds a line break, and neither does the tail |
| Sse.ReadSseStream | src/packages/adapter/src/httpClient.ts:115-160 | the payloads are those of the concatenated text, however it is fragmented, and the body is cancelled exactly after the sentinel |
| StreamAccumulation.FoldAt | src/packages/adapter/src/openaiCompatible/openaiToolMapping.ts:325-337 | the final entry of an index is made by its own deltas |
| StreamAccumulation.InterleavingIrrelevant | src/packages/adapter/src/openaiCompatible/openaiToolMapping.ts:305-364 | streams that agree on the deltas of every index accumulate the same calls |
| StreamAccumulation.FramingIrrelevant | src/packages/adapter/src/openaiCompatible/openaiCompatibleAdapter.ts:164-187 | two streams of frames whose deltas agree index by index finish with the same calls |
| StreamAccumulation.Accumulate | src/packages/adapter/src/openaiCompatible/openaiCompatibleAdapter.ts:164-187 | pushing every frame and finishing gives the calls of all deltas in arrival order, and the whole text where there is no call |
| StreamAccumulation.MergedEntry | src/packages/adapter/src/openaiCompatible/openaiToolMapping.ts:331-336 | a call has the last id and name sent and the concatenation of its argument slices |
| StreamAccumulation.StreamAccumulator.Push | src/packages/adapter/src/openaiCompatible/openaiToolMapping.ts:312-343 | one frame updates usage, finish reason, calls and text |
| StreamAccumulation.StreamAccumulator.Finish | src/packages/adapter/src/openaiCompatible/openaiToolMapping.ts:345-363 | one call per accumulated index, indices strictly ascending, each with its accumulated entry and the id sent for it, or call_ and the index; text only without calls |
| StreamAccumulation.FinishedUnique | src/packages/adapter/src/openaiCompatible/openaiToolMapping.ts:345-352 | these promises determine the finished calls |
| StreamAccumulation.FinishedCalls | src/packages/adapter/src/openaiCompatible/openaiToolMapping.ts:345-352 | every finished call is made of the deltas of its own index |

## Assumptions

- Hashes are injective: a reference is represented by what it hashes, an argument digest by the arguments.
- JSON parsing inverts printing on the fixed records, and an object has each key once.
- The store returns what was put, the first writer of some bytes decides their metadata, and intent and receipt texts
  are stored only by their own writers.
- Attempts on one invocation key do not overlap, and an effect that lands does so before its attempt ends.
- The environment (provider responses, tools, limits, clocks, conditions of the world, verdicts of the termination
  controller) answers arbitrarily in every step.
- Numbers are mathematical integers, and reals where the elimination needs coefficients.
- Provider responses have distinct call ids, as the response check demands.

## Left out

- Reachability.Reachable: a fractional step bound is not modelled; a bound is an integer or not finite, and the latter counts as one.
- Reachability.Reachable: minimality and negative verdicts are stated for goals on token counts and keys that tell states apart, because the code merges markings by key.
- PetriNet.Fire: bindings of coloured nets are passed through by the code and not modelled.
- Invariants.PlaceInvariants: labels are not modelled, and the locale order used inside signatures is the order of code units; any strict order gives the same result.
- Invariants.TransitionInvariants: both analyses share one elimination method, where the source repeats the loops.
- Compaction.CompactMessages: a limit that is not an integer is not modelled; sorting the selected indices and reading them off is one function.
- ToolGroups.ToolExecution.ExecuteOneToolCall: the texts of errors, warnings and recovery hints are one stand-in.
- Ledger.OperationLedger.Record: resolution keys are structured values instead of strings, so collisions of key texts are not modelled; strings that look like references are references.
- CompactionGroups.LatestToolGroupFits: the source looks for the very message objects, the model for messages of the same content; LatestUnitSelected states the outcome by position.
- AgentRun.AgentLoop.ExecuteAgentTurn: perception, action discovery, progress events and the text of the world snapshot are not modelled; a failure before the preparation of a turn is one flag, and one between preparation and response another.
- ExternalTools.Host.UseTool: the output of an ambiguous or rejected call and warnings are not modelled; a tier override per tool is part of the environment of the attempt.
- Scheduler.SwarmScheduler.SelectDispatchable: limits and priorities are integers, unlimited, or no number; fractional ceilings are not modelled.
- Supervisor.ClusterSupervisor.DispatchNext: transports, heartbeats, liveness and event emission are not modelled; a start runs or throws before or after the agent is registered.
- StreamAccumulation.StreamAccumulator.Finish: decoding of the call name and parsing of the argument text are not applied in the model; numeric index texts are given by their value.
- Sse.ReadSseStream: decoding of bytes into text is not modelled; a fragment is text.
- `isDeadMarking`, `canFire`, `withTokens`: one-line uses of functions that are modelled.
- `canonicalJson` and `normalizeForStableJson`: canonical argument forms are represented by the arguments themselves.
- Hash computation, the file-backed store, garbage collection of content, and concurrent use of one invocation key.
- Coordination operations (`act`), admission, commit and replay, comms, conformance and the control plane.
- The termination controller, value-of-continuation and judges: only their verdicts enter the model.
- Provider field mappings, retries over HTTP, signing, configuration, command line and website.
