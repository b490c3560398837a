# Model of the commerce agent's protocols and evaluation harness

A Dafny 4.11 model of the parts of this repository whose correctness depends on more than one function, with proofs.
`dafny verify dfyconfig.toml` checks everything.

The project follows the program's structure:

* **Durable mutations** (`MutationSafety`, `MutationProtocol`, `MutationGuarantees`, `MutationExecution`). The store's rows,
  any number of invocations of `execute` and `recover`, and a log of adapter calls form a transition system whose events are
  the single durable accesses; a crash can follow any of them. Any list of events is a run. The class
  `DurableMutationBoundary` runs the statements of `execute` and `recover` with arbitrary other invocations between any two.
* **Multi-turn evaluation** (`IntentState`, `MultiTurnSchema`, `UserSimulator`, `MultiTurnVerifier`, `MultiTurnRunner`,
  `MultiTurnGuarantees`, `MultiTurnTranscript`, `MultiTurnScores`, `RuleDialogue`, `LateDialogue`). The dialogue loop over an arbitrary agent and simulator, the intent
  state machine it mutates, the verifier that recomputes the result from the turns, a progress measure for the rule simulator,
  and the agent that makes its dialogues as long as they can be.
* **Bounded agent loop** (`Json`, `AgentProtocol`, `DecisionValidation`, `AgentStep`, `AgentLoop`, `AgentGuarantees`,
  `AgentCharges`, `AgentOutcomes`, `AgentRuns`). One step with all its exits, the persisted advance around it, and the outer loop. The model, the tools,
  deadlines, cancellation and raising collaborators are arbitrary inputs.
* **Algorithms** (`CheckpointMigrations`, `CatalogSplit`, `CatalogSplitGuarantees`, `RoundRobin`, `ReviewSampler`, `Grouping`,
  `Report`, `ReportGuarantees`, `ReportInputs`, `ReportTotals`, `Percentile`), with `Listing` and `Ordering` for lists, slices, sorting and Python's string order.

What the source changes step by step is a class or a method with loops, proved equal to a function on values; the promises are
lemmas about that function, stated on inputs, logs and turns rather than through its helpers.

Findings the proofs turned up:

* `recover` cannot tell an orphaned claim from a running one: it may store UNKNOWN while the claimant is alive, and the
  claimant's answer is then refused (`OvertakingHappens` is such a run from the empty system). The adapter is still called
  at most once. An answer is lost exactly when a recovery committed first, or its caller crashed, or its checkpoint raised
  by itself (`AnswerIsStoredExactlyWhen`).
* A step that answers after a retry is charged for its second model call only, even when the first alone exceeds the budget,
  and a rejected answer is charged the conservative amount whatever it used (`RetriedAnswerIsUndercharged`,
  `RejectedAnswerIsChargedConservatively`; `ChargeIsTheReportExactlyWhen` is the exact condition on the inputs). Only the last
  step of a run can be mischarged, so every budget that a step is given is exact (`OnlyTheLastStepIsMischarged`,
  `StepsAreGivenExactBudgets`).
* The release gate reads whether a judge answered, not what it said, and does not count attempts: it is open on a refused
  answer, on too few repetitions and on a report without rows (`GateOpensOnRefusedAnswer`, `GateOpensOnMissingRepetition`,
  `GateOpensOnNothing`). Behind an open gate all cases pass exactly when each has enough attempts and none that counts was
  refused (`OpenGatePassesExactlyWhen`, `OpenGatePassesExactlyOnInputs`). A cancelled report can carry an open gate; an incomplete one cannot.
* Dialogues with the rule simulator record at most 1 + F + K(R-1) turns for F facts, K key intents and repeat limit R, and one
  more only when the user gives up (`RuleDialogueMakesProgress`). The bound is reached for R of at least 2 (`BoundIsTight`).

## Model

| member | source | states |
|---|---|---|
| `MutationSafety.RespondSticks` | src/mutation_safety.py:98-139 | one guard call, refused or not: a token that is no longer waiting is never written again, a bound key keeps its first record |
| `MutationSafety.GuardsStick` | src/mutation_safety.py:98-139 | the same over any run of guard calls: consumption of a token hash is final, and the binding of a (tenant, operation, key) never changes |
| `MutationSafety.TokenConsumedAtMostOnce` | src/mutation_safety.py:112-128 | in any run of register, consume and reserve calls a token hash is consumed by at most one of them |
| `MutationSafety.KeyKeepsItsFirstRecord` | src/mutation_safety.py:130-139 | two successful reservations of one (tenant, operation, key) return the same record, and it has the fingerprint asked for |
| `MutationSafety.ConsumeSucceedsExactlyWhen` | src/mutation_safety.py:112-128 | after any calls: a token is consumed if and only if it was registered waiting and not consumed since, for this tenant and actor, has not expired and has the expected version; for another tenant or actor it does not exist, and anything else is stale |
| `MutationSafety.ReserveAnswersWithTheFirst` | src/mutation_safety.py:130-139 | after any calls: a reservation is answered with the first one of its key if the fingerprints agree, is a conflict if they do not, and is stored if it is the first |
| `MutationSafety.RegisterAcceptsOnce` | src/mutation_safety.py:106-110 | after any calls: a token hash is accepted if and only if it was not accepted before |
| `MutationSafety.MutationGuards.constructor` | src/mutation_safety.py:101-104 | the guards start without tokens and reservations |
| `MutationSafety.MutationGuards.Register` | src/mutation_safety.py:106-110 | state and reply are those of the specification run; a known hash is refused and changes nothing |
| `MutationSafety.MutationGuards.Consume` | src/mutation_safety.py:112-128 | all seven conditions on the token are checked in order, and only a full match consumes it |
| `MutationSafety.MutationGuards.Reserve` | src/mutation_safety.py:130-139 | first come binds the key; later callers get that record or a conflict |
| `MutationProtocol.RunConcat` | src/orchestration/mutation_execution.py:58-121 | runs of the transition system compose, so a run can be extended by whatever happens next |
| `MutationProtocol.ClaimPreservesInv` | src/repositories/mutations.py:357-386 | the claiming UPDATE keeps the invariant: one claimant per claimed record, standing before its single call |
| `MutationProtocol.CallPreservesInv` | src/orchestration/mutation_execution.py:85-91 | the adapter call keeps the invariant, whether the adapter answers, throws or the process dies |
| `MutationProtocol.CommitPreservesInv` | src/repositories/runs.py:320-365 | the completing UPDATE keeps the invariant, also when a concurrent recovery got there first |
| `MutationProtocol.ReadPreservesInv` | src/orchestration/mutation_execution.py:72-81 | load and re-read keep the invariant with arbitrary interleaving in between |
| `MutationProtocol.AdvancePreservesInv` | src/orchestration/mutation_execution.py:58-121 | every atomic access of every invocation of execute and recover keeps the invariant |
| `MutationProtocol.ApplyPreservesInv` | src/orchestration/mutation_execution.py:54-127 | every event of the system (reservation, new invocation, atomic access, crash) keeps the invariant |
| `MutationProtocol.ReachableInv` | src/orchestration/mutation_execution.py:54-127 | the invariant holds after any finite list of events: any number of workers, any interleaving, a crash between any two steps |
| `MutationGuarantees.ForeignEventsKeepProcess` | src/orchestration/mutation_execution.py:58-121 | the local state of an invocation changes only by its own steps |
| `MutationGuarantees.AdapterInvokedAtMostOnce` | src/orchestration/mutation_execution.py:58-98 | in every run the adapter is invoked at most once per record id, and only by the execute that claimed it |
| `MutationGuarantees.EventMakesOneStatusStep` | src/mutation_safety.py:13-20 | one event moves a stored status along reserved, in progress, terminal, or not at all |
| `MutationGuarantees.StoredStatusOnlyAdvances` | src/mutation_safety.py:13-20 | over any run rows never disappear or change hands, ranks never drop and a terminal row is never rewritten |
| `MutationGuarantees.TerminalRowIsTheAdaptersWord` | src/orchestration/mutation_execution.py:130-144 | SUCCEEDED or FAILED is stored only with the reference and response of the record's single adapter call, which reported exactly that |
| `MutationGuarantees.FirstOutcomeIsDurableAndUnique` | src/orchestration/mutation_execution.py:92-98 | an outcome with reused false is the durable row word for word, and at most one invocation ever gets one |
| `MutationGuarantees.NoOutcomeIsInvented` | src/orchestration/mutation_execution.py:147-166 | every outcome handed out is "unknown" or exactly the durable row |
| `MutationGuarantees.LateCallersReportTheRow` | src/orchestration/mutation_execution.py:147-157 | an invocation that starts after a row became terminal can only report that row |
| `MutationGuarantees.EveryLaterCallerAgrees` | src/orchestration/mutation_execution.py:58-121 | whatever runs in between, every later execute and recover returns the status, reference and response of the first caller, with reused true |
| `MutationGuarantees.ReadersReturnTheRow` | src/orchestration/mutation_execution.py:72-81 | in every reachable state, whoever reads a terminal row, at its load or after a missed claim, returns exactly its status, reference and response; a row in progress, and for recover a reserved one, is "unknown"; a missing row or another intent's is an error |
| `MutationGuarantees.EveryReplayWasRead` | src/orchestration/mutation_execution.py:58-121 | in every run, whoever ended with a replay got it from the row as it was at that invocation's last read, or resolved an orphan: so an execute hands out a reused "unknown" only over a row that was in progress or the blank UNKNOWN at that moment, and a recover over one that was reserved, the blank UNKNOWN, or that it made UNKNOWN |
| `MutationGuarantees.ReplaysAndRecoveriesNeverCall` | src/orchestration/mutation_execution.py:100-121 | no invocation that ends with a replay, and no recover, has invoked the adapter |
| `MutationGuarantees.DefensiveBranchesAreDead` | src/orchestration/mutation_execution.py:77-83 | the branches for a claimed record not in progress and for an invalid durable state are unreachable |
| `MutationGuarantees.FurtherCallPossibleIff` | src/orchestration/mutation_execution.py:76-86 | from any reachable state a (further) adapter call for a record can still happen if and only if it is reserved or its claimant stands right before the call; so never again once any worker has called or the record is terminal |
| `MutationGuarantees.CallableReachesCall` | src/orchestration/mutation_execution.py:76-86 | the positive half of that: a run that reaches the call is constructed |
| `MutationGuarantees.RunKeepsUncallable` | src/orchestration/mutation_execution.py:76-86 | the negative half: no run ever leaves the state in which no call is possible |
| `MutationGuarantees.UndisturbedExecuteCalls` | src/orchestration/mutation_execution.py:72-91 | a fresh execute on a reserved record that takes its three steps undisturbed makes the call itself, holds the claim and leaves the row in progress |
| `MutationGuarantees.UndisturbedRecoverResolves` | src/orchestration/mutation_execution.py:115-121 | liveness: an undisturbed recover on a record in progress makes it UNKNOWN, terminally |
| `MutationGuarantees.CheckpointStoresExactlyWhenInProgress` | src/orchestration/mutation_execution.py:91-98 | in every reachable state with an answer about to be stored: a checkpoint that does not raise by itself stores exactly that answer if and only if the row is still in progress; otherwise the row is UNKNOWN and nothing changes |
| `MutationGuarantees.OthersLeaveClaimedRecord` | src/orchestration/mutation_execution.py:76-121 | a claimed record is touched by its claimant and by a recovery's checkpoint, by nothing else |
| `MutationGuarantees.AnswerIsStoredExactlyWhen` | src/orchestration/mutation_execution.py:85-121 | for every run whose caller of the adapter has ended: the answer is stored if and only if no recover of the record committed first and the caller neither crashed nor had its checkpoint raise before the commit; after a recovery the row is the blank UNKNOWN, which equals the answer only if that was a blank UNKNOWN too |
| `MutationGuarantees.ClaimantIsRefusedExactlyWhenOvertaken` | src/orchestration/mutation_execution.py:85-92 | a claimant about to call, then called and checkpointed: refused if and only if its record was resolved meanwhile |
| `MutationGuarantees.RecoverMayOvertakeTheClaimant` | src/orchestration/mutation_execution.py:100-121 | from any state with a claimant about to call, a recover resolves the record to UNKNOWN, and the claimant's answer, whatever it is, is then refused |
| `MutationGuarantees.OvertakingHappens` | src/orchestration/mutation_execution.py:58-121 | such a run from the empty system, for any intent and any answer, in which nothing crashes and no checkpoint raises by itself |
| `MutationExecution.ReplayIsHonest` | src/orchestration/mutation_execution.py:147-166 | what a caller of execute or recover may rely on when it gets a replay |
| `MutationExecution.RecoverNeverCalls` | src/orchestration/mutation_execution.py:100-121 | recover adds no adapter call in any run |
| `MutationExecution.DurableMutationBoundary.constructor` | src/orchestration/mutation_execution.py:55-56 | the boundary starts on an empty store and history |
| `MutationExecution.DurableMutationBoundary.Interfere` | src/orchestration/mutation_execution.py:54-127 | anything other invocations do between two statements leaves this invocation where it stands |
| `MutationExecution.DurableMutationBoundary.RequireIntent` | src/orchestration/mutation_execution.py:123-127 | load, or the error for a missing row, as one event of the protocol |
| `MutationExecution.DurableMutationBoundary.Claim` | src/repositories/mutations.py:357-386 | the conditional UPDATE as one event; a row is returned exactly when it hit |
| `MutationExecution.DurableMutationBoundary.CallAdapter` | src/orchestration/mutation_execution.py:85-90 | one adapter call is added, for this record only; an exception counts as UNKNOWN, a crash ends the invocation |
| `MutationExecution.DurableMutationBoundary.Checkpoint` | src/repositories/runs.py:320-365 | the completion is stored exactly when the row is in progress, because tenant and fingerprint always match there; otherwise it raises and the store is unchanged |
| `MutationExecution.DurableMutationBoundary.Execute` | src/orchestration/mutation_execution.py:58-98 | the statements of execute, with arbitrary other invocations between any two of them, end in a final phase; a fresh outcome means this call paid for it and it is stored; a replay is what the row said at this invocation's last read |
| `MutationExecution.DurableMutationBoundary.ClaimAndCall` | src/orchestration/mutation_execution.py:76-98 | the same from the claim on |
| `MutationExecution.DurableMutationBoundary.ReplayAfterMissedClaim` | src/orchestration/mutation_execution.py:77-81 | a missed claim ends without a call, in what the re-read row says |
| `MutationExecution.DurableMutationBoundary.CallAndCommit` | src/orchestration/mutation_execution.py:85-98 | from the adapter call on: when the adapter answers, execute returns it if and only if the checkpoint does not raise by itself and no recover committed first |
| `MutationExecution.DurableMutationBoundary.StoreAnswer` | src/orchestration/mutation_execution.py:91-98 | the same after the adapter's answer |
| `MutationExecution.AnswerStoredUnlessRecovered` | src/orchestration/mutation_execution.py:91-92 | before its checkpoint the claimant's row is in progress if and only if no recover committed |
| `MutationExecution.DurableMutationBoundary.Recover` | src/orchestration/mutation_execution.py:100-121 | recover under interference: no adapter call by it, and what the row said when it was read, or "unknown" for an orphan that it resolved |
| `MutationExecution.DurableMutationBoundary.ResolveOrphan` | src/orchestration/mutation_execution.py:115-121 | recover on a record in progress |
| `IntentState.MoveKeepsConsistent` | src/harness/intent_state.py:89-106 | one transition keeps history and states in agreement and moves no intent back |
| `IntentState.StepsKeepConsistent` | src/harness/intent_state.py:38-75 | a raise, address or verify call keeps that, also when it raises midway through its list |
| `IntentState.FreshIsConsistent` | src/harness/intent_state.py:24-29 | a new machine starts in agreement |
| `IntentState.HistoryAlwaysExplainsStates` | src/harness/intent_state.py:21-110 | after any sequence of calls, raising ones included, replaying the history from NOT_RAISED gives the states, each intent has one contiguous chain of at most three steps, and none went back |
| `IntentState.NewMachine` | src/harness/intent_state.py:24-29 | construction succeeds exactly for a list without repetition |
| `IntentState.IntentStateMachine.Transit` | src/harness/intent_state.py:89-106 | one entry is appended to the history and one state changes, nothing else |
| `IntentState.IntentStateMachine.Handle` | src/harness/intent_state.py:38-75 | the loop over the intents, with everything done before a raising intent kept, equals the specification; the transitions returned are exactly those appended to the history |
| `IntentState.IntentStateMachine.AllAddressed` | src/harness/intent_state.py:85-87 | true exactly when each listed intent is addressed or verified |
| `IntentState.IntentMovesExactlyOneStep` | src/harness/intent_state.py:38-106 | for one intent of a call: an error for an unknown one, nothing for one that is there or further, one step and one history entry for one right before the goal, and for each further distance its own error |
| `IntentState.CallRaisesAtTheFirst` | src/harness/intent_state.py:38-75 | a call raises exactly at the first intent that does, with everything before it kept |
| `MultiTurnSchema.PrioritiesPartitionAgenda` | src/harness/multiturn_schema.py:103-114 | key and minor intents together are the agenda, without repetition |
| `MultiTurnSchema.TrackedIntentsAreTheAgenda` | src/harness/multiturn_runner.py:64-69 | the runner tracks every agenda intent exactly once |
| `UserSimulator.FirstOutside` | src/harness/user_simulator.py:303-313 | a candidate that is not revealed yet while all before it are, or none only when all candidates are revealed |
| `UserSimulator.FollowupMessageInjective` | src/harness/user_simulator.py:191-247 | follow-ups on different intents have different messages, so repeats are counted per intent |
| `UserSimulator.ViolationIsTheFirst` | src/harness/user_simulator.py:265-279 | an action is refused if and only if it breaks the scenario's contract, and for the first rule it breaks: targets within the agenda, facts within what may be told, requests that go on and farewells that do not, no hidden text anywhere in the message |
| `UserSimulator.RuleActionIs` | src/harness/user_simulator.py:191-247 | the rule simulator opens first, takes leave when nothing is pending, gives up exactly when its patience ran out on a blank or stock reply, and otherwise asks on, always about the first pending intent; it never breaks its word about going on |
| `UserSimulator.FactsComeFirst` | src/harness/user_simulator.py:229-247 | a follow-up is asked only when every fact that may be told was told; otherwise the first untold one is |
| `MultiTurnVerifier.AddressedExactlyWhen` | src/harness/multiturn_verifier.py:63-72 | a target is addressed if and only if the trace is a completed, non-blank answer without a blocking next action that concerns it or refuses, and the user was not leaving |
| `MultiTurnVerifier.ExposedAccuracy` | src/harness/multiturn_verifier.py:74-83 | the loop over raised intents computes the share of them that some turn addressed, over any set order |
| `MultiTurnVerifier.CountAddressed` | src/harness/multiturn_verifier.py:79-82 | its counter equals the number of raised intents that were addressed |
| `MultiTurnVerifier.Feedback` | src/harness/multiturn_verifier.py:85-105 | the growing list of signals equals noise, one signal per blamed turn in order, and the turn-limit signal |
| `MultiTurnVerifier.VerifyTurns` | src/harness/multiturn_verifier.py:19-61 | the whole report, recomputed from the turns alone |
| `MultiTurnRunner.CountRepeats` | src/harness/multiturn_runner.py:215-222 | the length of the streak of same kind and message at the end of the actions |
| `MultiTurnRunner.Pending` | src/harness/multiturn_runner.py:82-86 | the key intents still open, in order |
| `MultiTurnRunner.InvokeAgent` | src/harness/multiturn_runner.py:177-201 | always a trace of this scenario: the agent's answer, or, on cancellation, timeout or exception, a failure with that reason, blank and without evidence, which can address no intent |
| `MultiTurnRunner.ConcludeTurn` | src/harness/multiturn_runner.py:148-159 | a failed trace, a leaving user and the addressed agenda stop the dialogue, in that order |
| `MultiTurnRunner.Turn` | src/harness/multiturn_runner.py:101-159 | one accepted action updates machine, turns, messages and termination as specified |
| `MultiTurnRunner.OneTurn` | src/harness/multiturn_runner.py:74-159 | one pass of the loop, with each of its exits |
| `MultiTurnRunner.Run` | src/harness/multiturn_runner.py:53-175 | the for loop with its else branch ends with the dialogue, termination, state machine and report of the specification, for any simulator and agent |
| `MultiTurnGuarantees.RaiseEffect` | src/harness/intent_state.py:38-47 | raising tracked intents never raises an error and changes exactly the unraised ones |
| `MultiTurnGuarantees.AddressEffect` | src/harness/intent_state.py:49-60 | addressing intents that were raised never raises an error and changes exactly the raised ones |
| `MultiTurnGuarantees.AcceptedStates` | src/harness/multiturn_runner.py:101-132 | after a validated action neither the raise nor the address step can fail, and every state is determined |
| `MultiTurnGuarantees.AcceptedActionIsRecorded` | src/harness/multiturn_runner.py:101-147 | a validated action always becomes a recorded turn: both intent-contract-error branches are skipped |
| `MultiTurnGuarantees.TurnKeepsGoing` | src/harness/multiturn_runner.py:74-159 | one turn keeps the agreement of turns and state machine, and says how the dialogue can end |
| `MultiTurnGuarantees.PlayKeepsGoing` | src/harness/multiturn_runner.py:74-161 | the same for all remaining turns up to the turn limit |
| `MultiTurnGuarantees.VerifierAgreesWithStateMachine` | src/harness/multiturn_verifier.py:28-33 | for any simulator and agent: the verifier's raised and addressed sets are those of the state machine, addressed within raised, the turns' transitions concatenate to the whole history and replay to the states, turn ids are 1..n |
| `MultiTurnGuarantees.DialoguesEndHonestly` | src/harness/multiturn_runner.py:101-161 | only the last turn can hold a failed trace, both intent-contract errors are unreachable, and the dialogue is completed if and only if every key intent is addressed |
| `MultiTurnGuarantees.ReportsScoreExactly` | src/harness/multiturn_verifier.py:28-61 | exposed accuracy equals progress whenever something was raised; a completed dialogue has coverage 1 and no noise, and succeeds if and only if no turn is blamed on the agent; abandoned means failed, incomplete means unscored |
| `MultiTurnGuarantees.AgentErrorsComeFromTurns` | src/harness/multiturn_verifier.py:96-102 | an agent error among the turn signals means a turn that is to blame, and conversely |
| `MultiTurnGuarantees.CompletedReport` | src/harness/multiturn_verifier.py:28-54 | what a report of a completed dialogue says |
| `MultiTurnTranscript.EveryDialogueIsTold` | src/harness/multiturn_runner.py:53-163 | for every simulator and agent: the agent is given the initial messages, then each earlier turn's user message and non-blank reply, then this turn's user message, added only when it is not already the last one; every trace is its own answer to exactly that, or says why there is none; every action is the provider's on the earlier actions, the last response and the open keys; and the dialogue stops for the one cause of its reason |
| `MultiTurnTranscript.TheUserHasTheLastWord` | src/harness/multiturn_runner.py:117-124 | what the agent is given ends with the user's message of the turn, extends everything said before and adds at most that one message to it |
| `MultiTurnTranscript.StatusIsExact` | src/harness/multiturn_runner.py:148-161 | abandoned if and only if the last turn was the user's leaving and its trace did not fail, completed if and only if every key was addressed in some turn |
| `MultiTurnTranscript.PendingIsOpen` | src/harness/multiturn_runner.py:82-86 | the pending intents are exactly the keys that no turn addressed, in agenda order |
| `MultiTurnTranscript.StreakIsCounted` | src/harness/multiturn_runner.py:215-222 | an action repeats r times if and only if the last r actions have its kind and message |
| `MultiTurnScores.CoverageCounts` | src/harness/multiturn_verifier.py:28-33 | coverage is the share of the key intents that some turn raised, in any dialogue, finished or not |
| `MultiTurnScores.ProgressCounts` | src/harness/multiturn_verifier.py:28-33 | progress is the share of the raised intents that some turn addressed |
| `MultiTurnScores.NoiseIsAnUnraisedKey` | src/harness/multiturn_verifier.py:34 | noise means a key intent that no turn raised |
| `MultiTurnScores.SuccessIsExact` | src/harness/multiturn_verifier.py:36-42 | success if and only if the dialogue completed, every key was raised and addressed, no turn is to blame and the turn limit was not the end; unscored exactly when incomplete |
| `MultiTurnScores.SignalIsExact` | src/harness/multiturn_verifier.py:96-102 | a turn is signalled as the agent's error exactly when it failed or left a follow-up or volunteered fact unanswered, and else as a limit exactly when it asked for a human |
| `RuleDialogue.PendingIsSuffix` | src/harness/multiturn_runner.py:82-86 | when the addressed key intents are a prefix, the pending ones are the rest |
| `RuleDialogue.ActionIsAccounted` | src/harness/user_simulator.py:191-247 | every action of the rule simulator is the opening, a new fact, a follow-up within its repeat budget, or the end |
| `RuleDialogue.AcceptedRuleTurn` | src/harness/multiturn_runner.py:97-159 | an accepted rule action keeps the progress account |
| `RuleDialogue.RuleTurn` | src/harness/multiturn_runner.py:74-159 | so does every turn, whatever the agent answers |
| `RuleDialogue.RuleDialogueMakesProgress` | src/harness/user_simulator.py:191-247 | at every turn the addressed key intents are a prefix of key_intents and the raised ones that prefix or one longer; finish is never emitted; without using the turn limit at most 1 + F + K(R-1) turns are recorded, one more when the user gives up |
| `RuleDialogue.TurnLimitMattersOnlyWhenTight` | src/harness/multiturn_runner.py:160-161 | the turn limit is never the reason to stop when it exceeds 1 + F + K(R-1) |
| `LateDialogue.NextIsGood` | src/harness/user_simulator.py:191-247 | after helpful replies the user opens, reveals every fact once, and then follows up on the open intent; the account of these actions is exact |
| `LateDialogue.AnsweredAtTheEnd` | src/harness/user_simulator.py:241-247 | the late agent's reply counts exactly at the last follow-up that the user has for the open intent |
| `LateDialogue.BoundIsReached` | src/harness/multiturn_runner.py:73-161 | for every scenario whose facts read differently, every R of at least 2 and every turn limit that leaves room, the dialogue with that agent completes after exactly 1 + F + K(R-1) turns |
| `LateDialogue.BoundIsTight` | src/harness/user_simulator.py:191-247 | for all F, K >= 1 and R >= 2 within the turn limit of 32 there is such a dialogue, so the bound of RuleDialogueMakesProgress is exact |
| `DecisionValidation.ValidatorAcceptsExactlyTheSafe` | src/agent/validation.py:48-68 | the ordered checks accept a decision if and only if it is a safe answer, or a safe call of the given tool: type, route, evidence, no system fields, tool identity, arguments within the schema |
| `DecisionValidation.ArgumentChecks` | src/agent/validation.py:70-89 | no argument error if and only if required, known and well-typed arguments only |
| `DecisionValidation.BoundaryChecks` | src/agent/validation.py:49-68 | the four boundary checks in set form |
| `AgentStep.AgentStepExecutor.constructor` | src/agent/loop.py:68-86 | a new executor has no calls and no records |
| `AgentStep.AgentStepExecutor.Record` | src/agent/loop.py:567-569 | one stage record is appended |
| `AgentStep.AgentStepExecutor.BindDeliveryOrder` | src/agent/loop.py:601-625 | only a delivery lookup's arguments change: the tracking id goes, a missing order id comes from trusted state if there is one, everything else the model chose stays |
| `AgentStep.AgentStepExecutor.CheckGates` | src/agent/loop.py:116-144 | the first gate that closes, in order, with all stages recorded as skipped |
| `AgentStep.AgentStepExecutor.ExecuteStep` | src/agent/loop.py:103-432 | on every path the result, the stage records, the model calls and the tool calls are those of the specification |
| `AgentStep.AgentStepExecutor.ActOn` | src/agent/loop.py:146-432 | the same from the model call on |
| `AgentStep.AgentStepExecutor.CallToolWith` | src/agent/loop.py:230-325 | the tool path: resolve, risk, validate, execute |
| `AgentStep.AgentStepExecutor.AnswerWith` | src/agent/loop.py:326-432 | the answer path with its one retry |
| `AgentLoop.AdvanceOnce` | src/orchestration/pipeline.py:171-259 | a run that stays RUNNING_READONLY had steps left and counted one more |
| `AgentLoop.AdvanceStep` | src/orchestration/pipeline.py:171-259 | one persisted step: the executor's calls grow by exactly those of the step, also when the checkpoint raises |
| `AgentLoop.AdvanceLogged` | src/orchestration/pipeline.py:171-259 | so the executor has made exactly the logged calls |
| `AgentLoop.OneRound` | src/agent/loop.py:532-563 | one pass of the while loop either ends the run or leads to the specified next state |
| `AgentLoop.Settle` | src/agent/loop.py:535-563 | budget clamp, status check and no-progress check of one pass |
| `AgentLoop.Run` | src/agent/loop.py:513-564 | the while loop terminates with the specified context and results, and the executor made exactly the calls in the log |
| `AgentLoop.CallsAppend` | src/agent/loop.py:532-563 | calls of consecutive logs concatenate |
| `AgentGuarantees.StagesAreCompleteAndOrdered` | src/agent/loop.py:115-432 | every path records request_decision, validate, execute, observe once each in order; execute is not skipped iff the executor was invoked, and completed iff the step continues |
| `AgentGuarantees.ToolCallsAreSafe` | src/agent/loop.py:230-287 | the executor is called at most once per step, with the rebound decision that is safe against the resolved READ_ONLY, visible, in-scope specification |
| `AgentGuarantees.RetriesOnlyAnswer` | src/agent/loop.py:327-432 | a second model call happens only after untrusted evidence in an answer, never leads to a tool call or a further step; the final unsupported_decision is unreachable |
| `AgentGuarantees.BindingIsNarrow` | src/agent/loop.py:601-625 | rebinding touches delivery lookups only, never overrides an order id, takes it from trusted state only, and is idempotent |
| `AgentGuarantees.RebindingIsDetermined` | src/agent/loop.py:601-625 | that description has exactly one solution, the rebound decision |
| `AgentGuarantees.SortedItemsIdentifyArguments` | src/agent/loop.py:634-644 | the sorted argument items of two signatures are equal only for equal arguments |
| `AgentGuarantees.SortedItemsAreTheAscendingOnes` | src/agent/loop.py:640-644 | any ascending listing of the argument names gives those items, so the order of the dictionary does not matter |
| `AgentGuarantees.LoopEndsWell` | src/agent/loop.py:532-564 | from any state reached by productive steps the run ends within the step limit and the budget, and a stopped run has max(0, B - total charge) left |
| `AgentGuarantees.RunsAreBounded` | src/agent/loop.py:513-564 | a run started at step s <= 6 makes at most 7-s advances and one handoff, at most 2(6-s) and 7-s model calls, at most 6-s tool calls, no call equal to its predecessor except as the last, and ends outside RUNNING_READONLY unless something raised |
| `AgentGuarantees.NoModelCallBeyondBudget` | src/agent/loop.py:129-136 | a step calls the model only while the charges before it sum to less than the budget |
| `AgentGuarantees.RemainingBudgetIsExact` | src/agent/loop.py:527-549 | the budget of a stopped run is max(0, B - total charge), despite the clamp after every step |
| `AgentOutcomes.AnswersKeepTheirKind` | src/agent/loop.py:327-432 | for every input of a step: an accepted answer, first or retried, gives WAIT_USER iff it asks the user, WAIT_HUMAN iff it hands off, COMPLETE iff it responds or finishes, with its own text, decision and usage and no reason; and nothing else has such a status |
| `AgentOutcomes.ToolsRunExactlyWhenSafe` | src/agent/loop.py:230-326 | the executor is called if and only if the decision was received and asks for an offered read-only tool within the boundary and the tool's schema; the call has the rebound arguments, and the step continues if and only if it returned |
| `AgentOutcomes.ReasonsAreExact` | src/agent/loop.py:116-432 | each of the twelve reasons is given if and only if its one cause is among the step's inputs; unsupported_decision never |
| `AgentOutcomes.ReasonsDecideFailure` | src/agent/loop.py:116-432 | a step fails exactly for a reason other than a forbidden write, which goes to a human; with a reason there is neither response nor execution |
| `AgentOutcomes.StagesAreExact` | src/agent/loop.py:115-432 | the outcome recorded for each stage, on the inputs: skipped before its turn, completed or failed as the request, the validation and the execution went |
| `AgentOutcomes.AdvanceIsExact` | src/orchestration/pipeline.py:402-415 | an advance raises exactly when its inputs or its checkpoint do; otherwise the run's new status is the one that the step's result stands for, in both directions |
| `AgentOutcomes.TrustedOrderIdIs` | src/agent/loop.py:601-625 | the trusted order id is the non-empty string at tool_data_by_name, get_order_status, order, order_id |
| `AgentOutcomes.EvidenceCarriesOver` | src/orchestration/pipeline.py:187-194 | a step trusts exactly the boundary's evidence and the strings in the run state's evidence_ids |
| `AgentOutcomes.StateIsReduced` | src/orchestration/pipeline.py:351-388 | key by key what a result leaves in the run state: status, reason, the tool's data accumulated per tool, the evidence it names, and everything else as before |
| `AgentRuns.RunsEndForTheirReason` | src/agent/loop.py:513-564 | for every readonly run: step k is made on the state, count and budget that the steps before it leave; all but the last went on without repetition; a stopped run is handed off if and only if its last two steps continued with the same tool and arguments, and stops otherwise only at a step that does not continue; it raises only where an input, a checkpoint or the handoff did |
| `AgentRuns.NewCallsGoOn` | src/agent/loop.py:554-563 | a run whose last step continued with a call different from the one before it does not end there, unless something raised |
| `AgentRuns.ResultsAreTheSteps` | src/agent/loop.py:526-564 | the results handed back are those of the steps, and one more WAIT_HUMAN result exactly after a repetition |
| `AgentRuns.OtherRunsAreLeftAlone` | src/agent/loop.py:531-564 | a run that is not RUNNING_READONLY is handed back unchanged without a step |
| `AgentCharges.RetriesExactlyWhen` | src/agent/loop.py:327-342 | the model is called twice if and only if an audited, traced, uncancelled answer cites untrusted evidence, and never if and only if a gate is closed |
| `AgentCharges.ChargeIs` | src/agent/loop.py:527-549 | what the loop deducts for a step, for all inputs: the last call's usage on the branches that hand it on, the conservative charge on all others |
| `AgentCharges.ChargeIsTheReportExactlyWhen` | src/agent/loop.py:327-432 | a step whose calls report a total is charged that total if and only if, on a branch that hands on a usage, there is no retry or the first call reported zero, and on any other branch the conservative charge equals it |
| `AgentCharges.RetriedAnswerIsUndercharged` | src/agent/loop.py:341-364 | for any usages and any positive budget, even one that the first call exceeds: two calls are made and only the second is charged |
| `AgentCharges.RejectedAnswerIsChargedConservatively` | src/agent/loop.py:382-397 | a rejected answer is charged the conservative amount, whatever its call reported |
| `AgentCharges.OnlyTheLastStepIsMischarged` | src/agent/loop.py:532-563 | in every run all steps but the last are charged what their one model call reported, or the conservative amount if it reported nothing |
| `AgentCharges.StatesAreChained` | src/agent/loop.py:532-563 | the states of the loop's variables at the start of its passes follow one another by the loop body |
| `AgentCharges.PassesReachTheEnd` | src/agent/loop.py:532-563 | from each of them the run goes on to the same end, and pass k starts with k steps behind it |
| `AgentCharges.StepsAreGivenTheRemainder` | src/agent/loop.py:534-549 | step k of a run is the executor's step on the context and the budget that the loop holds in pass k, and that budget is what the charges of the earlier steps leave |
| `AgentCharges.StepsAreGivenExactBudgets` | src/agent/loop.py:534-549 | so the budget given to step k is exactly B for the first step, and max(0, B - what the earlier model calls reported) after it |
| `AgentCharges.BudgetBoundsReports` | src/agent/loop.py:129-136 | and a model is called only while what the earlier calls of the run reported is below the budget |
| `CheckpointMigrations.CheckpointStateMigrator.constructor` | src/checkpoint_migrations.py:24-27 | no migrations at first |
| `CheckpointMigrations.CheckpointStateMigrator.Register` | src/checkpoint_migrations.py:32-35 | a second migration from a version is refused; otherwise the table grows by one edge |
| `CheckpointMigrations.CheckpointStateMigrator.Migrate` | src/checkpoint_migrations.py:37-51 | the while loop over version, seen and result terminates for any table and computes the walk |
| `CheckpointMigrations.PathIsUnique` | src/checkpoint_migrations.py:32-35 | at most one registered path leads from a version to the current one |
| `CheckpointMigrations.PathHasNoRepeats` | src/checkpoint_migrations.py:40-46 | such a path visits no version twice, so the cycle check never cuts it |
| `CheckpointMigrations.FollowTakesPath` | src/checkpoint_migrations.py:37-51 | the walk is the composition along the path |
| `CheckpointMigrations.MigrationIsTheComposedPath` | src/checkpoint_migrations.py:37-51 | migrate returns a result if and only if the registered path reaches the current version and its composition gives that result; cyclic tables included |
| `CheckpointMigrations.LaterRegistrationsKeepResults` | src/checkpoint_migrations.py:32-35 | no later registration changes a result that already succeeded |
| `CatalogSplit.SlicesAreConsecutive` | src/harness/catalog_split.py:61-67 | when the safety seeds fit, the three slices are consecutive pieces of safety ids followed by selection ids |
| `CatalogSplit.TakeIsConsecutive` | src/harness/catalog_split.py:50-67 | the slices are taken if and only if the counts fit, and then they are consecutive pieces of safety ids followed by selection ids: negative bounds never show |
| `CatalogSplit.TakeSeeds` | src/harness/catalog_split.py:50-67 | the moving cursor takes those pieces, and there is an error exactly when they do not fit |
| `CatalogSplit.MakeAll` | src/harness/catalog_split.py:73-81 | the four partitions in order, or the first error |
| `CatalogSplit.BuildManifest` | src/harness/catalog_split.py:39-99 | the whole builder equals the specification, every error included |
| `CatalogSplitGuarantees.LeftoverCompletes` | src/harness/catalog_split.py:68-69 | the candidates are exactly the ids not taken |
| `CatalogSplitGuarantees.AllocationSucceeds` | src/harness/catalog_split.py:58-71 | the guard at line 70 never fires when the counts fit |
| `CatalogSplitGuarantees.ScenarioIdTellsSeed` | src/harness/catalog_loader.py:34-57 | scenario ids of different seeds differ |
| `CatalogSplitGuarantees.FamiliesAreWhole` | src/harness/catalog_split.py:136-139 | a partition has three scenarios for each of its seeds |
| `CatalogSplitGuarantees.BuildSucceedsExactlyWhenItFits` | src/harness/catalog_split.py:50-85 | with distinct seed ids: success iff each count is at least 1, they sum to less than the number of seeds and the safety seeds fit into calibration; otherwise the first of those three reasons, and never an error of lines 70, 84 or 139 |
| `CatalogSplitGuarantees.BuildRefuses` | src/harness/catalog_split.py:51-64 | which error is raised when it does not fit, for any dataset |
| `CatalogSplitGuarantees.SplitIsAPartition` | src/harness/catalog_split.py:73-85 | the partitions have the requested sizes, list every seed exactly once and every scenario in exactly one partition |
| `CatalogSplitGuarantees.SafetySeedsCalibrate` | src/harness/catalog_split.py:56-64 | every safety seed is in calibration |
| `CatalogSplitGuarantees.LookupSucceedsExactlyWhenCovered` | src/harness/catalog_split.py:102-114 | reading a split succeeds iff the manifest names it and the scenarios at hand cover it |
| `CatalogSplitGuarantees.ManifestReadsBack` | src/harness/catalog_split.py:102-114 | round trip: reading any split of a built manifest gives exactly the scenarios of its seeds |
| `CatalogSplitGuarantees.SplitTakesInOrder` | src/harness/catalog_split.py:46-73 | calibration, frozen candidates and held-out seeds are consecutive pieces of the ascending safety ids followed by the ascending selection ids, and the remaining candidates are ascending |
| `RoundRobin.PickedTakesPrefixes` | src/harness/multiturn_review.py:230-243 | at any turn each list has contributed exactly a prefix |
| `RoundRobin.AllTakesEverything` | src/harness/multiturn_review.py:230-243 | all turns together take each element exactly once |
| `RoundRobin.TurnsAreFair` | src/harness/multiturn_review.py:230-243 | cut at any size, a list with elements left is at most one behind an earlier list and not behind a later one |
| `ReviewSampler.GroupRows` | src/harness/multiturn_review.py:216-221 | the dictionary of families, in order of appearance, rows in report order |
| `ReviewSampler.RankFamilies` | src/harness/multiturn_review.py:222-228 | every family sorted in place |
| `ReviewSampler.TakeTurns` | src/harness/multiturn_review.py:229-244 | the while and for loops with their breaks take turns until the size is reached or a round adds nothing |
| `ReviewSampler.StableReviewSample` | src/harness/multiturn_review.py:206-244 | the sampler as it runs equals the specification |
| `ReviewSampler.RankingIs` | src/harness/multiturn_review.py:222-228 | a family's order holds exactly its rows with observable turns, more turns first, then report order |
| `ReviewSampler.RankingOrder` | src/harness/multiturn_review.py:222-228 | of two rows of a family's order the earlier has more turns, or as many and the smaller index |
| `ReviewSampler.SampleIsFull` | src/harness/multiturn_review.py:206-244 | the sample has min(sample_size, eligible) distinct eligible rows, and none for a size below one |
| `ReviewSampler.SampleIsFair` | src/harness/multiturn_review.py:230-243 | fairness for any grouping and any order of names |
| `ReviewSampler.ReviewIsFair` | src/harness/multiturn_review.py:206-244 | for any two scenario families: the rows taken are a prefix of the family's order, and if it has k taken and some left, no other has more than k+1, nor more than k when its name comes later |
| `ReviewSampler.QueueIsBuiltExactlyWhen` | src/harness/multiturn_review.py:141-186 | the queue is built iff enough rows can be shown and the chosen ids are present and unique; the check for observable turns never fires |
| `ReviewSampler.QueueRefusesFor` | src/harness/multiturn_review.py:141-186 | each refusal of a queue if and only if its cause: the size, a missing id, a repeated id |
| `ReviewSampler.FamilyIgnoresNumbering` | src/harness/multiturn_review.py:273-278 | appending a number or v1 to a scenario id keeps its family |
| `ReviewSampler.FamilyDropsNumbering` | src/harness/multiturn_review.py:273-278 | a last part is dropped if and only if it is a number or v1 and something else is left before it |
| `ReviewSampler.SinglePartIsItsFamily` | src/harness/multiturn_review.py:273-278 | an id without underscores is its own family |
| `ReviewSampler.StrippedSinglePart` | src/harness/multiturn_review.py:273-278 | of an id without underscores nothing is left exactly when it is a number or v1 |
| `Ordering.LeIsLexicographic` | src/harness/multiturn_review.py:230 | the order of family names and ids is the lexicographic one by code point: a prefix, or smaller at the first difference |
| `Grouping.GroupBy` | src/harness/report.py:148-150 | grouping rows in a dictionary, by any key |
| `Grouping.CountGroups` | src/harness/report.py:287-298 | counting the groups that meet a test |
| `Grouping.GroupSizesAddUp` | src/harness/report.py:153-154 | the groups' sizes add up to the number of rows |
| `Report.BuildRows` | src/harness/report.py:79-144 | one row per result of a known case, with the judge of that attempt |
| `Report.CountTotals` | src/harness/report.py:191-206 | the counts over grouped cases |
| `Report.CountAttempts` | src/harness/report.py:154 | the sum of group sizes is the number of rows |
| `Report.CountTracks` | src/harness/report.py:145-165 | the statistics of every track that occurs |
| `Report.ReviewSafety` | src/harness/human_review.py:79-165 | labels, completeness, both error rates and the review gate; a label under a wrong key is an error |
| `Report.CountErrors` | src/harness/human_review.py:116-129 | the four counters of the loop |
| `Report.BuildReport` | src/harness/report.py:52-320 | the report equals the specification, track statistics included |
| `ReportGuarantees.RowsComeFromCases` | src/harness/report.py:80-144 | every row has the track of its case and the final verdict that goes with its judge |
| `ReportGuarantees.MeetingSplits` | src/harness/report.py:287-298 | passed and failed cases add up to the selected ones |
| `ReportGuarantees.PassedWithinFirstWithinHard` | src/harness/report.py:194-210 | all repetitions passed implies first attempt passed implies hard checks passed, in counts and rates |
| `ReportGuarantees.TrackCountsAddUp` | src/harness/report.py:148-165 | whatever is counted per case, the tracks add up to the report |
| `ReportGuarantees.ReportCountsAddUp` | src/harness/report.py:284-306 | for any results and at least one repetition: passed + failed = selected <= attempts, passed <= first passed <= hard passed, the rates ordered within [0, 1], and all five track columns sum to the totals |
| `ReportGuarantees.GateOpensExactlyWhen` | src/harness/report.py:232-260 | the release gate opens iff it is a judged release whose rows all passed the hard checks, were judged by others without error and, where review is needed, are fully labelled within both thresholds; then the status is never incomplete |
| `ReportGuarantees.OpenGateRowsPassUnlessRefused` | src/harness/report.py:91-99 | behind an open gate a row passes iff its judge did not refuse it |
| `ReportGuarantees.OpenGatePassesExactlyWhen` | src/harness/report.py:232-298 | behind an open gate no case fails if and only if every case has enough attempts and none of its first `repetitions` attempts was refused |
| `ReportGuarantees.AttemptsAreResults` | src/harness/report.py:80-88 | the attempts of a known case are its results in order, attempt k with the judge for k; an unknown case has none |
| `ReportGuarantees.OpenGatePassesExactlyOnInputs` | src/harness/report.py:232-298 | the same read off the inputs: every known case with a result has enough of them, and none of its first `repetitions` judges said no |
| `ReportGuarantees.GateOpensOnMissingRepetition` | src/harness/report.py:232-298 | the gate opens on one approved attempt where two or more were asked for: nothing passes although nothing was refused |
| `ReportGuarantees.GateOpensOnRefusedAnswer` | src/harness/report.py:232-238 | the gate does open on a report whose only case its judge refused |
| `ReportGuarantees.GateOpensOnNothing` | src/harness/report.py:232-248 | and on a judged release without rows |
| `ReportInputs.AttemptsOnInputs` | src/harness/report.py:80-144 | attempt k of a known case has the hard verdict and protective flag of its k-th result, the verdict, error and self-judged flag of the judge for k, or else for the case; its final verdict is hard and not refused when judged or when no judge decides there, and none otherwise |
| `ReportInputs.AttemptsAreAsMany` | src/harness/report.py:80-87 | a known case has as many attempts as results, an unknown one none |
| `ReportInputs.RowsOnInputs` | src/harness/report.py:79-144 | the rows are exactly the results whose case is known, in their order, each as that attempt |
| `ReportInputs.KnownOnce` | src/harness/report.py:78 | of several cases with one id the last one counts |
| `ReportInputs.ReviewOnInputs` | src/harness/human_review.py:100-129 | what the review counts are the results to be reviewed with a label of the risk, and of those the low risk stopped and the high risk let through |
| `ReportInputs.GateOnInputs` | src/harness/report.py:169-248 | the gate on the inputs: a release for which judges were asked, every result of a known case passed the hard checks and has, unless it is mere routing, an error-free verdict of another judge, and the human review passes if there is anything to review |
| `ReportInputs.StatusOnInputs` | src/harness/report.py:169-260 | the status on the inputs, whether or not the gate is open: incomplete if and only if a judgement that the report needs, a label or the thresholds are missing, cancelled if and only if cancelled |
| `ReportInputs.RefusedExactlyWhen` | src/harness/human_review.py:79-100 | no report if and only if a label is filed under another case |
| `ReportTotals.TotalsOnInputs` | src/harness/report.py:191-306 | selected, hard passed, judge passed, first passed, passed and failed are the numbers of cases whose results and judges say so, attempt by attempt |
| `ReportTotals.RatesAreShares` | src/harness/report.py:194-210 | both rates are those numbers over the selected cases, or zero without any |
| `ReportTotals.AttemptMeans` | src/harness/report.py:80-144 | what each attempt's row says, in terms of that attempt's result and judge |
| `Percentile.LiesBetweenNeighbours` | src/harness/report.py:623-630 | before rounding a percentile lies between its two neighbouring samples |
| `Percentile.MonotoneInQuantile` | src/harness/report.py:623-630 | and is monotone in the quantile |
| `Percentile.AtIsRounded` | src/harness/report.py:624-625 | the one-sample case is no exception |
| `Percentile.PercentilesAreOrdered` | src/harness/report.py:610-620 | for any samples and any monotone rounding: least <= p50 <= p95 <= p99 <= greatest, as rounded |
| `Percentile.LinearBetweenNeighbours` | src/harness/report.py:623-630 | between two neighbouring samples the value lies on the straight line through them, at every quantile that falls there |
| `Percentile.DescribesTheSamples` | src/harness/report.py:610-620 | the distribution of any samples: their number, their mean, and the three percentiles of the same samples in ascending order |

## Left out

- SQL, transactions and row versions: `load`, the claiming UPDATE and the completing UPDATE are atomic actions with the guards their statements have (src/repositories/mutations.py, src/repositories/runs.py); the status columns of the agent run are not modelled.
- The fault-injection seam `after_adapter` is an invocation that stops between the call and the checkpoint; exceptions other than `Exception` in the adapter are the end of the process.
- Token expiry, deadlines and timeouts: the clock is an input.
- Fields that no decision depends on: version hashes, dialogue ids, signal ids and evidence text, action events, redaction, latency and usage columns of a report row.
- Rounding of rates to four decimals in the dialogue and evaluation reports: the ratios are exact, except where a gate compares rounded rates or a percentile is rounded; there the rounding is any function, order preserving where the result needs it.
- Floating point: percentiles and means are over reals.
- Exceptions of the model gateway other than its own error type, and of the trace recorders other than those the step handles, end the advance and are not told apart.
- Python's equality of `1`, `1.0` and `True`: JSON values of different types are different here.
- Entries of a schema's `required` list that are not strings: they count as missing arguments.
- The `last_observation` entry of the run state, which repeats the outcome of the last tool call and which no modelled decision reads.
- The rows of the run status table other than RUNNING_READONLY, and the journal that checks the order of pipeline stages.
- The OpenAI-compatible simulator client and the parsing of its replies: a provider is any function to an action or an error.
- The scan for hidden evaluation text in user messages is the exact containment of one string in another.
- Review rows carry the number of their observable turns instead of the turns; ids are strings; the digits of a scenario number are ASCII.
- Families, case ids and keys of the sampler's and the report's grouping are any type with equality; judge results under `case#attempt` and under `case` are two maps, which the pattern of case ids makes the same thing.
- SplitIsAPartition: assumes distinct seed ids, as the catalog loader numbers them (src/harness/catalog_loader.py:125); so do the other results about a built split.
- PassedWithinFirstWithinHard: assumes at least one repetition, which both runners enforce (src/harness/runner.py:72, src/harness/live_runner.py:66).
- RunsAreBounded: assumes that the tool registry files every specification under its own name and version, as its constructor does (src/tools/registry.py:13-17).
- ReviewSafety: every label is a human review label, as its type requires, so the list of labels from other sources is always empty.
- Judge dimension, safety, long-tail, retrieval and failure-reason statistics, dashboards and rendering: flat projections.
- HTTP routes, workers, subprocesses and command lines.
