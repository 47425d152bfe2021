# TxProof: a verified model

TxProof searches for bounded counterexamples in payment workflows. It compiles seeded failure
schedules, runs them against a disposable application and database, and shrinks a violating
schedule to a small one. This project models the parts of it that decide things, and proves what
they promise, for every specification, every random stream and every pattern of faults.

| modules | part of the system |
|---|---|
| `Decision` | the seeded decision engine |
| `Plan`, `PlanInvariant`, `PlanDistance`, `PlanLedger` | the payment workflow: its steps, its reachable states, distances to completion, conservation |
| `PlanHistory`, `PlanEnumeration` | the same workflow told from its history alone, and the number of eligible actions |
| `PlanCompiler`, `CompilerReach`, `PlanReplay` | the budget-guided random compiler and exactly what it can produce, the replay validator, greedy normalisation |
| `Trace`, `TraceSimulation`, `TraceBinding` | the second walk over the same actions, which binds dynamic inputs, and its simulation by the first |
| `Campaign`, `CaseExecution` | the journal-first serial executor, and its two entrances for compiled cases and shrink candidates |
| `ShrinkOrder`, `Shrink`, `Frontier`, `Generator` | simplification order, candidate checks, the unbounded frontier, the bounded candidate batch |
| `LegacyCutPoints` | exactly when the cut-point check can refuse what the legacy policy plans |
| `Search` | the cached accept/reject loop with budgets |
| `ShrinkSummary`, `SummaryReader`, `SummaryAgreement`, `LoadedEvidence` | the written summary, the loader that re-checks it, their agreement, and what a loaded trace is worth |
| `Catalog`, `BaselineAttestation`, `BaselineReset`, `BaselineSession` | resetting the case database under arbitrary statement failures, with recovery |
| `Wrappers`, `Sequences` | options, results and list lemmas |

How the outside world enters:

- The random generator is an arbitrary function `draw` from position and bound to a number.
- A candidate's identity hash is its source and schedule, that is, an injective hash.
- Attempts, deadlines and cancellation are arbitrary functions from a turn number to an outcome.
- Effects and journal appends answer from arbitrary functions; an append may fail before or after it is durable.
- Every database statement succeeds, fails without effect, or fails after its effect, as an arbitrary
  function of its number says. The catalog after each statement is kept as ghost history, so that a
  safety claim covers a process that stops at any point. Of sessions only their having been ended is kept;
  dropping a database, and moving the case aside, may only be asked for once they were.
- A `BTreeSet` of the source is a list in its order; `u8` counters are natural numbers together with
  proven bounds that rule out overflow and saturation.
- `recompiles` stands for the check that a stored plan is what its specification compiles to. It is
  assumed to hold only of valid sources; `Shrink.CompiledIsValidSource` and
  `PlanCompiler.CompilationIsDeterministic` are why that is so.

## Model

| member | source | states |
|---|---|---|
| Decision.DecisionEngine.Choose | crates/tiv-core/src/decision.rs:68-92 | The choice is drawn from the sorted, duplicate-free listing of what is eligible, with its true size; successes are numbered from 0 on; an empty set consumes no draw and no number |
| Decision.SortDedup | crates/tiv-core/src/decision.rs:73-75 | Sorting and deduplicating gives a strictly increasing list of exactly the given elements |
| Decision.ListingForgetsEnumeration | crates/tiv-core/src/decision.rs:68-92 | Two enumerations of one set, in any order and with any repetition, have one and the same listing, as long as the set |
| PlanInvariant.EligibleIffCanTake | crates/tiv-core/src/plan.rs:776-922 | The enumerated eligible actions are exactly those a declarative rule per phase allows, in any state and under both policies |
| PlanInvariant.ValidMeans | crates/tiv-core/src/plan.rs:419-435 | A specification is valid exactly with a normal outcome, at most 3 duplicates, at most one kill and delays of at most 5000 ms; a missing normal outcome is reported first |
| PlanHistory.EligibleIffMayFollow | crates/tiv-core/src/plan.rs:776-1008 | After any run, under either policy, an action is eligible exactly when the actions so far allow it, told without the state machine: by the last step, by what has been retried, forgotten, generated, delivered and dropped, and for a kill by the effect the last action produced (current policy) or by how far the workflow has come (legacy) |
| PlanHistory.FeasibleIffAdmissible | crates/tiv-core/src/plan.rs:1010-1177 | A schedule is a complete run exactly when each of its actions may follow those before it and the last one checks the checkpoint |
| PlanHistory.SupportsIsProduces | crates/tiv-core/src/plan.rs:924-985 | What the planner remembers of an action supports a cut point exactly when the action produces the effect the cut point names |
| PlanEnumeration.EligibleCounts | crates/tiv-core/src/plan.rs:776-922 | The enumeration repeats nothing, so its length is the number of actions that can be taken |
| PlanEnumeration.ReplayCounts | crates/tiv-core/src/plan.rs:1069-1093 | The counts of an accepted replay are the numbers of actions that could be taken before each action |
| PlanInvariant.EligibleApplies | crates/tiv-core/src/plan.rs:1010-1067 | In every reachable state each eligible action applies, without touching the checked arithmetic, and leads to a state of the invariant |
| PlanInvariant.RunKeepsInv | crates/tiv-core/src/plan.rs:709-770 | Every state reached by any run satisfies the invariant and keeps its policy |
| PlanInvariant.CountersStaySmall | crates/tiv-core/src/plan.rs:886-922 | At most 12 provider objects, 24 events, 2 retries, 1 kill: no `u8` operation can overflow or saturate |
| PlanInvariant.TwelveObjectsAreReached | crates/tiv-core/src/plan.rs:1114-1155 | The bound of 12 objects is exact: a run that creates 12 exists |
| PlanInvariant.StepLowersPotential | crates/tiv-core/src/plan.rs:1010-1067 | Every step under both policies lowers one positive measure, so the state graph is acyclic |
| PlanDistance.DistanceIsShortest | crates/tiv-core/src/plan.rs:1201-1222 | The closed-form distance is the length of a shortest completing run from every reachable state: one of that length exists and none is shorter |
| PlanDistance.AdvanceLosesOne | crates/tiv-core/src/plan.rs:1201-1222 | In every reachable state some eligible action brings completion one step nearer |
| PlanDistance.StepLosesAtMostOne | crates/tiv-core/src/plan.rs:1201-1222 | No action brings completion more than one step nearer |
| PlanDistance.DistanceCache.MinimumActions | crates/tiv-core/src/plan.rs:1201-1222 | The memoised search with its provisional `None` entries returns the exact distance from any reachable cache and leaves every settled entry exact, forgets none, and remembers the state asked for |
| PlanCompiler.ActionOrder | crates/tiv-core/src/plan.rs:217-250 | The derived order on actions is a strict total order, so a set of actions has one listing |
| PlanCompiler.KindsInOrder | crates/tiv-core/src/plan.rs:217-250 | Actions compare by kind in declaration order, whatever they carry |
| PlanCompiler.CallsInOrder | crates/tiv-core/src/plan.rs:217-250 | Calls of one kind compare by first outcome, then by the retry, none before any |
| PlanCompiler.FilterSafe | crates/tiv-core/src/plan.rs:665-675 | The filter keeps exactly the eligible actions from which completion still fits the remaining budget |
| PlanCompiler.DecideNext | crates/tiv-core/src/plan.rs:665-696 | One decision is always possible, keeps completion within budget and records the true number of safe choices |
| PlanCompiler.CompileWithScheduler | crates/tiv-core/src/plan.rs:646-706 | Compilation of a valid specification succeeds exactly when the budget is at least 6 (8 with stale events), whatever is drawn, and gives a complete run within the budget |
| PlanCompiler.RecordedCount | crates/tiv-core/src/plan.rs:689-696 | The recorded count is the number of distinct safe actions, between one and the number eligible |
| PlanCompiler.CompilationIsDeterministic | crates/tiv-core/src/plan.rs:564-586 | A specification, a policy and a random stream admit only one compiled case, which is what comparing with a recompilation relies on |
| CompilerReach.EveryScheduleIsCompiled | crates/tiv-core/src/plan.rs:646-706 | For every complete schedule within the budget there is a random stream that compiles to it |
| CompilerReach.CompilesExactlyTheFeasible | crates/tiv-core/src/plan.rs:646-706 | The schedules the compiler produces, over all random streams, are exactly the complete ones within the budget |
| PlanReplay.ValidateReplayActionKinds | crates/tiv-core/src/plan.rs:1069-1093 | Accepts exactly the complete runs of at most 40 actions, with the eligible count of each step, and names the right error otherwise |
| PlanReplay.CompiledPlanReplays | crates/tiv-core/src/plan.rs:1069-1093 | Every compiled case is accepted by the validator, with per-step counts no smaller than the recorded ones |
| PlanReplay.NormalizeReplayActionKinds | crates/tiv-core/src/plan.rs:1095-1112 | Greedy normalisation keeps something exactly when the greedy walk completes, and then keeps the walk's own indices |
| PlanReplay.RetainedRuns | crates/tiv-core/src/plan.rs:1095-1112 | The kept indices are strictly increasing and the kept actions run, without skipping, to where the greedy walk ends |
| PlanReplay.KeptExactlyWhenPossible | crates/tiv-core/src/plan.rs:1095-1112 | An action is kept exactly when it can be taken after what was kept before it |
| PlanReplay.NormalizationIsSound | crates/tiv-core/src/plan.rs:1095-1112 | The kept schedule is complete, is accepted by the validator within the 40-action cap, and normalising it again keeps all of it |
| PlanReplay.FeasibleIsFixed | crates/tiv-core/src/plan.rs:1095-1112 | A schedule that is already complete is left unchanged |
| PlanLedger.RunBalances | crates/tiv-core/src/plan.rs:1010-1177 | Along every run the tally of actions taken agrees with the counters of the state |
| PlanLedger.CompleteRunConserves | crates/tiv-core/src/plan.rs:1010-1177 | In a complete run events are objects times 1 (2 with stale events), deliveries plus drops are events, kills are restarts within the budget, releases are held scripts, and webhook faults stay within their budgets |
| PlanLedger.KillsAreRestarted | crates/tiv-core/src/plan.rs:776-786 | In a complete run every kill is followed at once by its restart, and every restart follows a kill |
| Trace.ReserveBusinessProviderOutputs | crates/tiv-core/src/trace.rs:1244-1270 | Reserves one object per committing outcome, the last of them active, and a gate when the script's last call is held back, as the binding rule says; `TraceBinding.DeclaredAre` and `TraceBinding.InputsAre` say what that amounts to |
| Trace.MaterializeCaseActions | crates/tiv-core/src/trace.rs:1140-1242 | The loop binds and declares what the step-by-step binding rule says, up to the first missing source |
| TraceBinding.DeclaredAre | crates/tiv-core/src/trace.rs:1140-1270 | Every action of a materialised list declares exactly one object per committed call of a business script, one event per generation and one gate per script whose last call is held back |
| TraceBinding.InputsAre | crates/tiv-core/src/trace.rs:1140-1270 | Lookups, confirmations and provider retries name the latest object declared before them, events the objects so far in rotation, a release the latest gate; nothing else has inputs |
| TraceBinding.FailsAtFirstMissing | crates/tiv-core/src/trace.rs:1140-1242 | Materialising fails exactly at the first action for which no object was declared, or no gate is pending, and the error names that action and input |
| TraceSimulation.RunSimulates | crates/tiv-core/src/trace.rs:1140-1242 | Every run of the planner materialises without a missing source; object count, held gate and event count agree with the planner's state |
| TraceSimulation.MaterializedIsSound | crates/tiv-core/src/trace.rs:1140-1242 | Compiled action `i` carries planned action `i`; every input names an output of the right type declared by a strictly earlier action; every output belongs to its action |
| TraceSimulation.CompleteTraceConsumesAll | crates/tiv-core/src/trace.rs:1176-1219 | In a complete trace the modulo assignment gives each object exactly 1 event (2 with stale events), and the released gates are the declared ones, in order |
| TraceSimulation.GatesAreDistinct | crates/tiv-core/src/trace.rs:1176-1242 | No gate is declared twice |
| TraceSimulation.EachGateIsReleasedOnce | crates/tiv-core/src/trace.rs:1176-1242 | In a complete trace exactly one action releases each declared gate, and it comes after the one that declared it |
| Campaign.Journal.Append | crates/tiv-runtime/src/campaign.rs:294-303 | An append adds one record or, only when it fails, none |
| Campaign.EffectAdapter.Execute | crates/tiv-runtime/src/campaign.rs:310-320 | An effect may journal observations of its own but no orchestrator record |
| Campaign.ResolveInputs | crates/tiv-runtime/src/campaign.rs:341-363 | Resolves exactly when every input of the action was captured, each with the first value captured under the output it is bound to, and otherwise names the first missing input |
| Campaign.ValidateCaptures | crates/tiv-runtime/src/campaign.rs:365-394 | Accepts exactly captures without duplicates, strangers, gaps or type mismatches, whatever the order or repetition of the expected list, and returns them in the order of references; a refusal names the first repeated reference, else the least stranger, else the least expected output that is missing or mistyped |
| Campaign.RunActions | crates/tiv-runtime/src/campaign.rs:277-339 | On every exit the orchestrator records are a prefix of intent 1, outcome 1, intent 2, …; no effect ran before its own intent was durable and every earlier outcome recorded; an outcome is recorded only of an effect that ran and whose captures pass validation; every input is a value an earlier effect returned under the output it is bound to; on success every captured value is what its own effect returned; a failure is that of the last append, effect or captures, never a missing input |
| Campaign.BindCaseCaptures | crates/tiv-core/src/trace.rs:1094-1132 | Binding accepts exactly the captures that answer the required outputs, returns one for each of them in the order of references, and refuses with the complaint `ValidateCaptures` would make |
| Campaign.MaterializedOutputsAscend | crates/tiv-core/src/trace.rs:1094-1105 | The required outputs of every materialised plan, listed action by action, strictly increase in the order of references, as do each action's own: taken as a set they are listed the same way |
| Campaign.ExecutableIsAligned | crates/tiv-core/src/trace.rs:958-1000 | A valid, complete, numbered plan of at most 40 actions materialises to a list that carries it action by action, with its outputs in strictly increasing order: what the executor starts from |
| Campaign.ExecuteCaseActions | crates/tiv-runtime/src/campaign.rs:219-275 | For such a plan nothing but an append, an effect, its captures or the final sync can fail: no source is missing, no input unresolved, and the final binding accepts and keeps every capture; on every exit the journal is a prefix of the ideal records, its outcomes follow validated captures only and inputs are what earlier effects returned; on success all records are written and every bound capture is what its own effect returned |
| CaseExecution.ExecutePlannedCase | crates/tiv-runtime/src/campaign.rs:149-180 | The same for every case that passes the recompilation check; anything else is refused before the journal exists or an effect runs |
| CaseExecution.ExecuteShrinkCandidate | crates/tiv-runtime/src/campaign.rs:188-217 | The same for every candidate that revalidates |
| ShrinkOrder.ComputeComplexity | crates/tiv-core/src/shrink.rs:768-823 | The saturating loop computes the exact complexity on any schedule within the action cap |
| ShrinkOrder.ComplexityFits | crates/tiv-core/src/shrink.rs:768-823 | Within the cap every component is far below the width it is stored in |
| ShrinkOrder.ComplexityMeans | crates/tiv-core/src/shrink.rs:768-823 | The components are the length, the number of faulty actions, the severity of all outcomes met, the number of calls, and the total delay |
| ShrinkOrder.LessMeans | crates/tiv-core/src/shrink.rs:90-97 | Complexities compare by the first component that differs |
| ShrinkOrder.SimplifiesMeans | crates/tiv-core/src/shrink.rs:606-675 | A kind simplifies to itself, a delay to a shorter one, a drop to a delivery, and a call to one whose outcomes are a prefix, or end normally instead, or are one normal outcome |
| ShrinkOrder.SimplificationIsPartialOrder | crates/tiv-core/src/shrink.rs:606-675 | Kind simplification is reflexive, antisymmetric and transitive |
| ShrinkOrder.SimplificationLowersWeight | crates/tiv-core/src/shrink.rs:606-675 | A proper simplification strictly lowers the weight of the action |
| ShrinkOrder.EmbeddingLowersComplexity | crates/tiv-core/src/shrink.rs:768-823 | Deleting and simplifying strictly lowers complexity unless nothing changed at all |
| ShrinkOrder.EmbeddingsCompose | crates/tiv-core/src/shrink.rs:548-565 | Simplifying a simplified schedule is simplifying the source |
| Shrink.CompiledIsValidSource | crates/tiv-core/src/shrink.rs:537-546 | Every case the compiler produces is a valid shrink source: complete, numbered, and within its own action budget |
| Shrink.ValidateLineage | crates/tiv-core/src/shrink.rs:548-565 | Accepts exactly strictly increasing source actions, each kept or simplified |
| Shrink.CurrentPolicySupportsCutPoints | crates/tiv-core/src/shrink.rs:724-756 | Under the current policy everything the planner accepts satisfies the shrinker's separately written cut-point rule |
| Shrink.SupportedObservation | crates/tiv-core/src/shrink.rs:724-756 | The shrinker's rule is the planner's, but that it takes any drive for the SQL probe |
| LegacyCutPoints.BreakTheRule | crates/tiv-core/src/plan.rs:977-1008 | Under the stated capabilities a complete legacy schedule breaks the cut-point rule, of the length the closed form gives |
| LegacyCutPoints.BreakingNeedsTheCapabilities | crates/tiv-core/src/shrink.rs:724-756 | Without them no legacy run breaks it, complete or not |
| LegacyCutPoints.LegacyBreaksTheRule | crates/tiv-core/src/shrink.rs:724-756 | For every valid specification: some replayable legacy schedule breaks the rule if and only if one kill is allowed and either a cut point other than the webhook ones is configured, or a webhook one and a webhook fault other than a duplicate can follow a delivery |
| LegacyCutPoints.BreakingIsLong | crates/tiv-core/src/plan.rs:1010-1177 | No complete legacy schedule that breaks the rule is shorter than the closed form: 8 actions (10 with stale events) at a cut point other than the webhook ones, else 10 to 16 by the cheapest fault the specification allows after a delivery |
| LegacyCutPoints.ShortestBreakIsExact | crates/tiv-core/src/shrink.rs:724-756 | Some schedule of at most `n` actions breaks the rule if and only if the capabilities are there and the closed form is at most `n` |
| LegacyCutPoints.CutPointErrorIsReachable | crates/tiv-core/src/shrink.rs:191-226 | `InvalidReferenceCutPoint` is reached from some valid source exactly for legacy sources with those capabilities whose action budget covers a shortest break |
| LegacyCutPoints.CompiledSourceIsRefused | crates/tiv-core/src/shrink.rs:191-226 | It is reached from a source some random stream compiles under the same condition, for every action budget |
| Shrink.MaterializeCandidate | crates/tiv-core/src/shrink.rs:191-226 | Checks lineage, replay, cut points and complexity in that order, and returns the renumbered actions with their eligible counts |
| Shrink.CandidatesAreNumbered | crates/tiv-core/src/shrink.rs:567-585 | A checked candidate is numbered afresh, each action depends on the one before, and the eligible counts are those a replay finds |
| Shrink.OnlyTheSourceDoesNotSimplify | crates/tiv-core/src/shrink.rs:215-217 | Within the lineage only the unchanged source schedule is refused as not simpler |
| Shrink.DerivedDescends | crates/tiv-core/src/shrink.rs:677-722 | Deletions and simplifications of a candidate stay in the source's lineage |
| Shrink.FeasibleProposalsMaterialize | crates/tiv-core/src/shrink.rs:501-534 | A completable proposal normalises to something strictly simpler than the current schedule and materialises, unless it breaks the cut-point rule, which no current source does |
| Frontier.ChunkSizesReachOne | crates/tiv-core/src/shrink.rs:587-604 | Chunk sizes start at half the schedule and halve on, always rounded up, down to single actions |
| Frontier.HierarchicalChunkSizes | crates/tiv-core/src/shrink.rs:587-604 | The loop computes that list |
| Frontier.ProposalsAreDerived | crates/tiv-core/src/shrink.rs:370-499 | Every proposal is a proper deletion or simplification of the current schedule |
| Frontier.SingleDeletionsAreProposed | crates/tiv-core/src/shrink.rs:370-390 | Every single-action deletion is among the proposals |
| Frontier.ProposalsAre | crates/tiv-core/src/shrink.rs:370-499 | Proposed are exactly the deletions of one chunk of one of those sizes, of one kill together with its restart, and the replacements of one action by any proper simplification, a delay by none |
| Frontier.ProposalsInOrder | crates/tiv-core/src/shrink.rs:370-499 | Chunks come first, coarse before fine and the left half before all; what follows touches at most a kill and its restart |
| Frontier.EmitIsGenuine | crates/tiv-core/src/shrink.rs:501-534 | The unbounded frontier has no duplicate and is exactly the candidates some proposal yields |
| Frontier.FrontierIsEveryFeasibleProposal | crates/tiv-core/src/shrink.rs:501-534 | A proposal yields a candidate exactly when it completes and keeps the cut-point rule; the other guards reject nothing |
| Generator.CandidateSink.Push | crates/tiv-core/src/shrink.rs:501-534 | Collected candidates are always the first ones of what the proposals so far emit, up to the target |
| Generator.CandidateBatch | crates/tiv-core/src/shrink.rs:340-499 | The bounded batch is the first `limit` members of the unbounded frontier, truncated exactly when there are more |
| Generator.RevalidateCandidate | crates/tiv-core/src/shrink.rs:234-245 | A candidate passes exactly when its source recompiles and its schedule materialises to itself |
| Generator.FrontierRevalidates | crates/tiv-core/src/shrink.rs:191-245 | Every frontier member revalidates against the source and is simpler than the current schedule |
| CaseExecution.CandidatesAreExecutable | crates/tiv-core/src/shrink.rs:191-226 | A checked candidate is a valid, complete, numbered plan within the cap, as the executor needs |
| Search.ResultForgetsOrder | crates/tiv-runtime/src/configured_replay.rs:1347-1365 | An attempt's result depends on which invariants were violated, not on the order they were checked in |
| Search.ResultMeans | crates/tiv-runtime/src/configured_replay.rs:1347-1365 | An attempt reproduces the expected failure exactly when that invariant was violated, whatever else was; otherwise the least violation counts, and without any it held |
| Search.MatchingCounts | crates/tiv-runtime/src/configured_shrink.rs:800-807 | The matching count is the number of attempts in which the expected invariant was violated |
| Search.EvaluateCandidate | crates/tiv-runtime/src/configured_shrink.rs:647-767 | A candidate is evaluated exactly when three attempts complete with one trace, accepted exactly when at least two reproduce the failure; it expires or fails exactly by its first attempt that does not; it is accepted exactly when at least two of its three attempts violated the expected invariant |
| Search.CachedIsRejected | crates/tiv-runtime/src/configured_shrink.rs:467-474 | A cached member of the current frontier was rejected: an accepted one never comes back |
| Search.SearchBatch | crates/tiv-runtime/src/configured_shrink.rs:464-522 | A pass evaluates the candidates in order, each with budget left; one that accepts nothing evaluated and rejected the whole batch; it stops early only with a candidate waiting that is out of budget, or whose evaluation, with budget left, goes wrong |
| Search.RunSearch | crates/tiv-runtime/src/configured_shrink.rs:451-530 | No schedule is evaluated twice, at most `limit` are, each the next waiting candidate of its moment with budget left; accepted complexities strictly decrease; generation never fails; evaluation fails only on a waiting candidate within budget; a finished search reports `Complete` exactly when the whole untruncated frontier of the best schedule was evaluated and rejected, and otherwise a waiting candidate was out of budget or the frontier was truncated |
| Search.SingleStepsWereRejected | crates/tiv-runtime/src/configured_shrink.rs:451-530 | After `Complete`, no single step helps: deleting any one action, deleting a kill with its restart, simplifying any action in place and deleting any chunk was evaluated and rejected, unless it cannot be completed (or, for a legacy source, breaks the cut-point rule) |
| ShrinkSummary.EvaluateOriginal | crates/tiv-runtime/src/configured_shrink.rs:550-644 | The original attempts complete exactly when all three reproduce the recorded trace, expire exactly when the first that does not ran out of budget, and fail exactly when it errs or diverges |
| ShrinkSummary.FilesAreKept | crates/tiv-runtime/src/configured_shrink.rs:660-767 | No candidate's evidence overwrites another's |
| ShrinkSummary.WrittenReadsBack | crates/tiv-runtime/src/configured_shrink.rs:660-767 | Reading back what is written of an evaluation or of the originals gives the executions again |
| SummaryReader.ValidateAttemptDocument | crates/tiv-runtime/src/configured_minimized_replay.rs:583-655 | Accepts exactly evidence whose declared verdict is the one its five distinct invariant outcomes give, and returns that result |
| SummaryReader.DistinctBaselines | crates/tiv-runtime/src/configured_minimized_replay.rs:666-680 | Counting sets says exactly that the three attempts ran on pairwise different databases and markers |
| SummaryReader.ValidateCandidateEvidence | crates/tiv-runtime/src/configured_minimized_replay.rs:515-581 | Accepts exactly evaluations whose candidate, traces, count and flag agree with the stored evidence |
| SummaryReader.ValidateOriginalAttempts | crates/tiv-runtime/src/configured_minimized_replay.rs:482-513 | Accepts exactly coherent original attempts and returns their results |
| SummaryReader.ValidateCandidates | crates/tiv-runtime/src/configured_minimized_replay.rs:454-479 | Accepts exactly a list of distinct, coherent candidates one of which is the minimised trace's, and accepted |
| SummaryReader.LoadMinimizedSource | crates/tiv-runtime/src/configured_minimized_replay.rs:323-480 | Yields the minimised trace exactly for a coherent artifact |
| LoadedEvidence.CoherentMeans | crates/tiv-runtime/src/configured_minimized_replay.rs:583-655 | An attempt is accepted exactly when it ran on a fresh database, was journalled, names five invariants once with witnesses where violated, and its verdict is the expected violation if there, else the least, else held |
| LoadedEvidence.LoadedTraceIsReproduced | crates/tiv-runtime/src/configured_minimized_replay.rs:323-581 | Whatever the loader accepts is a checked candidate of a recompiling source whose own three attempts, on three databases and all with this trace, violated the expected invariant at least twice; every number of the summary is the one the stored files give |
| SummaryAgreement.WrittenCountIsRecounted | crates/tiv-runtime/src/configured_minimized_replay.rs:657-664 | The loader recomputes from the documents the count the writer computed from the executions |
| SummaryAgreement.WrittenCandidateIsCoherent | crates/tiv-runtime/src/configured_shrink.rs:748-766 | Every written evaluation passes the loader's evidence checks |
| SummaryAgreement.WrittenIsReadable | crates/tiv-runtime/src/configured_shrink.rs:912-955 | The artifact of a finished search is accepted by the loader exactly when a candidate was accepted |
| SummaryAgreement.ConclusiveMeans | crates/tiv-runtime/src/configured_shrink.rs:550-644 | The originals are conclusive exactly when all three repeat the recorded trace and two violate the expected invariant |
| SummaryAgreement.RunShrink | crates/tiv-runtime/src/configured_shrink.rs:380-547 | The same for a whole run: what is written is the summary of the completed original attempts and of the search's final state, and is readable exactly when something was accepted; it is inconclusive exactly when fewer than two of three faithful original attempts reproduce the failure; nothing is written only when an original attempt errs or diverges, or the originals were conclusive and a waiting candidate's evaluation, with budget left, did |
| Catalog.Server.Rename | crates/tiv-runtime/src/baseline.rs:1222-1229 | A rename moves one database, unless it fails without effect or the new name is taken |
| Catalog.Server.Drop | crates/tiv-runtime/src/baseline.rs:1438-1451 | A database is dropped only with its sessions ended, under the three fates of a statement |
| Catalog.Server.CreateFrom | crates/tiv-runtime/src/baseline.rs:1230-1237 | A copy gets a fresh identifier and the template's contents |
| BaselineAttestation.ObserveCaseIdentity | crates/tiv-runtime/src/baseline.rs:574-682 | Reports the identity of an attestable case, changing nothing; otherwise the first thing wrong: missing, foreign owner, closed, wrong marker, or a failed statement |
| BaselineAttestation.DropDatabaseExact | crates/tiv-runtime/src/baseline.rs:1438-1451 | Drops nothing but the one database with the expected identity; says what each fate of the drop statement does |
| BaselineAttestation.CreateFromTemplate | crates/tiv-runtime/src/baseline.rs:1376-1415 | Creates a copy under an attestation name only; failing, it touches no other database, and leaves no copy unless it says so |
| BaselineAttestation.ObserveSealedBaseline | crates/tiv-runtime/src/baseline.rs:884-894 | Success means the baseline is sealed with agreeing inner and outer markers and that no copy was left behind; the baseline is never opened or changed; when no statement fails the result is the first thing wrong, and no copy is left either way |
| BaselineReset.PrepareCaseReplacement | crates/tiv-runtime/src/baseline.rs:1193-1249 | Before the fence nothing changes; after it the original is under its own or the backup name at every statement, closed from the fence on, with its sessions ended before it is moved; without faults it fails only for a taken backup name, and says so |
| BaselineReset.RestoreOriginalCase | crates/tiv-runtime/src/baseline.rs:1308-1369 | From any phase: never endangers the original, reports success only when it is back exactly, succeeds if its own statements do, and touches nothing once the backup is gone; success means every one of its statements succeeded, the final attestation included |
| BaselineReset.FailCaseReset | crates/tiv-runtime/src/baseline.rs:1293-1306 | After a failure the original is restored or the failure says it was not; a finished commit is left alone |
| BaselineReset.Advance | crates/tiv-runtime/src/baseline.rs:1055-1168 | The replacement takes over only with the expected baseline, and exactly when the drop takes effect; without faults the reset succeeds exactly when the names are free and the baseline is the expected one |
| BaselineReset.ResetVerifiedCase | crates/tiv-runtime/src/baseline.rs:1055-1168 | Under any faults the original survives at every statement until the attested replacement has taken over, and the baseline never changes; if recovery's own statements succeed, a failure restores the original exactly unless the drop of the backup failed after its effect, or succeeded and closing its session failed; from the fence to recovery the original is closed at every statement, and never open beside a replacement |
| BaselineReset.LoseTheDrop | crates/tiv-runtime/src/baseline.rs:1438-1451 | Both exceptions are real: with that one statement failing and all others succeeding, the replacement has taken over and recovery still reports failure |
| BaselineSession.VerifyAndReset | crates/tiv-runtime/src/baseline.rs:166-205 | Resets only a case and a baseline that still have their recorded identities; at every statement the original survives until the attested replacement has taken over; also when recovery failed, the original is there under one of its two names or the replacement is |
| BaselineSession.Services.Start | crates/tiv-runtime/src/baseline.rs:1536-1549 | Can be called only over the untouched case, the exact original or the attested replacement, and records when it was |
| BaselineSession.ResetCase | crates/tiv-runtime/src/baseline.rs:166-222 | The same, around the services: they are stopped before the first statement, started exactly once unless recovery failed, and the catalog is final by then, so it changes only while they are stopped; success means stopped, reset, started; without faults the reset succeeds exactly when container, case and baseline are still the attested ones |

## Left out

- Seeds, ChaCha20 and BLAKE3: draws are an arbitrary function and identities are injective.
- Schema, algorithm, adapter and API version checks, and JSON encodings: values are taken as already decoded and of the supported version.
- Captured values in stored traces: a trace's captures other than gates are one abstract value, so that comparing two traces against a replay authority is comparing these values.
- The multi-case planner with its case seeds, which only repeats the single-case compiler.
- `apply_action` and its helpers edit a copy of the state; here they are functions on values.
- Role, privilege, size and container queries of the reset: they are statements that may fail. Service containers are abstract start and stop steps.
- The first sealing of a baseline (`seal_and_reset_prove`): its only distinct decision is that the baseline must be absent.
- Resetting is modelled with no other client of the server: another administrator could rename databases between two statements.
- The journal's file format and size limits, and the observations effects write beyond their number.
- Wall-clock time, cancellation and task scheduling: arbitrary booleans and outcomes.
- The loader's error values: refusing is one outcome, whichever check refused. Run, case and digest spellings are not modelled.
- `Search.RunSearch`: says nothing of the number of cache hits, which is reported but decides nothing.
- `SummaryReader.ValidateAttemptDocument`: does not check the spelling of marker identifiers and digests or the schema version, because documents are taken as already decoded.
- `SummaryAgreement.RunShrink`: assumes of each completed attempt what the runtime supplies, which is distinct non-zero database identifiers and markers, a non-empty journal and five distinct invariant outcomes, violated exactly when they have witnesses.
- Command line, configuration files, HTTP and process handling, artifact directories and reports.
