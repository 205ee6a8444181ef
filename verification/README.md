# Models of the AEGIS campaign drivers and evidence checkers

AEGIS runs bounded security campaigns: a script drives a language model, brokers, disposable
workers, ledgers and an independent verifier through a fixed protocol, writes a record of what
happened, and a separate verdict function judges the record. This project models those scripts in
Dafny and proves what their verdicts and their evidence formats mean.

The environment (model answers, verifier, broker, workers, clocks, random ids) is an arbitrary
value: every theorem about a run holds whatever the environment answers. The classes model what the
scripts update in place (the campaign budget, the job queue, the two ledgers, the controller, the
run of the loop, the audit store). Their methods are proved against functions on values, and the
theorems are about those functions.

| Files | What they model |
|---|---|
| `ProviderUsage`, `CampaignBudget`, `UsageReconciliation` | three-valued usage arithmetic, the fail-closed budget over whole runs, the offline reconciliation |
| `Trails`, `AgentQueue`, `QueueEffects`, `RemediationLedger`, `ChainLedger` | the durable queue and ledgers with their state machines and transition trails |
| `RemediationController`, `RemediationAtomicity`, `RemediationEffects` | the controller that owns remediation decisions, when its operations are all or nothing, and the whole ledger each of them leaves |
| `ModelStep`, `RetestEvidence`, `AdaptiveRetest`, `RetestDriver`, `RetestTheorems`, `RetestExits`, `RetestChecks`, `RetestExample` | the adaptive-retest loop of phase 2.3 against any environment, its verdict, what every exit and every check means, and a run that passes |
| `AdversaryCampaign`, `AdversaryVerdict`, `AdversaryExample` | the two-arm campaign of phase 2.2 over one queue and one budget, its verdict, and a campaign that passes |
| `ChainArm`, `ChainVerdict` | the multi-primitive chain campaign of phase 2.0 and its verdict |
| `LoginProbe`, `AuthenticationVerdict` | the bounded login probe of phase 2.1 and the worker part of its verdict |
| `RejectionClassifier`, `FailureMatrix` | the two scripts that classify fail-closed rejections, and their agreement |
| `EvidenceManifest`, `AuditTrail`, `CommandLinkage`, `CounterBlocks`, `BoundedBody` | the checksum manifest, the hash-chained audit trail, the command linkage check, the counter discipline and the bounded reader |
| `Wrappers`, `Digests` | options, results, permutations, substrings, and the shape of a hex digest |

The verdict theorems are equivalences: `RetestTheorems.VerdictPassesIff`,
`AdversaryVerdict.VerdictPassesIff`, `ChainVerdict.VerdictPassesIff` and
`AuthenticationVerdict.RunPassesIff` say for every run exactly
which answers make the verdict pass, and the `Passing...` lemmas say what such a run has left behind.
Beside each stands the same equivalence for arbitrary records, whatever wrote them
(`RetestTheorems.RecordPassesIff`, `AdversaryVerdict.RecordsPassIff`, `ChainVerdict.RecordsPassIff`,
`AuthenticationVerdict.EvidencePassesIff`), and what each single check says (the `...ChecksMean` lemmas).
These are stated in the fields of the records and in the literal names, states and limits of the
repository, not in the predicates the verdicts are made of.

## Where the code does not do what it is documented to do

The model follows the code. These places differ from what the repository's text promises or what a
reader would expect. Each has its exact condition, and an input where it shows:

- The budget gate reserves only the output ceiling of a call, not its input, so an admitted call can
  end above the token budget (`CampaignBudget.BreachingRun`). `CampaignBudget.GatePromiseHoldsIff` says
  exactly when none can; a limit of one call does not help if calls do not report themselves
  (`CampaignBudget.CountedGatePromiseHoldsIff`).
- Early exits of the phase 2.3 loop leave their jobs CLAIMED, and a budget stop leaves the ledger loop
  in whatever state it had reached (`RetestTheorems.WhatExitsLeave`).
- Controller operations are sequences of transactions, so a failing one is not always all or nothing.
  A second application of a patch is refused only after its receipt was persisted, and a retest that
  does not begin may have spent its receipt. `ConfirmIff`, `AuthorizeIff`, `ApplyIff` and `BeginIff` of
  `RemediationAtomicity` say exactly when an operation succeeds and when a failing one leaves the
  ledger as it was; `RemediationAtomicity.SecondApplicationIsReachable` is a run that gets there.
- BLOCKED_BY_PATCH is reported for every patched arm whose plans were accepted, even if the verifier
  confirms the weakness; only the verdict looks at the verifier (`ChainArm.BlockedByPatchIff`).
- The totals of a passing phase 2.0 campaign may omit its explanation call
  (`ChainVerdict.LostExplanationStillPasses`, `ChainVerdict.SixOfSevenPass`).
- Two of the listed rejection categories cannot occur
  (`RejectionClassifier.EvidenceFailuresAreShortfalls`).
- The audit check re-computes digests but does not follow the chain (`AuditTrail.SelectionIsAccepted`).
  The event encoding stands for one event exactly if none of its fields holds a newline
  (`AuditTrail.UnambiguousIff`), and one run's events form a chain exactly if no other run's event lies
  between them (`AuditTrail.RunIsChainIff`, and `AuditTrail.RunTrailNeedNotBeLinked` where one does).
- The linkage check does not test that command ids differ. Parents lead back through the whole run
  exactly if they do (`CommandLinkage.AcceptedIsOneHistoryIff`), and an accepted run in which they do
  not is `CommandLinkage.RepeatedIdIsAccepted`.
- A manifest name with a line break is read back as its first line only, and a name's trailing white
  space is lost. `EvidenceManifest.RoundTripIff` says for any names when the manifest is still
  accepted; `EvidenceManifest.BrokenNameIsRejected` gives names with which it is not.
- The usage reconciliation is unsound for call figures that cancel out
  (`UsageReconciliation.NegativeCallsHideUsage`), exactly as `UsageReconciliation.CheckIsSoundIff` says,
  and it fails a bound that is none (`UsageReconciliation.FalseBound`). `UsageReconciliation.CheckAgreesIff`
  says for all figures and bounds when check and meaning agree.
- The final assertion on execution counts lets lost counts hide executions
  (`CounterBlocks.LostCountHidesExecution`); it holds exactly if the gaps cancel
  (`CounterBlocks.FinalAssertionIffGapsCancel`).
- The login worker ignores the profile's stop condition on an authenticated invalid credential
  (`LoginProbe.WorkerGoesOn`). `LoginProbe.StopConditionMattersIff` says exactly in which runs it makes a
  difference, and `AuthenticationVerdict.PassingRunNeverStops` that no passing run is among them. The
  worker checks ignore the order of the attempts (`AuthenticationVerdict.OrderIsNotChecked`).
- The bounded reader returns an empty body under a negative limit if there are no chunks
  (`BoundedBody.Read`).

To check everything: `dafny verify dfyconfig.toml`.

## Model

| member | source | states |
|---|---|---|
| ProviderUsage.CombinedTokens | scripts/phase_2_3_live_adaptive_retest.py:1166-1179 | the accumulation loop with its early return gives exactly the order-free meaning: NOT_EVALUATED if any figure is neither an integer nor UNKNOWN, else UNKNOWN if any is, else the sum |
| ProviderUsage.TotalOfConcat | scripts/phase_2_3_live_adaptive_retest.py:1166-1179 | the fold distributes over concatenation in spite of the early return |
| ProviderUsage.JoinLaws | scripts/phase_2_3_live_adaptive_retest.py:1166-1179 | totals of totals form a commutative monoid whose unit is the empty fold |
| ProviderUsage.TotalIsOrderFree | scripts/phase_2_3_live_adaptive_retest.py:1166-1179 | the fold is invariant under every permutation of the calls |
| ProviderUsage.SumIsOrderFree | scripts/phase_2_3_live_adaptive_retest.py:1170-1172 | so is the sum of the known figures |
| ProviderUsage.WithinCeilingHoldsIff | scripts/phase_2_3_live_adaptive_retest.py:1388-1395 | the token check is True exactly if some call ran, every usage is an exact integer and the sum fits: unknown usage never reads as "within" |
| ProviderUsage.WithinCeilingElse | scripts/phase_2_3_live_adaptive_retest.py:1388-1395 | exactly when it is False, UNKNOWN or not evaluated |
| ProviderUsage.CallTotalOfConcat | scripts/phase_2_3_live_adaptive_retest.py:1385 | the call total adds up over groups of calls, and raises if it does in one of them |
| ProviderUsage.CallTotalMeans | scripts/phase_2_3_live_adaptive_retest.py:1385 | it raises exactly on UNKNOWN and on what is no number, and otherwise adds the integers and one for every true |
| CampaignBudget.Budget.constructor | scripts/phase_2_3_live_adaptive_retest.py:128-133 | a new budget has its limits and nothing consumed |
| CampaignBudget.Budget.CanStart | scripts/phase_2_3_live_adaptive_retest.py:135-143 | the gate answers as the account says and changes nothing |
| CampaignBudget.Budget.Record | scripts/phase_2_3_live_adaptive_retest.py:145-149 | only plain integers are counted; booleans and markers leave the counters alone |
| CampaignBudget.GateMeans | scripts/phase_2_3_live_adaptive_retest.py:135-143 | which of its three answers the gate gives, in calls and tokens left |
| CampaignBudget.DriveIsExact | scripts/phase_2_3_live_adaptive_retest.py:135-149 | over every gated run the tracker is exact, and a run stops short only at a refusing gate |
| CampaignBudget.TokensBoundedByLastCall | scripts/phase_2_3_live_adaptive_retest.py:135-149 | tokens after any gated run are at most the budget less the reserved ceiling plus the last admitted call's usage |
| CampaignBudget.TokensWithinBudget | scripts/phase_2_3_live_adaptive_retest.py:135-149 | if every call stays within the reserved ceiling no gated run exceeds the token budget |
| CampaignBudget.CallsWithinBudget | scripts/phase_2_3_live_adaptive_retest.py:135-149 | calls never exceed the call budget if each admitted call records at most one |
| CampaignBudget.GatePromiseHoldsIff | scripts/phase_2_2_live_adversary_simulation.py:112-140 | for any limits: the documented promise that no call is started that could breach the ceiling holds for calls of a given usage exactly if no call is ever started or the whole usage, input included, fits the reserved output ceiling |
| CampaignBudget.CountedGatePromiseHoldsIff | scripts/phase_2_2_live_adversary_simulation.py:112-140 | the same where every call reports itself: then a budget of one call need only fit it into the whole token budget |
| CampaignBudget.BreachingRun | scripts/phase_2_2_live_adversary_simulation.py:128-134 | an admitted run of two calls that ends above the budget, whenever one call may use more than is reserved and a second one is admitted |
| AgentQueue.AddressRoundTrip | src/aegis/multi_agent/adversary_simulation.py:726-735 | job addresses parse back to their role and id, and only formatted addresses parse |
| AgentQueue.AddressOfJob | src/aegis/multi_agent/adversary_simulation.py:726-735 | a job's own address resolves to the job and its last segment is its id |
| AgentQueue.TaskQueue.EnqueueJob | src/aegis/multi_agent/adversary_simulation.py:807-830 | inserts a QUEUED job with its transition row, or refuses a taken id and changes nothing |
| AgentQueue.TaskQueue.ResolveJob | src/aegis/multi_agent/adversary_simulation.py:839-844 | finds the job an address names, or fails on malformed and misrouted addresses |
| AgentQueue.TaskQueue.ClaimJob | src/aegis/multi_agent/adversary_simulation.py:846-847 | moves QUEUED to CLAIMED and nothing else |
| AgentQueue.TaskQueue.CloseJob | src/aegis/multi_agent/adversary_simulation.py:849-850 | moves CLAIMED to CLOSED and nothing else |
| AgentQueue.TaskQueue.MoveJob | src/aegis/multi_agent/adversary_simulation.py:852-871 | a transition needs a parsed address, the right role and the expected status; every failure leaves the tables alone |
| AgentQueue.TaskQueue.Persist | src/aegis/multi_agent/adversary_simulation.py:889-920 | a delegation is stored once, under a LEAD producer that exists |
| AgentQueue.TakeJob | scripts/phase_2_3_live_adaptive_retest.py:723-729 | enqueue, claim and resolve by address, as the drivers do, leaves the job CLAIMED |
| AgentQueue.FinishJob | scripts/phase_2_3_live_adaptive_retest.py:812-813 | closing by address leaves the job CLOSED |
| AgentQueue.LifecycleOverEveryRun | src/aegis/multi_agent/adversary_simulation.py:748-963 | whatever is requested in whatever order, every job's trail is a prefix of QUEUED, CLAIMED, CLOSED that ends in its status, and every delegation has its lead producer |
| AgentQueue.TakenKeepsConsistent | src/aegis/multi_agent/adversary_simulation.py:807-850 | taking a job keeps that invariant |
| AgentQueue.FinishedKeepsConsistent | src/aegis/multi_agent/adversary_simulation.py:849-871 | so does closing it |
| AgentQueue.NotesAreGood | scripts/phase_2_3_live_adaptive_retest.py:1204-1217 | the job entry a driver writes always passes the verdict's job check, closed or not |
| QueueEffects.AddressNames | src/aegis/multi_agent/adversary_simulation.py:726-735 | an address names a job exactly if it is the literal prefix of a role followed by an id |
| QueueEffects.EnqueueDoes | src/aegis/multi_agent/adversary_simulation.py:807-830 | the whole tables after enqueueing, or the refusal of a taken id |
| QueueEffects.ResolveDoes | src/aegis/multi_agent/adversary_simulation.py:839-844 | what resolving a well-formed address answers: nothing, the job, or a routing mismatch |
| QueueEffects.MoveDoes | src/aegis/multi_agent/adversary_simulation.py:852-871 | what moving a job by address writes, and each of its three errors |
| QueueEffects.MalformedAddress | src/aegis/multi_agent/adversary_simulation.py:726-735 | every other address is invalid |
| QueueEffects.PersistDoes | src/aegis/multi_agent/adversary_simulation.py:889-920 | what persisting a delegation writes, and both errors |
| QueueEffects.ResolveDelegationDoes | src/aegis/multi_agent/adversary_simulation.py:929-934 | what resolving a delegation address answers |
| QueueEffects.LinkedIff | src/aegis/multi_agent/adversary_simulation.py:936-954 | the hand-off is linked exactly if delegation, lead and recon job name each other |
| RemediationLedger.HappyPathForced | src/aegis/multi_agent/remediation.py:86-150 | a legal path of states that does not end in a fallback is the one happy path to its last state |
| RemediationLedger.Ledger.Open | src/aegis/multi_agent/remediation.py:488-513 | opens a loop in its first state, or refuses a taken id |
| RemediationLedger.Ledger.Transition | src/aegis/multi_agent/remediation.py:524-537 | moves a loop along a legal edge and logs it; an illegal edge changes nothing |
| RemediationLedger.Ledger.SaveFinding | src/aegis/multi_agent/remediation.py:553-563 | a finding is stored once |
| RemediationLedger.Ledger.SaveAuthorization | src/aegis/multi_agent/remediation.py:574-596 | an authorization is stored once and only for a finding of its own loop |
| RemediationLedger.Ledger.SaveReceipt | src/aegis/multi_agent/remediation.py:608-636 | a receipt is stored once, unconsumed, and only under its authorization |
| RemediationLedger.Ledger.Consume | src/aegis/multi_agent/remediation.py:656-674 | a receipt is consumed once; the second attempt fails closed |
| RemediationLedger.Ledger.Bind | src/aegis/multi_agent/remediation.py:686-698 | a retest job is bound once |
| RemediationLedger.OpenKeepsTrails | src/aegis/multi_agent/remediation.py:488-513 | opening a loop keeps every trail legal |
| RemediationLedger.TransitionKeepsTrails | src/aegis/multi_agent/remediation.py:524-537 | so does every transition |
| RemediationLedger.PassedLoopWentTheWholeWay | src/aegis/multi_agent/remediation.py:86-150 | in a legal ledger a loop outside the fallback states went through every happy-path state once, in order |
| RemediationController.Controller.ConfirmInitialFinding | src/aegis/multi_agent/remediation.py:753-764 | persist, then INITIAL_CONFIRMED; a failing second transaction leaves the first in place |
| RemediationController.Controller.RecordRecommendation | src/aegis/multi_agent/remediation.py:766-780 | records the model's recommendation without looking at it |
| RemediationController.Controller.AuthorizeRemediation | src/aegis/multi_agent/remediation.py:782-832 | only the registered profile, in scope, for a persisted finding gets a ten-minute lease |
| RemediationController.Controller.ApplyRemediation | src/aegis/multi_agent/remediation.py:834-906 | a receipt is minted only inside the lease and for a real vulnerable-to-patched mutation with a rotated sentinel |
| RemediationController.Controller.BeginRetest | src/aegis/multi_agent/remediation.py:908-929 | consumes the receipt, binds the retest job, starts the retest |
| RemediationController.Controller.ConcludeRetest | src/aegis/multi_agent/remediation.py:931-967 | RETEST_PASS exactly on a PASS with the whole causal proof, RETEST_FAIL otherwise |
| RemediationController.StepSafe | src/aegis/multi_agent/remediation.py:735-1000 | every operation, however it ends, keeps the ledger safe, keeps every record and never takes a consumed mark back |
| RemediationController.SafeOverEveryRun | src/aegis/multi_agent/remediation.py:735-1000 | over every run of operations, failed ones included: no retest runs without a spent receipt of its own loop and no loop passes without a proven break |
| RemediationController.RetainedOverEveryRun | src/aegis/multi_agent/remediation.py:735-1000 | findings and receipts are kept over every run, and a spent receipt stays spent |
| RemediationController.SpentForEver | src/aegis/multi_agent/remediation.py:656-674 | once spent, a receipt is refused for ever, by consumption and by a new retest |
| RemediationController.RecommendationsDoNotMatter | src/aegis/multi_agent/remediation.py:766-780 | runs that differ only in what the model recommended end in the same ledger |
| RemediationAtomicity.ConfirmIff | src/aegis/multi_agent/remediation.py:753-764 | confirming succeeds exactly for a new finding of a loop that waits for one; failing, it changes nothing exactly if the finding was on file already |
| RemediationAtomicity.AuthorizeIff | src/aegis/multi_agent/remediation.py:782-832 | authorizing succeeds exactly if the lease fits and the loop is in REMEDIATION_RECOMMENDED; failing, it changes nothing exactly if the lease does not fit |
| RemediationAtomicity.ApplyIff | src/aegis/multi_agent/remediation.py:834-906 | applying succeeds exactly if the receipt fits and the loop is PATCH_AUTHORIZED; failing, it changes nothing exactly if the receipt does not fit |
| RemediationAtomicity.BeginIff | src/aegis/multi_agent/remediation.py:908-929 | a retest begins exactly if its receipt is usable, its job unbound and the loop RETEST_QUEUED; failing, it changes nothing exactly if the receipt is not usable, and otherwise the receipt is spent |
| RemediationAtomicity.SingleTransactionsAreAtomic | src/aegis/multi_agent/remediation.py:766-967 | recommending and concluding succeed exactly in their state and leave nothing when they fail |
| RemediationAtomicity.SecondApplyLeavesAReceipt | src/aegis/multi_agent/remediation.py:834-906 | a fitting receipt for a loop in any state but PATCH_AUTHORIZED is refused and exactly that receipt is left behind, unspent |
| RemediationAtomicity.SecondApplicationIsReachable | src/aegis/multi_agent/remediation.py:735-906 | from the empty ledger, six operations get there: the second application is refused, the loop stays RETEST_QUEUED and owns a second unspent receipt |
| RemediationEffects.TransitionDoes | src/aegis/multi_agent/remediation.py:86-150 | which of all state pairs are legal moves, and the whole ledger a move or a refusal leaves |
| RemediationEffects.OpenDoes | src/aegis/multi_agent/remediation.py:488-513 | the whole ledger after opening, or the refusal of a taken id |
| RemediationEffects.ConfirmDoes | src/aegis/multi_agent/remediation.py:753-764 | the whole ledger and the error confirming leaves, succeeding or failing |
| RemediationEffects.RecommendDoes | src/aegis/multi_agent/remediation.py:766-780 | the same for recording a recommendation |
| RemediationEffects.AuthorizeDoes | src/aegis/multi_agent/remediation.py:782-832 | the lease granted: own ids, from now for ten minutes; and the whole ledger and the error otherwise |
| RemediationEffects.ApplyDoes | src/aegis/multi_agent/remediation.py:834-906 | the receipt stored and returned holds the mutation's digests, epochs and sentinels, the finding's scope and the moment, field by field; two moves, or the error otherwise |
| RemediationEffects.BeginDoes | src/aegis/multi_agent/remediation.py:908-929 | the receipt spent and otherwise unchanged, the binding, and every failure |
| RemediationEffects.ConcludeDoes | src/aegis/multi_agent/remediation.py:931-967 | RETEST_PASS exactly on PASS with all eight clauses, and nothing else touched |
| RemediationEffects.ProofMeans | src/aegis/multi_agent/remediation.py:969-1000 | each clause of the causal proof on its own |
| Digests.DigestMeans | src/aegis/multi_agent/remediation.py:275-280 | a digest is 64 of the sixteen lower-case hexadecimal characters |
| AdaptiveRetest.ConfirmHolds | scripts/phase_2_3_live_adaptive_retest.py:846-847 | a confirmed finding leaves the ledger of the next checkpoint |
| AdaptiveRetest.RecommendHolds | scripts/phase_2_3_live_adaptive_retest.py:875-876 | so does a recorded recommendation |
| AdaptiveRetest.AuthorizeHolds | scripts/phase_2_3_live_adaptive_retest.py:888-895 | the controller's own selection is always authorized |
| AdaptiveRetest.ApplyHolds | scripts/phase_2_3_live_adaptive_retest.py:907-920 | an accepted mutation leaves RETEST_QUEUED with its receipt; a refused one leaves the ledger as it was |
| AdaptiveRetest.BeginHolds | scripts/phase_2_3_live_adaptive_retest.py:951-967 | the retest starts with the receipt spent, bound and refused when replayed |
| AdaptiveRetest.ConcludeHolds | scripts/phase_2_3_live_adaptive_retest.py:1013-1022 | the conclusion is RETEST_PASS or RETEST_FAIL and changes nothing but the loop's state |
| RetestDriver.LoopRun.GatedStep | scripts/phase_2_3_live_adaptive_retest.py:730-738 | ask the budget, run the step if admitted, record what it reports |
| RetestDriver.LoopRun.Delegate | scripts/phase_2_3_live_adaptive_retest.py:711-740 | open the loop, take the lead job, delegate: goes on or leaves exactly the first exit |
| RetestDriver.LoopRun.Plan | scripts/phase_2_3_live_adaptive_retest.py:742-798 | persist the delegation, take the recon job, plan |
| RetestDriver.LoopRun.ExecuteAndVerify | scripts/phase_2_3_live_adaptive_retest.py:800-822 | broker, execute, adjudicate, close both jobs; every exit as specified |
| RetestDriver.LoopRun.ConfirmAndRecommend | scripts/phase_2_3_live_adaptive_retest.py:827-882 | persist the finding and ask for a recommendation |
| RetestDriver.LoopRun.Patch | scripts/phase_2_3_live_adaptive_retest.py:886-936 | authorize and apply the remediation, or leave the loop INCOMPLETE |
| RetestDriver.LoopRun.StartRetest | scripts/phase_2_3_live_adaptive_retest.py:939-972 | take the retest job, consume the receipt, replay it and see it refused |
| RetestDriver.LoopRun.PlanRetest | scripts/phase_2_3_live_adaptive_retest.py:973-991 | the fourth gated step |
| RetestDriver.LoopRun.RetestAndConclude | scripts/phase_2_3_live_adaptive_retest.py:993-1029 | execute, adjudicate fresh and stale evidence, conclude, close the job |
| RetestDriver.LoopRun.RunLoop | scripts/phase_2_3_live_adaptive_retest.py:675-1029 | one run against any environment: an exception leaves no record, every return leaves exactly the record, queue, ledger and budget of its exit |
| RetestTheorems.VerdictPassesIff | scripts/phase_2_3_live_adaptive_retest.py:1188-1404 | the verdict over every run: it passes if and only if the run reached its conclusion and every answer on the way was good; no early return passes |
| RetestTheorems.ConcludedPassesIff | scripts/phase_2_3_live_adaptive_retest.py:1188-1404 | the same for concluded runs, in terms of the environment's answers alone |
| RetestTheorems.RecordPassesIff | scripts/phase_2_3_live_adaptive_retest.py:1188-1404 | the verdict on any record, whatever wrote it, in the fields it holds: it passes exactly if all host checks hold, every entry is in order, both runs, the conclusion and the recommendation are good, and the kept answers fit 4 calls and 12,000 tokens |
| RetestTheorems.ResultsAreKept | scripts/phase_2_3_live_adaptive_retest.py:1157-1163 | the counted results are, in step order, exactly the recorded answers that parsed and ended OK |
| RetestChecks.VerdictRaisesIff | scripts/phase_2_3_live_adaptive_retest.py:1385 | the verdict raises exactly if the counted call figures cannot be added up |
| RetestChecks.JobChecksMean | scripts/phase_2_3_live_adaptive_retest.py:1203-1220 | the two initial job checks, in the fields of the notes |
| RetestChecks.WorkerChecksMean | scripts/phase_2_3_live_adaptive_retest.py:1134-1156 | the two worker checks: the first probe of either name was answered; an execution that is missing leaves its check unchecked |
| RetestChecks.DecisionChecksMean | scripts/phase_2_3_live_adaptive_retest.py:1228-1259 | confirmation, recommendation, selection and authorization, each with its literal names and states |
| RetestChecks.PatchChecksMean | scripts/phase_2_3_live_adaptive_retest.py:1260-1298 | receipt, state change and rotation, and the retest job's ties to finding and receipt |
| RetestChecks.ConclusionChecksMean | scripts/phase_2_3_live_adaptive_retest.py:1299-1336 | the checks over the conclusion; without a verifier status three of them are unchecked |
| RetestChecks.ScopeChecksMean | scripts/phase_2_3_live_adaptive_retest.py:1338-1355 | scope and egress, unchecked where a recorded execution was rejected |
| RetestChecks.ResultChecksMean | scripts/phase_2_3_live_adaptive_retest.py:1378-1395 | identity, call ceiling and token ceiling over the kept answers |
| RetestTheorems.UnfinishedNeverPasses | scripts/phase_2_3_live_adaptive_retest.py:1188-1404 | no record without a conclusion passes |
| RetestTheorems.ProofHoldsIff | src/aegis/multi_agent/remediation.py:969-1000 | of the causal proof only the order of the evidence and of the sentinel epochs is left to the environment |
| RetestTheorems.PassingRunCounted | scripts/phase_2_3_live_adaptive_retest.py:1157-1163 | a passing run has all four steps OK, exactly four results, and an exact token total that omits none |
| RetestTheorems.PassingRunProven | scripts/phase_2_3_live_adaptive_retest.py:951-1022 | a passing run went through the eight states to RETEST_PASS, and its one receipt holds the mutation's evidence and is bound, spent and refused for ever |
| RetestTheorems.PassingRunSettled | scripts/phase_2_3_live_adaptive_retest.py:1388-1404 | the budget tracker of a passing run equals the reported token total |
| RetestTheorems.TrackerOfConcludedRun | scripts/phase_2_3_live_adaptive_retest.py:135-149 | after four started steps the tracker holds exactly what they reported |
| RetestTheorems.LedgerLeftIsLegal | scripts/phase_2_3_live_adaptive_retest.py:675-1029 | at every exit the ledger's trail is the legal path listed for that exit |
| RetestTheorems.WhatExitsLeave | scripts/phase_2_3_live_adaptive_retest.py:730-1024 | which jobs and loops each exit leaves open: early exits do not close their jobs; and exactly which exits leave the loop INCOMPLETE and which RETEST_FAIL |
| RetestExits.ExitMeans | scripts/phase_2_3_live_adaptive_retest.py:675-1029 | each normal exit is taken exactly on the listed answers: gates in calls and tokens, ids, statuses, validity, the ten-minute lease and a real mutation |
| RetestExits.LoopEndsIn | scripts/phase_2_3_live_adaptive_retest.py:675-1029 | the one state each exit leaves the loop in |
| RetestExits.StoppedIff | scripts/phase_2_3_live_adaptive_retest.py:730-986 | a run counts as stopped by the budget exactly if its last gate had no call or less than the reserved ceiling left |
| RetestExits.RecordsLeft | scripts/phase_2_3_live_adaptive_retest.py:827-1022 | the finding, lease, spent receipt and binding each exit leaves, field by field |
| RetestExits.StepsStarted | scripts/phase_2_3_live_adaptive_retest.py:730-986 | how many steps each exit has started |
| RetestExits.AccountLeft | scripts/phase_2_3_live_adaptive_retest.py:145-149 | the account each exit leaves: its limits, and the sums of the integers the started steps reported |
| RetestExits.InitialEntries | scripts/phase_2_3_live_adaptive_retest.py:711-826 | the record entries of the initial half each exit leaves, and what they say |
| RetestExits.RepairEntries | scripts/phase_2_3_live_adaptive_retest.py:827-936 | those of the recommendation, the authorization and the patch |
| RetestExits.RetestEntries | scripts/phase_2_3_live_adaptive_retest.py:939-1024 | those of the retest and the conclusion |
| RetestExits.QueueLeft | scripts/phase_2_3_live_adaptive_retest.py:723-1024 | the jobs each exit leaves, with their producers, delegations and states |
| RetestExits.DelegationLeft | scripts/phase_2_3_live_adaptive_retest.py:742-770 | the delegation each exit leaves |
| RetestTheorems.AdviceSteersNothing | scripts/phase_2_3_live_adaptive_retest.py:875-895 | environments that differ only in the recommended profile give the same exit, states, queue and budget |
| RetestTheorems.GatesByExit | scripts/phase_2_3_live_adaptive_retest.py:730-986 | which gates a run has reached, by its exit |
| RetestTheorems.TrackerAtGate | scripts/phase_2_3_live_adaptive_retest.py:730-986 | at every gate a run reaches, all earlier steps were admitted and ended OK, the tracker is that of a gated run over exactly them, and it holds their exact usage if and only if each reported an integer |
| RetestTheorems.TrackerIsExact | scripts/phase_2_3_live_adaptive_retest.py:730-986 | so at every gate the tracker equals the exact total of all earlier calls, if accepted answers report integers |
| ModelStep.LostStepReports | scripts/phase_2_3_live_adaptive_retest.py:145-149 | a step whose output does not parse counts nothing, and a total over it is not evaluated |
| RetestTheorems.BudgetOverEveryRun | scripts/phase_2_3_live_adaptive_retest.py:730-986 | at every exit at most four calls were started and the last-call bound holds |
| RetestExample.ExamplePasses | scripts/phase_2_3_live_adaptive_retest.py:675-1404 | a concrete run under the phase's own limits concludes and passes, whatever accepted mutation the range reports |
| RetestExample.RotationIsAccepted | src/aegis/multi_agent/remediation.py:834-906 | there is such a mutation |
| RetestExample.LimitsAdmitIff | scripts/phase_2_3_live_adaptive_retest.py:135-143 | under the phase's limits a step is admitted exactly below four calls and at most 7,904 tokens |
| AdversaryCampaign.GatedStep | scripts/phase_2_2_live_adversary_simulation.py:734-744 | a gated step, refused ones recorded as BUDGET_STOP |
| AdversaryCampaign.HandOff | scripts/phase_2_2_live_adversary_simulation.py:766-796 | delegation and recon job are persisted and linked to the lead job |
| AdversaryCampaign.CloseJobs | scripts/phase_2_2_live_adversary_simulation.py:879-896 | both jobs are closed, the recon job first |
| AdversaryCampaign.RunMode | scripts/phase_2_2_live_adversary_simulation.py:687-876 | every return leaves exactly the record, tables and account of the mode; only taken ids and a missing plan raise |
| AdversaryCampaign.RunCampaign | scripts/phase_2_2_live_adversary_simulation.py:936-944 | both arms over one queue and one budget; a budget stop in the first arm skips the second |
| AdversaryCampaign.ModeClosesItsJobs | scripts/phase_2_2_live_adversary_simulation.py:687-896 | every job a mode enqueues ends QUEUED, CLAIMED, CLOSED whichever exit is taken, and no other job moves |
| AdversaryCampaign.ModeEntries | scripts/phase_2_2_live_adversary_simulation.py:687-896 | which entries each exit of a mode records, what they say, and the account it leaves, in calls and tokens |
| AdversaryCampaign.RaisesIff | scripts/phase_2_2_live_adversary_simulation.py:687-876 | when a mode raises, exactly |
| AdversaryCampaign.ModeQueue | scripts/phase_2_2_live_adversary_simulation.py:687-896 | the jobs and delegations it leaves, row by row |
| AdversaryCampaign.HandoffPersistedIff | scripts/phase_2_2_live_adversary_simulation.py:1186-1199 | the verdict's hand-off check holds exactly if the recon job exists, that is if the delegation step was admitted and ended OK |
| AdversaryCampaign.BudgetStopIff | scripts/phase_2_2_live_adversary_simulation.py:734-740 | a mode is marked as stopped exactly if one of its gates refused, and then it never reached the worker |
| AdversaryCampaign.ModeIsGatedRun | scripts/phase_2_2_live_adversary_simulation.py:734-811 | the account after a mode is that of a gated run over the steps it started |
| AdversaryCampaign.AtMostFourSteps | scripts/phase_2_2_live_adversary_simulation.py:936-944 | no campaign starts more than four steps; after a stop in the first arm none is started any more |
| AdversaryCampaign.CampaignWithinBudget | scripts/phase_2_2_live_adversary_simulation.py:112-140 | over both arms together the budget is kept if each call stays within what is reserved for it |
| AdversaryVerdict.VerdictPassesIff | scripts/phase_2_2_live_adversary_simulation.py:1216-1472 | the verdict over every campaign: it passes if and only if both modes get through two admitted, accepted steps to their workers, the probes, verifiers and outputs are good in both arms, and the four results fit the ceilings with exact usage |
| AdversaryVerdict.RecordsPassIff | scripts/phase_2_2_live_adversary_simulation.py:1216-1472 | the verdict on any two arm records, whatever wrote them, in the fields they hold: it passes exactly if all host checks hold, both arms are in order, and work, outputs and the four results are good |
| AdversaryVerdict.WorkHoldsIff | scripts/phase_2_2_live_adversary_simulation.py:1021-1138 | all checks over both arms' brokered work hold exactly if the rendered sequences, the first probes' fields and the verifier answers are as listed |
| AdversaryVerdict.JobChecksMean | scripts/phase_2_2_live_adversary_simulation.py:1168-1259 | each job check, in the fields of the notes; a skipped arm leaves them unchecked, not failed |
| AdversaryVerdict.OutputChecksMean | scripts/phase_2_2_live_adversary_simulation.py:1261-1403 | each output check, and when it is checked at all |
| AdversaryVerdict.UncheckedWork | scripts/phase_2_2_live_adversary_simulation.py:1279-1412 | without both workers only the two verifier statuses are checked |
| AdversaryVerdict.BrokerChecksMean | scripts/phase_2_2_live_adversary_simulation.py:1281-1301 | each check over the rendered sequences |
| AdversaryVerdict.RouteChecksMean | scripts/phase_2_2_live_adversary_simulation.py:1112-1133 | the two checks over the routes, character by character |
| AdversaryVerdict.EvidenceChecksMean | scripts/phase_2_2_live_adversary_simulation.py:1332-1347 | each check over what the workers saw: the first probe of a name, answered, blocked, with or without the sentinel |
| AdversaryVerdict.VerifierChecksMean | scripts/phase_2_2_live_adversary_simulation.py:1361-1411 | each check over the verifier answers; a missing status is unchecked |
| AdversaryVerdict.CleanArmMeans | scripts/phase_2_2_live_adversary_simulation.py:1316-1326 | projections are clean exactly if every parsed step says so; a BUDGET_STOP does not |
| AdversaryVerdict.ResultChecksMean | scripts/phase_2_2_live_adversary_simulation.py:1316-1464 | each check over the collected results |
| AdversaryVerdict.ResultsHoldIff | scripts/phase_2_2_live_adversary_simulation.py:1141-1165 | the checks over the collected results, exactly |
| AdversaryVerdict.UnfinishedNeverPasses | scripts/phase_2_2_live_adversary_simulation.py:1216-1472 | no campaign passes with a skipped arm or an arm that stopped before its worker |
| AdversaryVerdict.ModeInOrder | scripts/phase_2_2_live_adversary_simulation.py:687-896 | an arm that reaches its worker has its jobs, hand-off and both results in order |
| AdversaryVerdict.PassingCampaign | scripts/phase_2_2_live_adversary_simulation.py:936-944 | a passing campaign persisted both hand-offs, started four steps, and its exact token total, within the ceiling, is what the tracker holds |
| AdversaryExample.ExamplePasses | scripts/phase_2_2_live_adversary_simulation.py:936-1468 | a concrete campaign under the phase's own limits raises nothing and passes |
| AdversaryExample.LimitsAdmitIff | scripts/phase_2_2_live_adversary_simulation.py:122-134 | under the phase's limits a step is admitted exactly below four calls and at most 7,904 tokens |
| ChainLedger.Ledger.TakeJob | src/aegis/multi_agent/attack_chain.py:580-616 | a job is enqueued and claimed once per id |
| ChainLedger.Ledger.CloseJob | src/aegis/multi_agent/attack_chain.py:618-640 | a claimed job is closed |
| ChainLedger.Ledger.UpsertChain | src/aegis/multi_agent/attack_chain.py:653-686 | the chain state is replaced and every change of it traced |
| ChainLedger.Ledger.UpsertLink | src/aegis/multi_agent/attack_chain.py:688-704 | a link is inserted, or overwrites the payload of its id |
| ChainLedger.JobRowsDo | src/aegis/multi_agent/attack_chain.py:580-640 | taking and closing append QUEUED, CLAIMED and CLOSED to the job's own rows alone |
| ChainLedger.UpsertDoes | src/aegis/multi_agent/attack_chain.py:653-686 | a chain's state is replaced, and traced exactly if it changes |
| ChainLedger.LinksOfAppended | src/aegis/multi_agent/attack_chain.py:706-713 | links of a job come back in stage order |
| ChainArm.Finish | scripts/phase_2_0_live_multi_primitive_chain.py:643-653 | the arm's inner failure routine: state, close, read back |
| ChainArm.LeaveArm | scripts/phase_2_0_live_multi_primitive_chain.py:643-653 | from any point of the arm to exactly the ledger and record of its exit |
| ChainArm.ProbeStageA | scripts/phase_2_0_live_multi_primitive_chain.py:684-734 | stage A probe, verification and link; blocked, failed or on |
| ChainArm.ComposeChain | scripts/phase_2_0_live_multi_primitive_chain.py:736-821 | LINK_CONFIRMED, selection, stage B, explanation, final state |
| ChainArm.RunArm | scripts/phase_2_0_live_multi_primitive_chain.py:584-821 | one arm against any environment: every return closes the job and leaves exactly the specified ledger and record; only a taken job id raises |
| ChainArm.ArmTrails | scripts/phase_2_0_live_multi_primitive_chain.py:618-653 | over every run the job's rows read QUEUED, CLAIMED, CLOSED and the chain's trace is RUNNING, then possibly LINK_CONFIRMED, then one terminal state |
| ChainArm.ArmEntries | scripts/phase_2_0_live_multi_primitive_chain.py:584-821 | which entries each exit of an arm records, and what they say, by the answers it got |
| ChainArm.ArmStates | scripts/phase_2_0_live_multi_primitive_chain.py:618-653 | the states it goes through and the one it ends in |
| ChainArm.LinksSay | scripts/phase_2_0_live_multi_primitive_chain.py:694-796 | both links of an arm, field by field |
| ChainArm.ChainConfirmedIff | scripts/phase_2_0_live_multi_primitive_chain.py:654-821 | CHAIN_CONFIRMED occurs exactly if the arm is vulnerable, plans and broker succeeded, the reference is present, the selection ended OK and both verifiers confirm; always after LINK_CONFIRMED |
| ChainArm.BlockedByPatchIff | scripts/phase_2_0_live_multi_primitive_chain.py:724-729 | BLOCKED_BY_PATCH occurs exactly in a patched arm whose plans were accepted, whatever the verifier says |
| ChainArm.LinksOfArm | scripts/phase_2_0_live_multi_primitive_chain.py:694-796 | which links each exit leaves, for new link ids |
| ChainArm.StaleLinksGoMissing | src/aegis/multi_agent/attack_chain.py:688-704 | a completed arm whose link ids are not new leaves at most one link |
| ChainArm.AtMostSevenSteps | scripts/phase_2_0_live_multi_primitive_chain.py:654-800 | a campaign starts at most seven model steps, two of them in the patched arm, and exactly when it starts seven |
| ChainArm.ArmKeepsConsistent | scripts/phase_2_0_live_multi_primitive_chain.py:584-821 | the ledger invariant survives an arm, so the second arm may run on what the first left |
| ChainVerdict.VerdictPassesIff | scripts/phase_2_0_live_multi_primitive_chain.py:1012-1241 | the verdict over every campaign: it passes if and only if the vulnerable arm confirmed the chain on good answers and new link ids, the patched arm was blocked with verifier PASS and no reference, and the counted results are good |
| ChainVerdict.RecordsPassIff | scripts/phase_2_0_live_multi_primitive_chain.py:1012-1241 | the verdict on any two arm records, whatever wrote them, in the fields they hold: it passes exactly if all host checks hold, both arms are in order, and what the model said, the probe saw and the counted results report is good |
| ChainVerdict.OutOfOrderNeverPasses | scripts/phase_2_0_live_multi_primitive_chain.py:1065-1194 | no records pass without two composed links, both confirmations and both final states |
| ChainVerdict.ResultsAreKept | scripts/phase_2_0_live_multi_primitive_chain.py:937-946 | the counted results are, in step order and arm by arm, exactly the recorded answers that parsed and ended OK or GATEWAY_REJECTED |
| ChainVerdict.PlanChecksMean | scripts/phase_2_0_live_multi_primitive_chain.py:1023-1044 | each check over the composed plan |
| ChainVerdict.LedgerChecksMean | scripts/phase_2_0_live_multi_primitive_chain.py:1046-1098 | the job, hand-off and capability checks, in the fields of jobs, links and stages |
| ChainVerdict.ProbeChecksMean | scripts/phase_2_0_live_multi_primitive_chain.py:1104-1151 | each check over the probe, and over the links it depends on |
| ChainVerdict.VerifierChecksMean | scripts/phase_2_0_live_multi_primitive_chain.py:1129-1194 | each check over verifier statuses and final states |
| ChainVerdict.ResultChecksMean | scripts/phase_2_0_live_multi_primitive_chain.py:1152-1227 | each check over the counted results |
| ChainVerdict.LinkAtIff | scripts/phase_2_0_live_multi_primitive_chain.py:1033-1036 | the link read for a stage is the last one with its index |
| ChainVerdict.MissingReads | scripts/phase_2_0_live_multi_primitive_chain.py:929-930 | what is missing reads as an output that says nothing and a probe that saw and revoked nothing |
| ChainVerdict.PassingLinks | scripts/phase_2_0_live_multi_primitive_chain.py:694-796 | a passing campaign holds exactly links 0 and 1 with every field as written, CHAIN_CONFIRMED after LINK_CONFIRMED, and a blocked patched arm |
| ChainVerdict.PassingCampaign | scripts/phase_2_0_live_multi_primitive_chain.py:937-946 | it started seven steps; its counted results are five plus the interpretation and the explanation where these ended OK or GATEWAY_REJECTED, with exact totals within 12 calls and 60,000 tokens |
| ChainVerdict.PassingPatchedArm | scripts/phase_2_0_live_multi_primitive_chain.py:724-729 | its patched arm holds one link and no reference |
| ChainVerdict.LostExplanationStillPasses | scripts/phase_2_0_live_multi_primitive_chain.py:937-946 | a passing campaign still passes if its explanation is lost, with that call's tokens missing from the total |
| ChainVerdict.SixOfSevenPass | scripts/phase_2_0_live_multi_primitive_chain.py:937-946 | a concrete campaign of seven started steps that passes on the totals of six |
| RejectionClassifier.PlannerCategory | scripts/compare_local_models.py:46-77 | every planner code gets a category of the list, and one of the nine the planner classifier can give |
| RejectionClassifier.SafetyCategory | scripts/compare_local_models.py:80-90 | every safety reason gets a category of the list, and one of the five the safety classifier can give |
| RejectionClassifier.PlannerCategoryIff | scripts/compare_local_models.py:46-77 | which planner codes get which category, for every category but other, exactly |
| RejectionClassifier.SafetyCategoryIff | scripts/compare_local_models.py:80-90 | which safety reasons get which category, exactly |
| RejectionClassifier.CaseMapping | scripts/compare_local_models.py:47 | upper and lower case move exactly the ASCII letters and undo each other |
| RejectionClassifier.PlannerPrecedence | scripts/compare_local_models.py:58-77 | which branch wins where codes overlap |
| RejectionClassifier.TallyReport | scripts/compare_local_models.py:109-123 | one report: the rejections in order, with counts and first examples kept |
| RejectionClassifier.TallyTrial | scripts/compare_local_models.py:108-134 | one trial: both reports, then the coverage shortfall |
| RejectionClassifier.ClassifyTrials | scripts/compare_local_models.py:103-139 | the nested loops give, per trial, exactly its rejections in order, each listed category's multiplicity, and the first code of every category that occurs |
| RejectionClassifier.ClassificationConserves | scripts/compare_local_models.py:26-43 | the counts over the listed categories add up to the number of rejections, and a category has an example exactly if its count is positive |
| RejectionClassifier.EveryRejectionIsCategorized | scripts/compare_local_models.py:26-43 | no rejection of any trial falls outside the list |
| RejectionClassifier.FirstCodeIsFirst | scripts/compare_local_models.py:122 | an example is the code of a rejection with none of its category before it |
| RejectionClassifier.EvidenceFailuresAreShortfalls | scripts/compare_local_models.py:124-133 | evidence-reference failures are exactly the shortfalls, and two listed categories are never counted |
| FailureMatrix.RowsForReport | scripts/build_failure_matrix.py:50-115 | one pass with a running status gives every rejection the row of the backward-looking specification |
| FailureMatrix.RowsForTrial | scripts/build_failure_matrix.py:121-153 | both reports' rows, then the shortfall row |
| FailureMatrix.BuildMatrix | scripts/build_failure_matrix.py:118-154 | the rows of all trials in order |
| FailureMatrix.MatrixAgreesWithTally | scripts/build_failure_matrix.py:50-154 | phases, categories and codes of the matrix rows are, in order, the concatenated per-trial rejections of the comparison script |
| FailureMatrix.RowStateIff | scripts/build_failure_matrix.py:44-73 | a row is post-verification exactly if the most recent verifier result or status-carrying request before it set CONFIRMED or PASS; otherwise the phase decides |
| FailureMatrix.MatrixFlags | scripts/build_failure_matrix.py:74-111 | the reference flag marks exactly the shortfalls, structural rows are planner rejections, and exactly which planner and safety rejections would not have been safe |
| EvidenceManifest.VerifySums | scripts/phase_2_2_replay_verifier.py:51-68 | the verifier reports exactly one problem per failing line, in order; a missing manifest is a problem |
| EvidenceManifest.CheckLine | scripts/phase_2_2_replay_verifier.py:59-67 | one line's problem, if it has one |
| EvidenceManifest.CharacterClasses | scripts/phase_2_2_replay_verifier.py:58-59 | which characters break a line and which are stripped, by code point |
| EvidenceManifest.LinesOfText | scripts/phase_2_2_replay_verifier.py:58 | how a text splits: at every break, a carriage return with its newline being one |
| EvidenceManifest.StripMeans | scripts/phase_2_2_replay_verifier.py:59-61 | stripping takes all white space off both ends and nothing else; a line is skipped exactly if it is all white space |
| EvidenceManifest.SplitOfJoin | scripts/phase_2_2_replay_verifier.py:236-239 | splitting inverts joining for lines without breaks |
| EvidenceManifest.EntryOfLine | scripts/phase_2_2_replay_verifier.py:60-63 | a written line reads back with its digest and its name less trailing white space; leading and double spaces do no harm |
| EvidenceManifest.SplitOfConcat | scripts/phase_2_2_replay_verifier.py:56-58 | a text that ends in a newline splits on its own |
| EvidenceManifest.ManifestIsReadBack | scripts/phase_2_2_live_adversary_simulation.py:1575-1579 | what the verifier reads from the writer's text, for any names: per name its first line with the digest, then its further lines |
| EvidenceManifest.RoundTripIff | scripts/phase_2_2_replay_verifier.py:51-68 | for any names and any later directory: the verifier accepts the writer's text exactly if the first line of every name, less trailing white space, names a file of the written digest and its further lines are blank or match by themselves |
| EvidenceManifest.GoodNamesRoundTrip | scripts/phase_2_2_replay_verifier.py:51-68 | names of one line without trailing white space are accepted on the directory they were written for |
| EvidenceManifest.TamperReport | scripts/phase_2_2_replay_verifier.py:51-68 | checked later, it reports exactly the listed files that are missing or changed, in order |
| EvidenceManifest.AcceptedMeansUnchanged | scripts/phase_2_2_replay_verifier.py:51-68 | barring a collision it accepts exactly if every listed file still has its contents; unlisted files are not seen |
| EvidenceManifest.BrokenNameIsRejected | scripts/phase_2_2_replay_verifier.py:59-64 | among any names, one with a break is rejected on its own directory if a further line of it is not blank and has no double space |
| AuditTrail.AssertAuditChain | scripts/phase_1_4_acceptance.py:48-55 | accepts exactly the trails whose digests all recompute |
| AuditTrail.Store.Audit | src/aegis/beast/store.py:135-180 | an audited event has the given fields, recomputes, and is chained to the last event of any run |
| AuditTrail.EncodingIsInjective | scripts/phase_1_4_acceptance.py:51-54 | events without newlines in their first five fields that encode alike are alike |
| AuditTrail.UnambiguousIff | scripts/phase_1_4_acceptance.py:51-54 | an encoding stands for one event exactly if none of its six fields holds a newline |
| AuditTrail.HeadDeterminesHistory | scripts/phase_1_4_acceptance.py:48-55 | two accepted, linked trails of equal length and equal last digest are equal event by event |
| AuditTrail.HeadDeterminesLength | src/aegis/beast/store.py:146-152 | of trails from the store's start value not even the length need be known |
| AuditTrail.SelectionIsAccepted | scripts/phase_1_4_acceptance.py:48-55 | the audit check does not follow the chain: any selection from an accepted trail is accepted |
| AuditTrail.DeletionBreaksTheChain | src/aegis/beast/store.py:146-152 | following the chain would notice a deletion |
| AuditTrail.RunIsChainIff | src/aegis/beast/store.py:146-190 | in a linked store with distinct digests the events of a run form a chain of their own exactly if no other run's event lies between them |
| AuditTrail.ContiguousIff | src/aegis/beast/store.py:182-190 | that is, no event of another run lies between two of its own |
| AuditTrail.HeadDeterminesRun | src/aegis/beast/store.py:182-190 | for such runs the number of events returned and the last digest determine them, across stores |
| AuditTrail.EventsAreAPrefix | src/aegis/beast/store.py:182-190 | the limited list is the run's part of a prefix of the store |
| CommandLinkage.IndexEvents | scripts/phase_1_4_acceptance.py:79-98 | the dictionary comprehension keeps the last event per command and raises on a missing id |
| CommandLinkage.CheckCommands | scripts/phase_1_4_acceptance.py:99-107 | the command loop accepts exactly if every command is linked |
| CommandLinkage.AssertLinkage | scripts/phase_1_4_acceptance.py:76-117 | the whole check, audit digests included, accepts exactly the linked runs |
| CommandLinkage.AcceptedMeans | scripts/phase_1_4_acceptance.py:76-117 | what acceptance shows, by event type and actor: the last proposal of every command is the model's with its text, it ended and was observed, parents, results, observations and inputs agree, the last call stopped, and the verifier completed |
| CommandLinkage.LastOfIsLast | scripts/phase_1_4_acceptance.py:79-98 | the indexed event is a matching one with none after it |
| CommandLinkage.AcceptedIsOneHistoryIff | scripts/phase_1_4_acceptance.py:99-107 | in an accepted run the parents lead from the last command back through every command exactly if no id occurs twice, which is not checked |
| CommandLinkage.RepeatedIdIsAccepted | scripts/phase_1_4_acceptance.py:99-107 | whatever the hash, two commands of one id are accepted, the second its own parent, and the parent walk does not cover the run |
| CommandLinkage.InputsAreNested | scripts/phase_1_4_acceptance.py:108-110 | model-call inputs are nested prefixes of the observation ids |
| CommandLinkage.AcceptedIsAligned | scripts/phase_1_4_acceptance.py:106-107 | results, observations and commands name the same command at every index |
| UsageReconciliation.AggregateUsage | scripts/phase_2_0_reconcile_closure.py:51-74 | the loop gives calls, known tokens and calls of unknown usage |
| UsageReconciliation.CallsAreConserved | scripts/phase_2_0_reconcile_closure.py:60-74 | every call is either of known usage or counted as unknown |
| UsageReconciliation.AggregateIsOrderFree | scripts/phase_2_0_reconcile_closure.py:60-74 | nothing depends on the order of the attempts |
| UsageReconciliation.CompletionsFitIff | scripts/phase_2_0_reconcile_closure.py:95-101 | for any figures, when every completion of the reports that respects the bound fits the ceiling |
| UsageReconciliation.CheckAgreesIff | scripts/phase_2_0_reconcile_closure.py:95-101 | for any figures and bound, the check says so exactly except where a bound below the known usage fails it, or calls of unknown usage cancel out unvouched |
| UsageReconciliation.CheckIsSoundIff | scripts/phase_2_0_reconcile_closure.py:95-101 | a check that holds is sound exactly if nothing is uncertain, the unknown calls do not cancel, or the bound fits |
| UsageReconciliation.CheckIsSound | scripts/phase_2_0_reconcile_closure.py:95-101 | True is sound for any bound that is one |
| UsageReconciliation.UnknownIff | scripts/phase_2_0_reconcile_closure.py:95-101 | for any figures, UNKNOWN exactly if some call's usage is unknown, such calls do not cancel out and no bound is supplied |
| UsageReconciliation.NegativeCallsHideUsage | scripts/phase_2_0_reconcile_closure.py:61-69 | call figures below zero can cancel unknown usage out |
| UsageReconciliation.FalseBound | scripts/phase_2_0_reconcile_closure.py:95-101 | a bound below the known usage fails although no completion respects it |
| CounterBlocks.CheckRun | scripts/phase_1_3_acceptance.py:246-392 | the run's assertions accept exactly if every block and the total pass |
| CounterBlocks.AcceptedMeans | scripts/phase_1_3_acceptance.py:246-392 | what an accepted run of eight blocks shows, reading by reading |
| CounterBlocks.BlocksTelescope | scripts/phase_1_3_acceptance.py:102-103 | block and gap deltas telescope to the delta of the run |
| CounterBlocks.FinalAssertionIff | scripts/phase_1_3_acceptance.py:359-392 | for any trial counts, with counters that never decrease, the final assertion holds exactly if no execution fell into a gap |
| CounterBlocks.FinalAssertionIffGapsCancel | scripts/phase_1_3_acceptance.py:359-392 | for any readings, it holds exactly if the gaps of the execution counter add up to zero |
| CounterBlocks.LostCountHidesExecution | scripts/phase_1_3_acceptance.py:392 | without that assumption a passing run can hide an execution |
| BoundedBody.Read | src/aegis/http.py:4-10 | returns the concatenation exactly if there is no chunk or the total fits, otherwise fails at the first prefix over the limit, with at most one chunk above it buffered |
| BoundedBody.ConcatIgnoresChunking | src/aegis/http.py:5-10 | the contents do not depend on how they were chunked |
| LoginProbe.HintChangesNothing | src/aegis/multi_agent/authentication.py:264-281 | the model's hint changes nothing but its own record |
| LoginProbe.RenderedWithinCeiling | src/aegis/multi_agent/authentication.py:265-316 | when a sequence is rendered, its size, and when it is the full sufficient one |
| LoginProbe.RenderMeans | src/aegis/multi_agent/authentication.py:265-316 | the rendered sequence attempt by attempt, and each refusal |
| LoginProbe.SanitizeMeans | src/aegis/multi_agent/authentication.py:462-505 | what is kept of an answer or a transport error, and when a session is captured |
| LoginProbe.RunAttempts | src/aegis/multi_agent/authentication.py:427-509 | the worker runs the whole sequence in order and keeps sanitized facts only |
| LoginProbe.StopConditionMattersIff | src/aegis/multi_agent/authentication.py:115-139 | the worker's facts are those of a worker that stops on an authenticated invalid credential exactly if no attempt before the last is one |
| LoginProbe.RenderedRunIgnoresStopIff | src/aegis/multi_agent/authentication.py:427-509 | in a rendered sequence every such attempt makes them differ |
| LoginProbe.WorkerGoesOn | src/aegis/multi_agent/authentication.py:447-509 | a run on which the worker goes on after one |
| AuthenticationVerdict.ProbeArm | scripts/phase_2_1_live_authentication_testing.py:705-760 | broker, worker and evidence of one arm |
| AuthenticationVerdict.ArmEntries | scripts/phase_2_1_live_authentication_testing.py:705-760 | when an arm leaves evidence, and what its broker entry, attempts and session are |
| AuthenticationVerdict.NoEvidenceIsBoth | scripts/phase_2_1_live_authentication_testing.py:1005-1024 | no attempt list is both unthrottled and throttled |
| AuthenticationVerdict.EvidenceIsNeitherIff | scripts/phase_2_1_live_authentication_testing.py:1005-1024 | when it is neither |
| AuthenticationVerdict.PassingEvidence | scripts/phase_2_1_live_authentication_testing.py:1279-1347 | a passing verdict means a sufficient length s from 1 to 10, exactly s invalid attempts in each arm, none authenticated, s + 2 in total at concurrency one, and different evidence in the two arms |
| AuthenticationVerdict.EvidencePassesIff | scripts/phase_2_1_live_authentication_testing.py:1225-1450 | any evidence passes, whatever wrote it, exactly if both arms are there, ran the sufficient sequence in full under the ceilings, let no invalid attempt in and agree with their verifiers, the vulnerable one unthrottled and the patched one throttled |
| AuthenticationVerdict.MissingArmsAreUnchecked | scripts/phase_2_1_live_authentication_testing.py:1225-1356 | without both arms only the execution of the one that is there is checked |
| AuthenticationVerdict.WorkerChecksMean | scripts/phase_2_1_live_authentication_testing.py:1228-1299 | each check over brokers and workers, in fields and numbers |
| AuthenticationVerdict.VerifierChecksMean | scripts/phase_2_1_live_authentication_testing.py:1289-1386 | each check over the burst and the verifier facts |
| AuthenticationVerdict.InvalidMultiset | scripts/phase_2_1_live_authentication_testing.py:969-970 | the invalid attempts read are exactly those of that kind, each as often as it occurs |
| AuthenticationVerdict.RunPassesIff | scripts/phase_2_1_live_authentication_testing.py:1279-1478 | over every run of the probe, for any profile, the verdict passes exactly if the full sequence fits, both workers' output parses, both targets behaved soundly, only the patched one throttled, and verifier and other checks agree |
| AuthenticationVerdict.PassingRunNeverStops | scripts/phase_2_1_live_authentication_testing.py:1279-1478 | the stop condition makes no difference to a run that passes |
| AuthenticationVerdict.ExamplePasses | scripts/phase_2_1_live_authentication_testing.py:1279-1478 | the registered profile passes against a target that never locks and one that locks at the last invalid attempt, whatever the hints |
| AuthenticationVerdict.OrderIsNotChecked | scripts/phase_2_1_live_authentication_testing.py:939-1024 | both arms' evidence may be shuffled, the post-burst control moved before the burst, and the verdict is the same; only which post-burst control comes first matters |

## Left out

- Docker, HTTP, subprocesses, health polling, file writing, argument parsing and clocks: they appear
  only as answers of the environment.
- Schema validation of model outputs, prompts, projections, JSON serialisation and SHA-256: a parsed
  output is a value, canonical JSON a string, the hash a function; no-collision assumptions are made
  only by the lemmas that name them.
- Figures that JSON could carry as floats or numeric strings: a usage figure is an integer, a boolean,
  UNKNOWN, absent or anything else; broker counts of the authentication verdict are integers, as the
  broker writes them.
- Marker and credential-value scans, egress, isolation, severity, cleanup and leftovers: they enter
  the verdicts as arbitrary host checks, since no arm or loop writes them.
- The checks of the phase 2.1 verdict over evidence the worker does not produce: they enter as
  arbitrary other checks. Phase 2.2 model outputs and broker records without a key the verdict reads
  raise there; here they have all keys.
- The driver of phase 2.1 around its worker: its jobs and delegation repeat the phase 2.2 pattern.
- Chain-job addresses: chain jobs are looked up by id; their address only appears in the record.
- Reason texts, time stamps and payload fields of transition rows, and the lease and campaign ids.
- Campaigns of phase 2.0 and 2.3 that end before the first arm or loop because a service is not
  healthy; their records have no arms and are not judged here.
- The adjudication calls of the phase 2.3 loop raising an exception: every exception leaves no record,
  whichever call raised it.
- Non-ASCII case mapping in the rejection classifiers, and path resolution of manifest names: a
  directory maps names to contents.
- The store's other listing, of the latest events of all runs, which is also what it does for an
  empty run id.
- AuditTrail.HeadDeterminesHistory: assumes the linkage that the audit check does not test.
- The fields of the reconciliation block that only echo or compare one attempt's figures.
- The other acceptance, smoke and comparison scripts, latency and average figures, the console and the
  mock provider: they repeat the modelled patterns or are user interface.
