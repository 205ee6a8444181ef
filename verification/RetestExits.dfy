/** What each exit of the adaptive-retest loop means and leaves, in terms of the environment's answers. */
module RetestExits {
  import opened Wrappers
  import opened Trails
  import opened ProviderUsage
  import opened CampaignBudget
  import opened AgentQueue
  import opened ModelStep
  import opened RemediationLedger
  import opened RemediationController
  import opened RemediationAtomicity
  import opened RemediationEffects
  import opened RetestEvidence
  import opened AdaptiveRetest
  import opened RetestTheorems

  // ------------------------------------------------------------------ when an exit is taken

  /** The gate of step `k` has a call and the reserved ceiling left, and the step's answer ended OK. */
  predicate Passed(env: Env, a: Account, k: nat) {
    && AccountAt(env, a, k).calls < a.maxCalls
    && AccountAt(env, a, k).tokens <= a.maxTokens - a.ceiling
    && Answer(env, k).Some? && Answer(env, k).value.status == "OK"
  }

  lemma {:induction false} LimitsStay(env: Env, a: Account, k: nat)
    ensures var now := AccountAt(env, a, k);
      now.maxCalls == a.maxCalls && now.maxTokens == a.maxTokens && now.ceiling == a.ceiling
  {
    if k > 0 {
      LimitsStay(env, a, k - 1);
    }
  }

  lemma PassedIff(env: Env, a: Account, k: nat)
    ensures StepPassed(env, a, k) <==> Passed(env, a, k)
  {
    LimitsStay(env, a, k);
  }

  predicate PlannedOk(env: Env, a: Account) {
    Passed(env, a, 0) && env.leadId != env.reconId && Passed(env, a, 1) && env.plan.value.hasPlan
  }

  predicate FoundOk(env: Env, a: Account) {
    && PlannedOk(env, a) && env.initialExecution.Executed? && env.initialVerify.status == Some("CONFIRMED")
    && env.findingValid && env.projectionClean
  }

  predicate AdvisedOk(env: Env, a: Account) {
    FoundOk(env, a) && Passed(env, a, 2) && env.recommend.value.recommendation.Some?
  }

  /** The patch is applied within ten minutes of its authorization, and the range reports a real change. */
  predicate PatchOk(env: Env) {
    env.authorizedAt <= env.appliedAt < env.authorizedAt + 600_000_000 && RealMutation(env.mutation)
  }

  predicate RetestOk(env: Env, a: Account) {
    && AdvisedOk(env, a) && PatchOk(env)
    && env.retestId != env.leadId && env.retestId != env.reconId && env.retestProjectionClean
  }

  /** Each exit, exactly; in every other case the run raises. */
  lemma ExitMeans(env: Env, a: Account)
    ensures var e := ExitOf(env, a);
      && (e.DelegateFailed? <==> !Passed(env, a, 0))
      && (e.PlanFailed? <==> Passed(env, a, 0) && env.leadId != env.reconId && !Passed(env, a, 1))
      && (e.InitialRejected? <==> PlannedOk(env, a) && env.initialExecution.BrokerRejected?)
      && (e.NotConfirmed? <==>
            PlannedOk(env, a) && env.initialExecution.Executed? && env.initialVerify.status != Some("CONFIRMED"))
      && (e.RecommendFailed? <==> FoundOk(env, a) && !Passed(env, a, 2))
      && (e.PatchRefused? <==> AdvisedOk(env, a) && !PatchOk(env))
      && (e.RetestPlanFailed? <==> RetestOk(env, a) && !Passed(env, a, 3))
      && (e.RetestRejected? <==> RetestOk(env, a) && Passed(env, a, 3) && env.retestPlan.value.hasPlan
                                 && env.retestExecution.BrokerRejected?)
      && (e.Concluded? <==> RetestOk(env, a) && Passed(env, a, 3) && env.retestPlan.value.hasPlan
                            && env.retestExecution.Executed?)
  {
    PassedIff(env, a, 0);
    PassedIff(env, a, 1);
    PassedIff(env, a, 2);
    PassedIff(env, a, 3);
    PatchOkIff(env);
  }

  lemma PatchOkIff(env: Env)
    ensures PatchAccepted(env) <==> PatchOk(env)
  {
  }

  /** How far an exit gets: past the initial execution, to a finding, to the retest. */
  predicate GotPastInitial(e: Exit) {
    !e.DelegateFailed? && !e.PlanFailed? && !e.InitialRejected?
  }

  predicate GotToFinding(e: Exit) {
    e.RecommendFailed? || e.PatchRefused? || GotToRetest(e)
  }

  predicate GotToRetest(e: Exit) {
    e.RetestPlanFailed? || e.RetestRejected? || e.Concluded?
  }

  // ------------------------------------------------------------------ the state the loop is left in

  /** The run was ended by a gate: its last step was not admitted. */
  predicate GateRefused(env: Env, a: Account, k: nat) {
    AccountAt(env, a, k).calls >= a.maxCalls || AccountAt(env, a, k).tokens > a.maxTokens - a.ceiling
  }

  /** The state each exit leaves the loop in. */
  lemma LoopEndsIn(env: Env, a: Account)
    requires !ExitOf(env, a).Raised?
    ensures env.loopId in LedgerOf(env, a).loops
    ensures var s := LedgerOf(env, a).loops[env.loopId];
      match ExitOf(env, a)
      case DelegateFailed => s == InitialExecutionPending
      case PlanFailed => s == InitialExecutionPending
      case InitialRejected => s == InitialExecutionPending
      case NotConfirmed => s == Incomplete
      case RecommendFailed => s == if GateRefused(env, a, 2) then InitialConfirmed else Incomplete
      case PatchRefused => s == Incomplete
      case RetestPlanFailed => s == if GateRefused(env, a, 3) then RetestRunning else RetestFail
      case RetestRejected => s == RetestFail
      case Concluded => s == ConcludedState(env)
  {
    LimitsStay(env, a, 2);
    LimitsStay(env, a, 3);
    if ExitOf(env, a).Concluded? {
      ConcludedIn(env, a);
    }
  }

  function ConcludedState(env: Env): State
    requires env.initialExecution.Executed? && env.retestExecution.Executed? && PatchAccepted(env)
  {
    if env.retestVerify.status == Some("PASS") && EvidenceInOrder(env) then RetestPass else RetestFail
  }

  lemma ConcludedIn(env: Env, a: Account)
    requires ExitOf(env, a).Concluded?
    ensures LedgerOf(env, a).loops[env.loopId] == ConclusionOf(env).finalState == ConcludedState(env)
  {
    ProofHoldsIff(env);
    assert Ended(env, a) == Some(ConclusionOf(env).finalState);
  }

  /** The patch lies between the two pieces of evidence, and the sentinel's epoch did not go back. */
  predicate EvidenceInOrder(env: Env)
    requires env.initialExecution.Executed? && env.retestExecution.Executed? && PatchAccepted(env)
  {
    && env.initialExecution.run.evidenceAt < env.appliedAt < env.retestExecution.run.evidenceAt
    && env.mutation.oldEpoch.value <= env.mutation.newEpoch.value
  }

  /** Which runs count as stopped by the budget: those whose last gate refused. */
  lemma StoppedIff(env: Env, a: Account)
    ensures var e := ExitOf(env, a);
      StoppedByBudget(env, a) <==>
        || (e.DelegateFailed? && GateRefused(env, a, 0)) || (e.PlanFailed? && GateRefused(env, a, 1))
        || (e.RecommendFailed? && GateRefused(env, a, 2)) || (e.RetestPlanFailed? && GateRefused(env, a, 3))
  {
    LimitsStay(env, a, 0);
    LimitsStay(env, a, 1);
    LimitsStay(env, a, 2);
    LimitsStay(env, a, 3);
  }

  // ------------------------------------------------------------------ the records the ledger is left with

  /** The finding, the lease, the receipt and the binding each exit leaves: exactly those the run got to,
      with the environment's ids, moments and evidence. */
  lemma RecordsLeft(env: Env, a: Account)
    requires !ExitOf(env, a).Raised?
    ensures var e, l := ExitOf(env, a), LedgerOf(env, a);
      && l.loops.Keys == {env.loopId}
      && l.findings == (if GotToFinding(e) then map[env.findingId := FindingFor(env)] else map[])
      && l.authorizations
         == (if e.PatchRefused? || GotToRetest(e) then map[env.authorizationId := LeaseFor(env)] else map[])
      && (if GotToRetest(e)
          then
            && l.receipts == map[env.receiptId := ReceiptRow(FiledReceipt(env), true)]
            && l.bindings == map[env.retestId := Binding(env.loopId, env.findingId, env.receiptId)]
          else l.receipts == map[] && l.bindings == map[])
  {
  }

  /** The finding of the initial execution, and the lease for it: ten minutes from the authorization. */
  function FindingFor(env: Env): Finding
    requires env.initialExecution.Executed?
  {
    Finding(id := env.findingId, loopId := env.loopId, targetRef := "range-ops",
            scenarioId := "ops-detection-control-bypass-v1", evidenceAt := env.initialExecution.run.evidenceAt)
  }

  function LeaseFor(env: Env): Authorization {
    Authorization(id := env.authorizationId, loopId := env.loopId, findingId := env.findingId,
                  issuedAt := env.authorizedAt, expiresAt := env.authorizedAt + 600_000_000)
  }

  // ------------------------------------------------------------------ the account

  /** How many steps each exit has started: all up to its last one, which counts if its gate admitted it. */
  lemma StepsStarted(env: Env, a: Account)
    requires !ExitOf(env, a).Raised?
    ensures Started(env, a) ==
      match ExitOf(env, a)
      case DelegateFailed => (if GateRefused(env, a, 0) then 0 else 1)
      case PlanFailed => (if GateRefused(env, a, 1) then 1 else 2)
      case InitialRejected => 2
      case NotConfirmed => 2
      case RecommendFailed => (if GateRefused(env, a, 2) then 2 else 3)
      case PatchRefused => 3
      case RetestPlanFailed => (if GateRefused(env, a, 3) then 3 else 4)
      case RetestRejected => 4
      case Concluded => 4
  {
    LimitsStay(env, a, 0);
    LimitsStay(env, a, 1);
    LimitsStay(env, a, 2);
    LimitsStay(env, a, 3);
  }

  /** What the first `k` steps report, as far as it is integers. */
  function CallsOfFirst(env: Env, k: nat): int {
    if k == 0 then 0
    else CallsOfFirst(env, k - 1)
         + (if Answer(env, k - 1).Some? && Answer(env, k - 1).value.calls.Num? then Answer(env, k - 1).value.calls.n
            else 0)
  }

  function TokensOfFirst(env: Env, k: nat): int {
    if k == 0 then 0
    else TokensOfFirst(env, k - 1)
         + (if Answer(env, k - 1).Some? && Answer(env, k - 1).value.tokens.Num? then Answer(env, k - 1).value.tokens.n
            else 0)
  }

  /** The account each exit leaves: its limits, and the integers that the started steps reported. */
  lemma AccountLeft(env: Env, a: Account)
    ensures AccountOf(env, a)
         == Account(maxCalls := a.maxCalls, maxTokens := a.maxTokens, ceiling := a.ceiling,
                    calls := a.calls + CallsOfFirst(env, Started(env, a)),
                    tokens := a.tokens + TokensOfFirst(env, Started(env, a)))
  {
    AccountSums(env, a, Started(env, a));
  }

  lemma {:induction false} AccountSums(env: Env, a: Account, k: nat)
    ensures AccountAt(env, a, k)
         == Account(a.maxCalls, a.maxTokens, a.ceiling,
                    a.calls + CallsOfFirst(env, k), a.tokens + TokensOfFirst(env, k))
  {
    if k > 0 {
      AccountSums(env, a, k - 1);
    }
  }

  // ------------------------------------------------------------------ the record

  /** A step as it is recorded: its answer, or a BUDGET_STOP of no calls if its gate refused. */
  function Noted(env: Env, a: Account, k: nat): Option<Step> {
    Some(if GateRefused(env, a, k) then Some(StepResult("BUDGET_STOP", Num(0), Num(0), false, false, None))
         else Answer(env, k))
  }

  function TakenNote(prefix: string, id: string, closed: bool): JobNote {
    JobNote(address := prefix + id, claimedStatus := Claimed, resolved := true, closed := closed)
  }

  /** The record of the initial half: which entries each exit leaves, and what they say. */
  lemma InitialEntries(env: Env, a: Account)
    requires !ExitOf(env, a).Raised?
    ensures var e, r := ExitOf(env, a), RecordOf(env, a);
      && r.leadJob == Some(TakenNote("agentjob://LEAD_ORCHESTRATOR/", env.leadId, GotPastInitial(e)))
      && r.delegateStep == Noted(env, a, 0)
      && (if e.DelegateFailed?
          then r.delegationId.None? && r.reconJob.None? && r.reconFromDelegation.None? && r.planStep.None?
          else
            && r.delegationId == Some(env.delegationId) == r.reconFromDelegation
            && r.reconJob == Some(TakenNote("agentjob://RECON_AGENT/", env.reconId, GotPastInitial(e)))
            && r.planStep == Noted(env, a, 1))
      && r.initialExecution == (if e.DelegateFailed? || e.PlanFailed? then None else Some(env.initialExecution))
      && r.initialVerify == (if GotPastInitial(e) then Some(env.initialVerify) else None)
      && (r.budgetStop <==> StoppedByBudget(env, a))
  {
    JobPrefixes("");
    LimitsStay(env, a, 0);
    LimitsStay(env, a, 1);
  }

  /** The record of the repair: the finding and the recommendation, then the controller's own selection
      and the patch. */
  lemma RepairEntries(env: Env, a: Account)
    requires !ExitOf(env, a).Raised?
    ensures var e, r := ExitOf(env, a), RecordOf(env, a);
      && (if GotToFinding(e)
          then r.findingId == Some(env.findingId) && r.recommendStep == Noted(env, a, 2)
          else r.findingId.None? && r.recommendStep.None?)
      && (if e.PatchRefused? || GotToRetest(e)
          then
            && r.authorization == Some(AuthorizationNote("enforce_uniform_detection_control_v1", true, PatchAuthorized))
            && r.patch
               == Some(if GotToRetest(e) then Patched(env.receiptId, true, true, RetestQueued) else PatchRejected)
          else r.authorization.None? && r.patch.None?)
  {
    LimitsStay(env, a, 2);
  }

  /** The record of the retest. */
  lemma RetestEntries(env: Env, a: Account)
    requires !ExitOf(env, a).Raised?
    ensures var e, r := ExitOf(env, a), RecordOf(env, a);
      && (if GotToRetest(e)
          then
            && r.retestPlanStep == Noted(env, a, 3)
            && r.retestJob == Some(RetestNote(
                 job := TakenNote("agentjob://RECON_AGENT/", env.retestId, e.Concluded?),
                 binding := Some(Binding(env.loopId, env.findingId, env.receiptId)),
                 receiptConsumed := true, replayBlocked := true))
          else r.retestPlanStep.None? && r.retestJob.None?)
      && r.retestExecution == (if e.RetestRejected? || e.Concluded? then Some(env.retestExecution) else None)
      && (r.conclusion.Some? <==> e.Concluded?)
      && (e.Concluded? ==>
            var c := r.conclusion.value;
            && c.verify == env.retestVerify && c.staleStatus == env.staleVerify.status
            && (c.proof.All() <==> EvidenceInOrder(env))
            && c.finalState == LedgerOf(env, a).loops[env.loopId])
  {
    JobPrefixes("");
    LimitsStay(env, a, 3);
    if ExitOf(env, a).Concluded? {
      ProofHoldsIff(env);
    }
  }

  // ------------------------------------------------------------------ the queue

  /** The jobs each exit leaves, and below the delegation. */
  lemma QueueLeft(env: Env, a: Account)
    requires !ExitOf(env, a).Raised?
    ensures var e := ExitOf(env, a);
      var t := TablesAt(env, Rank(e));
      && t.jobs.Keys == {env.leadId} + (if e.DelegateFailed? then {} else {env.reconId})
                        + (if GotToRetest(e) then {env.retestId} else {})
      && t.jobs[env.leadId]
         == JobRow(Job(env.leadId, LeadOrchestrator, "", ""), if GotPastInitial(e) then Closed else Claimed)
      && (!e.DelegateFailed? ==>
            t.jobs[env.reconId] == JobRow(Job(env.reconId, ReconAgent, env.delegationId, env.leadId),
                                          if GotPastInitial(e) then Closed else Claimed))
      && (GotToRetest(e) ==>
            t.jobs[env.retestId]
            == JobRow(Job(env.retestId, ReconAgent, "", ""), if e.Concluded? then Closed else Claimed))
  {
  }

  lemma DelegationLeft(env: Env, a: Account)
    requires !ExitOf(env, a).Raised?
    ensures var e := ExitOf(env, a);
      TablesAt(env, Rank(e)).delegations
      == if e.DelegateFailed? then map[] else map[env.delegationId := Delegation(env.delegationId, env.leadId)]
  {
  }
}
