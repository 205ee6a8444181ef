/** The evidence record of the adaptive-retest loop and the verdict that later judges it. */
module RetestEvidence {
  import opened Wrappers
  import opened ProviderUsage
  import opened AgentQueue
  import opened ModelStep
  import opened RemediationLedger
  import opened RemediationController

  const MaxProviderCalls := 4
  const MaxProviderTokens := 12_000
  const PerTaskOutputCeiling := 4096

  // ------------------------------------------------------------------ answers of the environment

  datatype VerifierAnswer = VerifierAnswer(
    status: Option<string>, baselineDenied: bool, generatedNoTraffic: bool, probeRequests: int)

  // ------------------------------------------------------------------ the record

  datatype AuthorizationNote = AuthorizationNote(selectedId: string, validAtIssue: bool, stateAfter: State)

  datatype PatchNote =
    | PatchRejected
    | Patched(receiptId: string, stateChanged: bool, sentinelRotated: bool, stateAfter: State)

  datatype RetestNote = RetestNote(job: JobNote, binding: Option<Binding>, receiptConsumed: bool, replayBlocked: bool)

  datatype Conclusion = Conclusion(
    verify: VerifierAnswer, staleStatus: Option<string>, proof: Proof, finalState: State)

  /** Every entry is optional: it is present once the run has got that far. */
  datatype LoopRecord = LoopRecord(
    leadJob: Option<JobNote>,
    delegateStep: Option<Step>,
    delegationId: Option<string>,
    reconJob: Option<JobNote>,
    reconFromDelegation: Option<string>,
    planStep: Option<Step>,
    initialExecution: Option<Execution>,
    initialVerify: Option<VerifierAnswer>,
    findingId: Option<string>,
    recommendStep: Option<Step>,
    authorization: Option<AuthorizationNote>,
    patch: Option<PatchNote>,
    retestJob: Option<RetestNote>,
    retestPlanStep: Option<Step>,
    retestExecution: Option<Execution>,
    conclusion: Option<Conclusion>,
    budgetStop: bool)

  const EmptyLoop := LoopRecord(None, None, None, None, None, None, None, None, None, None, None, None, None, None,
                                None, None, false)

  // ------------------------------------------------------------------ the verdict

  /** Checks over reset, cleanup, leftovers and marker scans, which the loop does not write. */
  datatype HostChecks = HostChecks(reset: Check, cleanup: Check, noLeftovers: Check, noMarkerLeak: Check)

  datatype Checks = Checks(
    leadJob: Check, reconJob: Check,
    initialWorker: Check, initialConfirmed: Check,
    recommendationGenerated: Check, recommendationNonAuthoritative: Check,
    controllerSelected: Check, authorizationValid: Check,
    receiptPersisted: Check, patchChangedState: Check, sentinelRotated: Check,
    retestJob: Check, retestBound: Check, retestUsedReceipt: Check, replayBlocked: Check,
    retestAfterPatch: Check, staleBlocked: Check, retestWorker: Check,
    retestAdjudicated: Check, verifierDidNotSubstitute: Check, retestPass: Check,
    causalBreak: Check, scope: Check, noEgress: Check,
    host: HostChecks,
    identity: Check, callCeiling: Check, tokenCeiling: Check)
  {
    predicate AllHold() {
      && leadJob.Holds? && reconJob.Holds?
      && initialWorker.Holds? && initialConfirmed.Holds?
      && recommendationGenerated.Holds? && recommendationNonAuthoritative.Holds?
      && controllerSelected.Holds? && authorizationValid.Holds?
      && receiptPersisted.Holds? && patchChangedState.Holds? && sentinelRotated.Holds?
      && retestJob.Holds? && retestBound.Holds? && retestUsedReceipt.Holds? && replayBlocked.Holds?
      && retestAfterPatch.Holds? && staleBlocked.Holds? && retestWorker.Holds?
      && retestAdjudicated.Holds? && verifierDidNotSubstitute.Holds? && retestPass.Holds?
      && causalBreak.Holds? && scope.Holds? && noEgress.Holds?
      && HostHolds(host)
      && identity.Holds? && callCeiling.Holds? && tokenCeiling.Holds?
    }
  }

  predicate HostHolds(h: HostChecks) {
    h.reset.Holds? && h.cleanup.Holds? && h.noLeftovers.Holds? && h.noMarkerLeak.Holds?
  }

  /** The first probe with the given label. */
  function ProbeOf(probes: seq<Probe>, name: string): Option<Probe> {
    if probes == [] then None
    else if probes[0].name == name then Some(probes[0])
    else ProbeOf(probes[1..], name)
  }

  predicate BothProbesExecuted(run: Run) {
    && var baseline := ProbeOf(run.probes, "BASELINE_PROBE");
    && var alternate := ProbeOf(run.probes, "ALTERNATE_PROBE");
    && baseline.Some? && alternate.Some?
    && baseline.value.statusCode > 0 && alternate.value.statusCode > 0
  }

  function WorkerCheck(e: Option<Execution>): Check {
    if e.Some? && e.value.Executed? then Bool(BothProbesExecuted(e.value.run)) else NotChecked
  }

  /** A step that ended OK counts with its result; a missing or failed step is left out. */
  function OkResult(s: Option<Step>): seq<StepResult> {
    if s.Some? && StepOk(s.value) then [s.value.value] else []
  }

  /** In step order. */
  function ModelResults(loop: LoopRecord): seq<StepResult> {
    OkResult(loop.delegateStep) + OkResult(loop.planStep) + OkResult(loop.recommendStep) + OkResult(loop.retestPlanStep)
  }

  function TotalCalls(results: seq<StepResult>): Option<int> {
    CallTotal(CallReports(results))
  }

  /** The token total the verdict reports. */
  function TokensTotal(loop: LoopRecord): Total {
    if ModelResults(loop) == [] then NotEvaluated else TotalOf(Tokens(ModelResults(loop)))
  }

  /** Executions that carry a rendered probe list: those the broker did not reject. */
  predicate Rendered(e: Option<Execution>) {
    e.Some? && e.value.Executed?
  }

  predicate ScopeHeld(e: Option<Execution>) {
    Rendered(e) ==> e.value.run.targetRef == TargetRef
  }

  predicate NoEgress(e: Option<Execution>) {
    Rendered(e) && e.value.run.routesRelative && e.value.run.onRangeAccess
  }

  /** No recorded execution was rejected, and there is at least one. */
  predicate BrokersRendered(loop: LoopRecord) {
    && (loop.initialExecution.Some? || loop.retestExecution.Some?)
    && (loop.initialExecution.Some? ==> loop.initialExecution.value.Executed?)
    && (loop.retestExecution.Some? ==> loop.retestExecution.value.Executed?)
  }

  /** The verdict's checks, or None where computing the call total raises. */
  function ChecksOf(loop: LoopRecord, host: HostChecks): Option<Checks> {
    var results := ModelResults(loop);
    var calls := TotalCalls(results);
    if calls.None? then None
    else
      var jobs := loop.leadJob.Some? && loop.reconJob.Some?;
      var recommended := loop.recommendStep.Some? && StepOk(loop.recommendStep.value)
                         && loop.recommendStep.value.value.recommendation.Some?;
      var patched := loop.patch.Some? && loop.patch.value.Patched?;
      var retest := loop.retestJob.Some?;
      var done := loop.conclusion.Some?;
      var judged := done && loop.conclusion.value.verify.status.Some?;
      Some(Checks(
        leadJob := if !jobs then NotChecked else Bool(JobNoteGood(loop.leadJob.value, LeadOrchestrator)),
        reconJob := if !jobs then NotChecked else
          Bool(JobNoteGood(loop.reconJob.value, ReconAgent) && loop.reconFromDelegation == loop.delegationId),
        initialWorker := WorkerCheck(loop.initialExecution),
        initialConfirmed := if loop.initialVerify.None? || loop.initialVerify.value.status.None? then NotChecked
          else Bool(loop.initialVerify.value.status == Some("CONFIRMED")),
        recommendationGenerated := if !recommended then NotChecked else
          Bool(loop.recommendStep.value.value.recommendation.value.profileId != ""),
        recommendationNonAuthoritative := if !recommended then NotChecked else
          Bool(loop.recommendStep.value.value.recommendation.value.nonAuthoritative),
        controllerSelected := if loop.authorization.None? then NotChecked else
          Bool(loop.authorization.value.selectedId == UniformDetectionControl
               && loop.authorization.value.stateAfter == PatchAuthorized),
        authorizationValid := if loop.authorization.None? then NotChecked else
          Bool(loop.authorization.value.validAtIssue),
        receiptPersisted := if !patched then NotChecked else Bool(loop.patch.value.stateAfter == RetestQueued),
        patchChangedState := if !patched then NotChecked else Bool(loop.patch.value.stateChanged),
        sentinelRotated := if !patched then NotChecked else Bool(loop.patch.value.sentinelRotated),
        retestJob := if !retest then NotChecked else Bool(JobNoteGood(loop.retestJob.value.job, ReconAgent)),
        retestBound := if !retest then NotChecked else
          Bool(loop.retestJob.value.binding.Some? && Some(loop.retestJob.value.binding.value.findingId)
               == loop.findingId),
        retestUsedReceipt := if !retest then NotChecked else
          Bool(loop.retestJob.value.receiptConsumed && loop.retestJob.value.binding.Some? && patched
               && loop.retestJob.value.binding.value.receiptId == loop.patch.value.receiptId),
        replayBlocked := if !retest then NotChecked else Bool(loop.retestJob.value.replayBlocked),
        retestAfterPatch := if !done then NotChecked else Bool(loop.conclusion.value.proof.retestFollowsPatch),
        staleBlocked := if !done then NotChecked else Bool(loop.conclusion.value.staleStatus != Some("PASS")),
        retestWorker := WorkerCheck(loop.retestExecution),
        retestAdjudicated := if !judged then NotChecked else
          Bool(loop.conclusion.value.verify.status in {Some("PASS"), Some("CONFIRMED")}
               && loop.conclusion.value.verify.baselineDenied),
        verifierDidNotSubstitute := if !judged then NotChecked else
          Bool(loop.conclusion.value.verify.generatedNoTraffic && loop.conclusion.value.verify.probeRequests == 0),
        retestPass := if !judged then NotChecked else Bool(loop.conclusion.value.verify.status == Some("PASS")),
        causalBreak := if !done then NotChecked else Bool(loop.conclusion.value.proof.All()),
        scope := if !BrokersRendered(loop) then NotChecked else
          Bool(ScopeHeld(loop.initialExecution) && ScopeHeld(loop.retestExecution)),
        noEgress := if !BrokersRendered(loop) then NotChecked else
          Bool(NoEgress(loop.initialExecution) && NoEgress(loop.retestExecution)),
        host := host,
        identity := if results == [] then NotChecked else Bool(forall r | r in results :: r.identityExact),
        callCeiling := if results == [] then NotChecked else Bool(calls.value <= MaxProviderCalls),
        tokenCeiling := WithinCeiling(Tokens(results), MaxProviderTokens)))
  }

  predicate Passes(loop: LoopRecord, host: HostChecks) {
    ChecksOf(loop, host).Some? && ChecksOf(loop, host).value.AllHold()
  }
}
