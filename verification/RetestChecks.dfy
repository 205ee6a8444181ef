/** What each check of the adaptive-retest verdict says about a record, whatever wrote it: a check whose
    evidence is missing is not checked, and never fails for that. */
module RetestChecks {
  import opened Wrappers
  import opened ProviderUsage
  import opened AgentQueue
  import opened ModelStep
  import opened RemediationLedger
  import opened RetestEvidence
  import opened RetestTheorems

  /** The verdict raises exactly if a counted call figure cannot be added up. */
  lemma VerdictRaisesIff(loop: LoopRecord, host: HostChecks)
    ensures ChecksOf(loop, host).None? <==> CallTotal(CallReports(ModelResults(loop))).None?
    ensures ChecksOf(loop, host).Some? ==> ChecksOf(loop, host).value.host == host
  {
  }

  /** Both initial jobs are checked once both are recorded. */
  lemma JobChecksMean(loop: LoopRecord, host: HostChecks)
    requires ChecksOf(loop, host).Some?
    ensures var c := ChecksOf(loop, host).value;
      if loop.leadJob.None? || loop.reconJob.None? then c.leadJob == c.reconJob == NotChecked
      else
        && c.leadJob == Bool(JobTaken(loop.leadJob.value, "agentjob://LEAD_ORCHESTRATOR/"))
        && c.reconJob == Bool(JobTaken(loop.reconJob.value, "agentjob://RECON_AGENT/")
                              && loop.reconFromDelegation == loop.delegationId)
  {
    JobPrefixes("");
  }

  function WorkerSays(e: Option<Execution>): Check {
    if e.Some? && e.value.Executed? then (if BothAnswered(e.value.run) then Holds else Fails) else NotChecked
  }

  lemma WorkerChecksMean(loop: LoopRecord, host: HostChecks)
    requires ChecksOf(loop, host).Some?
    ensures var c := ChecksOf(loop, host).value;
      && c.initialWorker == WorkerSays(loop.initialExecution)
      && c.retestWorker == WorkerSays(loop.retestExecution)
  {
    if loop.initialExecution.Some? && loop.initialExecution.value.Executed? {
      ProbeOfIsFirst(loop.initialExecution.value.run.probes, "BASELINE_PROBE");
      ProbeOfIsFirst(loop.initialExecution.value.run.probes, "ALTERNATE_PROBE");
    }
    if loop.retestExecution.Some? && loop.retestExecution.value.Executed? {
      ProbeOfIsFirst(loop.retestExecution.value.run.probes, "BASELINE_PROBE");
      ProbeOfIsFirst(loop.retestExecution.value.run.probes, "ALTERNATE_PROBE");
    }
  }

  /** The finding, the recommendation, and the controller's own choice. */
  lemma DecisionChecksMean(loop: LoopRecord, host: HostChecks)
    requires ChecksOf(loop, host).Some?
    ensures var c := ChecksOf(loop, host).value;
      && c.initialConfirmed == (if loop.initialVerify.None? || loop.initialVerify.value.status.None? then NotChecked
                                else Bool(loop.initialVerify.value.status.value == "CONFIRMED"))
      && (if loop.recommendStep.Some? && loop.recommendStep.value.Some?
             && loop.recommendStep.value.value.status == "OK" && loop.recommendStep.value.value.recommendation.Some?
          then
            var rec := loop.recommendStep.value.value.recommendation.value;
            && c.recommendationGenerated == Bool(rec.profileId != "")
            && c.recommendationNonAuthoritative == Bool(rec.nonAuthoritative)
          else c.recommendationGenerated == c.recommendationNonAuthoritative == NotChecked)
      && (if loop.authorization.None? then c.controllerSelected == c.authorizationValid == NotChecked
          else
            var note := loop.authorization.value;
            && c.controllerSelected == Bool(note.selectedId == "enforce_uniform_detection_control_v1"
                                            && note.stateAfter.PatchAuthorized?)
            && c.authorizationValid == Bool(note.validAtIssue))
  {
  }

  /** The patch and the retest's binding to it. */
  lemma PatchChecksMean(loop: LoopRecord, host: HostChecks)
    requires ChecksOf(loop, host).Some?
    ensures var c := ChecksOf(loop, host).value;
      if loop.patch.Some? && loop.patch.value.Patched?
      then
        && c.receiptPersisted == Bool(loop.patch.value.stateAfter.RetestQueued?)
        && c.patchChangedState == Bool(loop.patch.value.stateChanged)
        && c.sentinelRotated == Bool(loop.patch.value.sentinelRotated)
      else c.receiptPersisted == c.patchChangedState == c.sentinelRotated == NotChecked
    ensures var c := ChecksOf(loop, host).value;
      if loop.retestJob.None?
      then c.retestJob == c.retestBound == c.retestUsedReceipt == c.replayBlocked == NotChecked
      else
        var note := loop.retestJob.value;
        && c.retestJob == Bool(JobTaken(note.job, "agentjob://RECON_AGENT/"))
        && c.retestBound == Bool(note.binding.Some? && loop.findingId == Some(note.binding.value.findingId))
        && c.retestUsedReceipt == Bool(&& note.receiptConsumed && note.binding.Some?
                                       && loop.patch.Some? && loop.patch.value.Patched?
                                       && note.binding.value.receiptId == loop.patch.value.receiptId)
        && c.replayBlocked == Bool(note.replayBlocked)
  {
    JobPrefixes("");
  }

  /** The conclusion; what the verifier said is checked only if it has a status. */
  lemma ConclusionChecksMean(loop: LoopRecord, host: HostChecks)
    requires ChecksOf(loop, host).Some?
    ensures var c := ChecksOf(loop, host).value;
      if loop.conclusion.None?
      then
        && c.retestAfterPatch == c.staleBlocked == c.causalBreak == NotChecked
        && c.retestAdjudicated == c.verifierDidNotSubstitute == c.retestPass == NotChecked
      else
        var done := loop.conclusion.value;
        && c.retestAfterPatch == Bool(done.proof.retestFollowsPatch)
        && c.staleBlocked == Bool(done.staleStatus != Some("PASS"))
        && c.causalBreak == Bool(&& done.proof.initialPredatesPatch && done.proof.retestFollowsPatch
                                 && done.proof.sameTarget && done.proof.sameScenario && done.proof.sameFinding
                                 && done.proof.stateChanged && done.proof.sentinelRotated && done.proof.receiptConsumed)
        && (if done.verify.status.None?
            then c.retestAdjudicated == c.verifierDidNotSubstitute == c.retestPass == NotChecked
            else
              var status := done.verify.status.value;
              && c.retestAdjudicated == Bool((status == "PASS" || status == "CONFIRMED") && done.verify.baselineDenied)
              && c.verifierDidNotSubstitute == Bool(done.verify.generatedNoTraffic && done.verify.probeRequests == 0)
              && c.retestPass == Bool(status == "PASS"))
  {
  }

  /** Scope and egress are checked once some execution is recorded and none of them was rejected. */
  lemma ScopeChecksMean(loop: LoopRecord, host: HostChecks)
    requires ChecksOf(loop, host).Some?
    ensures var c, first, second := ChecksOf(loop, host).value, loop.initialExecution, loop.retestExecution;
      if (first.None? && second.None?) || (first.Some? && !first.value.Executed?)
        || (second.Some? && !second.value.Executed?)
      then c.scope == c.noEgress == NotChecked
      else
        && c.scope == Bool((first.Some? ==> first.value.run.targetRef == "range-ops")
                           && (second.Some? ==> second.value.run.targetRef == "range-ops"))
        && c.noEgress == Bool(&& first.Some? && first.value.run.routesRelative && first.value.run.onRangeAccess
                              && second.Some? && second.value.run.routesRelative && second.value.run.onRangeAccess)
  {
  }

  /** Without results the checks over them are unchecked. */
  lemma ResultChecksMean(loop: LoopRecord, host: HostChecks)
    requires ChecksOf(loop, host).Some?
    ensures var c, rs := ChecksOf(loop, host).value, ModelResults(loop);
      && rs == Kept([loop.delegateStep, loop.planStep, loop.recommendStep, loop.retestPlanStep])
      && (if rs == [] then c.identity == c.callCeiling == c.tokenCeiling == NotChecked
          else
            && c.identity == Bool(forall r | r in rs :: r.identityExact)
            && c.callCeiling == Bool(CallTotal(CallReports(rs)).value <= 4)
            && (c.tokenCeiling.Holds? <==> (forall t | t in Tokens(rs) :: t.Num?) && Sum(Tokens(rs)) <= 12_000))
  {
    ResultsAreKept(loop);
    WithinCeilingHoldsIff(Tokens(ModelResults(loop)), MaxProviderTokens);
  }
}
