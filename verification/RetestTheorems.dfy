/** What every run of the adaptive-retest loop guarantees, and what its verdict means. */
module RetestTheorems {
  import opened Wrappers
  import opened Trails
  import opened ProviderUsage
  import opened CampaignBudget
  import opened AgentQueue
  import opened ModelStep
  import opened RemediationLedger
  import opened RemediationController
  import opened RetestEvidence
  import opened AdaptiveRetest

  /** The four step answers of a run that passed all four gates. */
  function Answers(env: Env): seq<StepResult>
    requires env.delegate.Some? && env.plan.Some? && env.recommend.Some? && env.retestPlan.Some?
  {
    [env.delegate.value, env.plan.value, env.recommend.value, env.retestPlan.value]
  }

  function TokenReports(env: Env): seq<Reported>
    requires env.delegate.Some? && env.plan.Some? && env.recommend.Some? && env.retestPlan.Some?
  {
    [env.delegate.value.tokens, env.plan.value.tokens, env.recommend.value.tokens, env.retestPlan.value.tokens]
  }

  lemma ResultsOfConcludedRun(env: Env, a: Account)
    requires ExitOf(env, a).Concluded?
    ensures ModelResults(RecordOf(env, a)) == Answers(env)
    ensures Tokens(Answers(env)) == TokenReports(env)
  {
  }

  /** Everything a concluded run still needs for its verdict: both workers ran both probes inside
      the authorized scope, the recommendation stayed a recommendation, the retest verifier passed
      fresh evidence without traffic of its own and did not pass the stale one, the patch lies
      between the two pieces of evidence, and the four calls fit the ceilings with exact usage. */
  predicate GoodAnswers(env: Env)
    requires env.delegate.Some? && env.plan.Some? && env.recommend.Some? && env.retestPlan.Some?
    requires env.recommend.value.recommendation.Some?
    requires env.initialExecution.Executed? && env.retestExecution.Executed? && PatchAccepted(env)
  {
    && GoodRun(env.initialExecution.run) && GoodRun(env.retestExecution.run)
    && env.recommend.value.recommendation.value.profileId != ""
    && env.recommend.value.recommendation.value.nonAuthoritative
    && env.retestVerify.status == Some("PASS") && env.staleVerify.status != Some("PASS")
    && env.retestVerify.baselineDenied && env.retestVerify.generatedNoTraffic && env.retestVerify.probeRequests == 0
    && env.initialExecution.run.evidenceAt < env.appliedAt < env.retestExecution.run.evidenceAt
    && env.mutation.oldEpoch.value <= env.mutation.newEpoch.value
    && (forall r | r in Answers(env) :: r.identityExact)
    && TotalCalls(Answers(env)).Some? && TotalCalls(Answers(env)).value <= 4
    && (forall t | t in TokenReports(env) :: t.Num?) && Sum(TokenReports(env)) <= 12_000
  }

  /** The first probe of the name is there and was answered. */
  predicate FirstAnswered(probes: seq<Probe>, name: string, i: nat) {
    && i < |probes| && probes[i].name == name && probes[i].statusCode > 0
    && forall k | 0 <= k < i :: probes[k].name != name
  }

  predicate BothAnswered(run: Run) {
    && (exists i | 0 <= i < |run.probes| :: FirstAnswered(run.probes, "BASELINE_PROBE", i))
    && (exists i | 0 <= i < |run.probes| :: FirstAnswered(run.probes, "ALTERNATE_PROBE", i))
  }

  /** Both probes were answered, and the run stayed inside the authorized scope. */
  predicate GoodRun(run: Run) {
    && BothAnswered(run)
    && run.targetRef == "range-ops" && run.routesRelative && run.onRangeAccess
  }

  lemma {:induction false} ProbeOfIsFirst(probes: seq<Probe>, name: string)
    ensures ProbeOf(probes, name).Some? && ProbeOf(probes, name).value.statusCode > 0
       <==> exists i | 0 <= i < |probes| :: FirstAnswered(probes, name, i)
  {
    if probes != [] {
      var rest := probes[1..];
      ProbeOfIsFirst(rest, name);
      if probes[0].name == name {
        assert probes[0].statusCode > 0 ==> FirstAnswered(probes, name, 0);
      } else {
        forall i | 0 <= i < |rest|
          ensures FirstAnswered(rest, name, i) <==> FirstAnswered(probes, name, i + 1)
        {
          assert forall k | 1 <= k < i + 1 :: probes[k] == rest[k - 1];
          assert forall k | 0 <= k < i :: rest[k] == probes[k + 1];
        }
        if i :| 0 <= i < |probes| && FirstAnswered(probes, name, i) {
          assert FirstAnswered(rest, name, i - 1);
        }
      }
    }
  }

  predicate Contained(run: Run) {
    run.targetRef == TargetRef && run.routesRelative && run.onRangeAccess
  }

  lemma GoodRunIff(run: Run)
    ensures GoodRun(run) <==> BothProbesExecuted(run) && Contained(run)
  {
    ProbeOfIsFirst(run.probes, "BASELINE_PROBE");
    ProbeOfIsFirst(run.probes, "ALTERNATE_PROBE");
  }

  /** The job was claimed, and the note's address resolves to it. */
  predicate JobTaken(note: JobNote, prefix: string) {
    prefix <= note.address && note.claimedStatus.Claimed? && note.resolved
  }

  /** The record of a loop that went all the way: both jobs taken and the recon job from the delegation,
      the initial execution confirmed, a recommendation, the controller's own selection authorized and
      applied with a changed state and a rotated sentinel, the retest job bound to the finding and to the
      patch's receipt, the receipt consumed and its replay blocked, and a conclusion. */
  predicate InOrder(loop: LoopRecord) {
    && loop.leadJob.Some? && JobTaken(loop.leadJob.value, "agentjob://LEAD_ORCHESTRATOR/")
    && loop.reconJob.Some? && JobTaken(loop.reconJob.value, "agentjob://RECON_AGENT/")
    && loop.reconFromDelegation == loop.delegationId
    && loop.initialExecution.Some? && loop.initialExecution.value.Executed?
    && loop.initialVerify.Some? && loop.initialVerify.value.status == Some("CONFIRMED")
    && loop.recommendStep.Some? && loop.recommendStep.value.Some?
    && loop.recommendStep.value.value.status == "OK" && loop.recommendStep.value.value.recommendation.Some?
    && loop.authorization.Some? && loop.authorization.value.selectedId == "enforce_uniform_detection_control_v1"
    && loop.authorization.value.validAtIssue && loop.authorization.value.stateAfter.PatchAuthorized?
    && loop.patch.Some? && loop.patch.value.Patched? && loop.patch.value.stateAfter.RetestQueued?
    && loop.patch.value.stateChanged && loop.patch.value.sentinelRotated
    && loop.retestJob.Some? && JobTaken(loop.retestJob.value.job, "agentjob://RECON_AGENT/")
    && loop.retestJob.value.binding.Some?
    && Some(loop.retestJob.value.binding.value.findingId) == loop.findingId
    && loop.retestJob.value.binding.value.receiptId == loop.patch.value.receiptId
    && loop.retestJob.value.receiptConsumed && loop.retestJob.value.replayBlocked
    && loop.retestExecution.Some? && loop.retestExecution.value.Executed?
    && loop.conclusion.Some?
  }

  /** The retest was passed on fresh evidence by a verifier without traffic of its own, not passed on the
      stale evidence, and proven. */
  predicate GoodConclusion(c: Conclusion) {
    && c.verify.status == Some("PASS") && c.staleStatus != Some("PASS")
    && c.verify.baselineDenied && c.verify.generatedNoTraffic && c.verify.probeRequests == 0
    && c.proof == Proof(true, true, true, true, true, true, true, true)
  }

  /** The recorded answers the verdict has to count: those that parsed and ended OK. */
  function Kept(steps: seq<Option<Step>>): seq<StepResult> {
    if steps == [] then []
    else (if steps[0].Some? && steps[0].value.Some? && steps[0].value.value.status == "OK"
          then [steps[0].value.value] else [])
         + Kept(steps[1..])
  }

  predicate GoodResults(rs: seq<StepResult>) {
    && (forall r | r in rs :: r.identityExact)
    && CallTotal(CallReports(rs)).Some? && CallTotal(CallReports(rs)).value <= 4
    && (forall r | r in rs :: r.tokens.Num?) && Sum(Tokens(rs)) <= 12_000
  }

  /** The results are, in step order, exactly the kept answers. */
  lemma ResultsAreKept(loop: LoopRecord)
    ensures ModelResults(loop)
         == Kept([loop.delegateStep, loop.planStep, loop.recommendStep, loop.retestPlanStep])
  {
    var s := [loop.delegateStep, loop.planStep, loop.recommendStep, loop.retestPlanStep];
    assert s[1..][1..][1..][1..] == [];
    assert Kept(s[1..][1..][1..]) == OkResult(s[3]);
    assert Kept(s[1..][1..]) == OkResult(s[2]) + OkResult(s[3]);
    assert Kept(s[1..]) == OkResult(s[1]) + (OkResult(s[2]) + OkResult(s[3]));
  }

  /** A record passes, whatever wrote it, exactly if every host check holds, it is in order, both runs and
      the conclusion are good, the recommendation names a profile and claims no authority, and the kept
      answers are good. */
  lemma RecordPassesIff(loop: LoopRecord, host: HostChecks)
    ensures Passes(loop, host) <==>
      && host == HostChecks(Holds, Holds, Holds, Holds)
      && InOrder(loop) && GoodConclusion(loop.conclusion.value)
      && GoodRun(loop.initialExecution.value.run) && GoodRun(loop.retestExecution.value.run)
      && loop.recommendStep.value.value.recommendation.value.profileId != ""
      && loop.recommendStep.value.value.recommendation.value.nonAuthoritative
      && GoodResults(Kept([loop.delegateStep, loop.planStep, loop.recommendStep, loop.retestPlanStep]))
  {
    JobPrefixes("");
    ResultsAreKept(loop);
    ResultsGoodIff(ModelResults(loop));
    if InOrder(loop) {
      GoodRunIff(loop.initialExecution.value.run);
      GoodRunIff(loop.retestExecution.value.run);
      InOrderPassesIff(loop, host);
    } else {
      OutOfOrderNeverPasses(loop, host);
    }
  }

  lemma ResultsGoodIff(rs: seq<StepResult>)
    ensures rs != [] ==> (GoodResults(rs) <==>
      && (forall r | r in rs :: r.identityExact)
      && TotalCalls(rs).Some? && TotalCalls(rs).value <= MaxProviderCalls
      && WithinCeiling(Tokens(rs), MaxProviderTokens).Holds?)
  {
    WithinCeilingHoldsIff(Tokens(rs), MaxProviderTokens);
    var ts := Tokens(rs);
    if forall t | t in ts :: t.Num? {
      forall r | r in rs ensures r.tokens.Num? {
        var i :| 0 <= i < |rs| && rs[i] == r;
        assert ts[i] in ts;
      }
    }
  }

  lemma OutOfOrderNeverPasses(loop: LoopRecord, host: HostChecks)
    requires !InOrder(loop)
    ensures !Passes(loop, host)
  {
    JobPrefixes("");
  }

  lemma InOrderPassesIff(loop: LoopRecord, host: HostChecks)
    requires InOrder(loop)
    ensures var c := loop.conclusion.value;
      var rec := loop.recommendStep.value.value.recommendation.value;
      var results := ModelResults(loop);
      Passes(loop, host) <==>
        && host == HostChecks(Holds, Holds, Holds, Holds)
        && BothProbesExecuted(loop.initialExecution.value.run) && BothProbesExecuted(loop.retestExecution.value.run)
        && Contained(loop.initialExecution.value.run) && Contained(loop.retestExecution.value.run)
        && rec.profileId != "" && rec.nonAuthoritative && GoodConclusion(c)
        && results != [] && (forall r | r in results :: r.identityExact)
        && TotalCalls(results).Some? && TotalCalls(results).value <= MaxProviderCalls
        && WithinCeiling(Tokens(results), MaxProviderTokens).Holds?
  {
    JobPrefixes("");
  }

  lemma ConcludedIsInOrder(env: Env, a: Account)
    requires ExitOf(env, a).Concluded?
    ensures InOrder(RecordOf(env, a))
  {
    JobPrefixes("");
    NotesAreGood(LeadJob(env), true);
    NotesAreGood(ReconJob(env), true);
    NotesAreGood(RetestJob(env), true);
  }

  lemma ConcludedEntries(env: Env, a: Account)
    requires ExitOf(env, a).Concluded?
    ensures var loop := RecordOf(env, a);
      && loop.conclusion == Some(ConclusionOf(env)) && loop.recommendStep == Some(env.recommend)
      && loop.initialExecution == Some(env.initialExecution) && loop.retestExecution == Some(env.retestExecution)
  {
  }

  /** The token check over a concluded run's four answers. */
  lemma AnswersWithinCeiling(env: Env)
    requires env.delegate.Some? && env.plan.Some? && env.recommend.Some? && env.retestPlan.Some?
    ensures WithinCeiling(Tokens(Answers(env)), MaxProviderTokens).Holds?
       <==> (forall t | t in TokenReports(env) :: t.Num?) && Sum(TokenReports(env)) <= MaxProviderTokens
  {
    assert Tokens(Answers(env)) == TokenReports(env);
    WithinCeilingHoldsIff(TokenReports(env), MaxProviderTokens);
  }

  lemma EntriesPassIff(env: Env, loop: LoopRecord, host: HostChecks)
    requires env.delegate.Some? && env.plan.Some? && env.recommend.Some? && env.retestPlan.Some?
    requires env.recommend.value.recommendation.Some?
    requires env.initialExecution.Executed? && env.retestExecution.Executed? && PatchAccepted(env)
    requires InOrder(loop) && ModelResults(loop) == Answers(env)
    requires loop.conclusion == Some(ConclusionOf(env)) && loop.recommendStep == Some(env.recommend)
    requires loop.initialExecution == Some(env.initialExecution) && loop.retestExecution == Some(env.retestExecution)
    ensures Passes(loop, host) <==> host == HostChecks(Holds, Holds, Holds, Holds) && GoodAnswers(env)
  {
    InOrderPassesIff(loop, host);
    GoodRunIff(env.initialExecution.run);
    GoodRunIff(env.retestExecution.run);
    AnswersWithinCeiling(env);
    ProofHoldsIff(env);
  }

  lemma ConcludedPassesIff(env: Env, a: Account, host: HostChecks)
    requires ExitOf(env, a).Concluded?
    ensures Passes(RecordOf(env, a), host) <==> host == HostChecks(Holds, Holds, Holds, Holds) && GoodAnswers(env)
  {
    ConcludedIsInOrder(env, a);
    ConcludedEntries(env, a);
    ResultsOfConcludedRun(env, a);
    EntriesPassIff(env, RecordOf(env, a), host);
  }

  /** The verdict over every run, exactly: it passes if and only if the run reached its conclusion
      and every answer on the way was good. In particular no early return passes. */
  lemma VerdictPassesIff(env: Env, a: Account, host: HostChecks)
    requires !ExitOf(env, a).Raised?
    ensures Passes(RecordOf(env, a), host)
       <==> ExitOf(env, a).Concluded? && host == HostChecks(Holds, Holds, Holds, Holds) && GoodAnswers(env)
  {
    if ExitOf(env, a).Concluded? {
      ConcludedPassesIff(env, a, host);
    } else {
      UnfinishedNeverPasses(RecordOf(env, a), host);
    }
  }

  lemma UnfinishedNeverPasses(loop: LoopRecord, host: HostChecks)
    requires loop.conclusion.None?
    ensures !Passes(loop, host)
  {
  }

  /** Of the eight clauses of the causal proof only the order of the evidence and of the sentinel
      epochs is left to the environment; the run itself establishes the others. */
  lemma ProofHoldsIff(env: Env)
    requires env.initialExecution.Executed? && PatchAccepted(env) && env.retestExecution.Executed?
    ensures ConclusionOf(env).proof.All()
       <==> env.initialExecution.run.evidenceAt < env.appliedAt < env.retestExecution.run.evidenceAt
            && env.mutation.oldEpoch.value <= env.mutation.newEpoch.value
  {
    var l := LedgerAt(env, 7);
    assert env.receiptId in l.receipts && l.receipts[env.receiptId].consumed;
  }

  lemma ConcludedStepsOk(env: Env, a: Account)
    requires ExitOf(env, a).Concluded?
    ensures forall k: nat | k < 4 :: StepOk(Answer(env, k))
  {
  }

  lemma TotalOfAnswers(env: Env, loop: LoopRecord)
    requires env.delegate.Some? && env.plan.Some? && env.recommend.Some? && env.retestPlan.Some?
    requires ModelResults(loop) == Answers(env) && forall t | t in TokenReports(env) :: t.Num?
    ensures TokensTotal(loop) == Known(Sum(TokenReports(env)))
  {
    assert Tokens(Answers(env)) == TokenReports(env);
    KnownTotal(TokenReports(env));
  }

  lemma ConcludedTotal(env: Env, a: Account)
    requires ExitOf(env, a).Concluded? && GoodAnswers(env)
    ensures TokensTotal(RecordOf(env, a)) == Known(Sum(TokenReports(env)))
  {
    ResultsOfConcludedRun(env, a);
    TotalOfAnswers(env, RecordOf(env, a));
  }

  /** What a passing verdict says about the record: the run concluded, all four calls ended OK, and
      all four are in the totals. */
  lemma PassingRunCounted(env: Env, a: Account, host: HostChecks)
    requires !ExitOf(env, a).Raised? && Passes(RecordOf(env, a), host)
    ensures ExitOf(env, a).Concluded?
    ensures forall k: nat | k < 4 :: StepOk(Answer(env, k))
    ensures ModelResults(RecordOf(env, a)) == Answers(env)
    ensures TokensTotal(RecordOf(env, a)) == Known(Sum(TokenReports(env)))
    ensures Sum(TokenReports(env)) <= MaxProviderTokens
  {
    VerdictPassesIff(env, a, host);
    ConcludedStepsOk(env, a);
    ResultsOfConcludedRun(env, a);
    ConcludedTotal(env, a);
  }

  lemma PassingRunEndsInPass(env: Env, a: Account, host: HostChecks)
    requires !ExitOf(env, a).Raised? && Passes(RecordOf(env, a), host)
    ensures ExitOf(env, a).Concluded? && ConclusionOf(env).finalState == RetestPass
  {
    VerdictPassesIff(env, a, host);
    ProofHoldsIff(env);
  }

  /** The receipt a run files: the mutation's evidence, the authorized scope and the run's own ids. */
  function FiledReceipt(env: Env): Receipt
    requires env.mutation.oldEpoch.Some? && env.mutation.newEpoch.Some?
  {
    var m := env.mutation;
    Receipt(
      id := env.receiptId, loopId := env.loopId, findingId := env.findingId, authorizationId := env.authorizationId,
      targetRef := "range-ops", scenarioId := "ops-detection-control-bypass-v1",
      preDigest := m.preDigest, postDigest := m.postDigest,
      oldEpoch := m.oldEpoch.value, oldSentinel := m.oldSentinel,
      newEpoch := m.newEpoch.value, newSentinel := m.newSentinel,
      appliedAt := env.appliedAt)
  }

  /** What it says about the ledger: the loop went the whole way to RETEST_PASS, and its one receipt
      holds the mutation's evidence, is bound to the finding, spent, and refused for ever. */
  lemma PassingRunProven(env: Env, a: Account, host: HostChecks)
    requires !ExitOf(env, a).Raised? && Passes(RecordOf(env, a), host)
    ensures StatesOf(LedgerOf(env, a).trail, env.loopId)
         == [InitialExecutionPending, InitialConfirmed, RemediationRecommended, PatchAuthorized, PatchApplied,
             RetestQueued, RetestRunning, RetestPass]
    ensures ExitOf(env, a).Concluded?
    ensures LedgerOf(env, a).receipts == map[env.receiptId := ReceiptRow(FiledReceipt(env), true)]
    ensures ConsumeReceipt(LedgerOf(env, a), env.receiptId) == Err(ReceiptAlreadyConsumed)
    ensures LedgerOf(env, a).bindings == map[env.retestId := Binding(env.loopId, env.findingId, env.receiptId)]
  {
    PassingRunEndsInPass(env, a, host);
    PassedLedger(env, a);
  }

  lemma PassedLedger(env: Env, a: Account)
    requires ExitOf(env, a).Concluded? && ConclusionOf(env).finalState == RetestPass
    ensures StatesOf(LedgerOf(env, a).trail, env.loopId)
         == [InitialExecutionPending, InitialConfirmed, RemediationRecommended, PatchAuthorized, PatchApplied,
             RetestQueued, RetestRunning, RetestPass]
    ensures LedgerOf(env, a).receipts == map[env.receiptId := ReceiptRow(FiledReceipt(env), true)]
    ensures ConsumeReceipt(LedgerOf(env, a), env.receiptId) == Err(ReceiptAlreadyConsumed)
    ensures LedgerOf(env, a).bindings == map[env.retestId := Binding(env.loopId, env.findingId, env.receiptId)]
  {
    ConcludedLedger(env, a);
    ConcludedRecords(env, a);
  }

  lemma ConcludedRecords(env: Env, a: Account)
    requires ExitOf(env, a).Concluded?
    ensures LedgerOf(env, a).receipts == map[env.receiptId := ReceiptRow(FiledReceipt(env), true)]
    ensures LedgerOf(env, a).bindings == map[env.retestId := Binding(env.loopId, env.findingId, env.receiptId)]
  {
  }

  lemma PassedStates(env: Env, a: Account)
    requires ExitOf(env, a).Concluded? && ConclusionOf(env).finalState == RetestPass
    ensures StatesLeft(env, a) == HappyPrefix(RetestPass)
  {
    assert Ended(env, a) == Some(RetestPass);
  }

  lemma ConcludedLedger(env: Env, a: Account)
    requires ExitOf(env, a).Concluded? && ConclusionOf(env).finalState == RetestPass
    ensures StatesOf(LedgerOf(env, a).trail, env.loopId) == HappyPrefix(RetestPass)
    ensures ConsumeReceipt(LedgerOf(env, a), env.receiptId) == Err(ReceiptAlreadyConsumed)
    ensures LedgerOf(env, a).bindings == map[env.retestId := Binding(env.loopId, env.findingId, env.receiptId)]
  {
    LedgerLeftIsLegal(env, a);
    ConcludedRecords(env, a);
    PassedStates(env, a);
  }

  /** What it says about the budget: the tracker, started at zero, agrees with the reported token
      total, which is within the ceiling. */
  lemma PassingRunSettled(env: Env, a: Account, host: HostChecks)
    requires !ExitOf(env, a).Raised? && Passes(RecordOf(env, a), host) && a.tokens == 0
    ensures TokensTotal(RecordOf(env, a)) == Known(AccountOf(env, a).tokens)
    ensures AccountOf(env, a).tokens <= MaxProviderTokens
  {
    PassingRunCounted(env, a, host);
    TrackerOfConcludedRun(env, a);
  }

  lemma AccountTokens(env: Env, a: Account, k: nat)
    ensures AccountAt(env, a, k + 1).tokens == AccountAt(env, a, k).tokens + Figure(UsageOf(Answer(env, k)).tokens)
  {
  }

  /** After a run that started all four steps the tracker holds exactly the numbers they reported. */
  lemma TrackerOfConcludedRun(env: Env, a: Account)
    requires ExitOf(env, a).Concluded?
    ensures AccountOf(env, a).tokens == a.tokens + Sum(TokenReports(env))
  {
    var r := TokenReports(env);
    assert r == [env.delegate.value.tokens] + ([env.plan.value.tokens]
                                               + ([env.recommend.value.tokens] + [env.retestPlan.value.tokens]));
    SumOfConcat([env.recommend.value.tokens], [env.retestPlan.value.tokens]);
    SumOfConcat([env.plan.value.tokens], [env.recommend.value.tokens] + [env.retestPlan.value.tokens]);
    SumOfConcat([env.delegate.value.tokens], r[1..]);
    AccountTokens(env, a, 0);
    AccountTokens(env, a, 1);
    AccountTokens(env, a, 2);
    AccountTokens(env, a, 3);
  }

  // ------------------------------------------------------------------ what every exit leaves

  lemma HappyPrefixIsLegal(s: State)
    requires s !in Fallbacks
    ensures LegalPath(HappyPrefix(s)) && HappyPrefix(s)[|HappyPrefix(s)| - 1] == s
  {
  }

  lemma HappyPrefixExtends(from: State, s: State)
    requires from !in Fallbacks && s in ValidTransitions(from)
    ensures LegalPath(HappyPrefix(from) + [s])
  {
    HappyPrefixIsLegal(from);
    OneMoreState(HappyPrefix(from), s);
  }

  lemma EndsAreLegalSteps(env: Env, a: Account)
    requires !ExitOf(env, a).Raised?
    ensures Ended(env, a).Some? ==> Ended(env, a).value in ValidTransitions(Reached(env, a))
  {
  }

  lemma StatesLeftAreLegal(env: Env, a: Account)
    requires !ExitOf(env, a).Raised?
    ensures LegalPath(StatesLeft(env, a))
  {
    EndsAreLegalSteps(env, a);
    HappyPrefixIsLegal(Reached(env, a));
    if Ended(env, a).Some? {
      HappyPrefixExtends(Reached(env, a), Ended(env, a).value);
    }
  }

  /** The ledger a run leaves is a legal one, and the states of its loop are exactly those listed
      for the exit. */
  lemma LedgerLeftIsLegal(env: Env, a: Account)
    requires !ExitOf(env, a).Raised?
    ensures StatesOf(LedgerOf(env, a).trail, env.loopId) == StatesLeft(env, a)
    ensures LegalPath(StatesLeft(env, a))
  {
    StatesOfMoves(env.loopId, StatesLeft(env, a));
    StatesLeftAreLegal(env, a);
    assert LedgerOf(env, a).trail == Moves(env.loopId, StatesLeft(env, a));
  }

  lemma JobsLeft(env: Env, rank: nat)
    requires rank >= 2 ==> env.leadId != env.reconId
    requires (rank >= 7 ==> env.retestId != env.leadId && env.retestId != env.reconId)
    ensures var t := TablesAt(env, rank);
      && env.leadId in t.jobs && (t.jobs[env.leadId].status.Closed? <==> rank >= 4)
      && (env.reconId in t.jobs && t.jobs[env.reconId].status.Closed? <==> rank >= 4)
      && (rank >= 7 ==> env.retestId in t.jobs && (t.jobs[env.retestId].status.Closed? <==> rank >= 9))
  {
  }

  lemma LoopLeft(env: Env, a: Account)
    requires !ExitOf(env, a).Raised?
    ensures env.loopId in LedgerOf(env, a).loops
    ensures var s := LedgerOf(env, a).loops[env.loopId];
      && (s in {RetestPass, RetestFail, Incomplete} <==> Rank(ExitOf(env, a)) >= 4 && !StoppedByBudget(env, a))
      && (s.RetestPass? ==> ExitOf(env, a).Concluded?)
      && (s.Incomplete? <==> var e := ExitOf(env, a);
            e.NotConfirmed? || e.PatchRefused? || (e.RecommendFailed? && !StoppedByBudget(env, a)))
      && (s.RetestFail? <==> var e := ExitOf(env, a);
            || e.RetestRejected? || (e.RetestPlanFailed? && !StoppedByBudget(env, a))
            || (e.Concluded? && !s.RetestPass?))
  {
    if ExitOf(env, a).Concluded? {
      ConcludeHolds(env);
    }
  }

  /** Early exits do not clean up: the two initial jobs are closed exactly if the initial execution
      was adjudicated, the retest job exactly if the run concluded, and the ledger loop is left in
      an ended state exactly if the run got past the first verifier answer and was not stopped by
      the budget: in INCOMPLETE before the retest has started, in RETEST_FAIL from then on unless the
      conclusion passed. */
  lemma WhatExitsLeave(env: Env, a: Account)
    requires !ExitOf(env, a).Raised?
    ensures var e := ExitOf(env, a);
      var t := TablesAt(env, Rank(e));
      && (t.jobs[env.leadId].status.Closed? <==> Rank(e) >= 4)
      && (env.reconId in t.jobs && t.jobs[env.reconId].status.Closed? <==> Rank(e) >= 4)
      && (Rank(e) >= 7 ==> (t.jobs[env.retestId].status.Closed? <==> e.Concluded?))
    ensures var e := ExitOf(env, a);
      var s := LedgerOf(env, a).loops[env.loopId];
      && (s in {RetestPass, RetestFail, Incomplete} <==> Rank(e) >= 4 && !StoppedByBudget(env, a))
      && (s.RetestPass? ==> e.Concluded?)
      && (s.Incomplete? <==> e.NotConfirmed? || e.PatchRefused? || (e.RecommendFailed? && !StoppedByBudget(env, a)))
      && (s.RetestFail? <==> || e.RetestRejected? || (e.RetestPlanFailed? && !StoppedByBudget(env, a))
                             || (e.Concluded? && !s.RetestPass?))
  {
    JobsLeft(env, Rank(ExitOf(env, a)));
    LoopLeft(env, a);
  }

  /** Two environments that differ in nothing but the profile id the model recommends. */
  ghost predicate SameButForAdvice(env: Env, other: Env) {
    && env.recommend.Some? && env.recommend.value.recommendation.Some?
    && other.recommend.Some? && other.recommend.value.recommendation.Some?
    && other.recommend.value == env.recommend.value.(recommendation := other.recommend.value.recommendation)
    && other == env.(recommend := other.recommend)
  }

  /** The model's recommendation steers nothing: such environments give the same exit, and with it
      the same loop states, queue and budget. */
  lemma AdviceSteersNothing(env: Env, other: Env, a: Account)
    requires SameButForAdvice(env, other)
    ensures ExitOf(other, a) == ExitOf(env, a)
    ensures StatesLeft(other, a) == StatesLeft(env, a)
    ensures AccountOf(other, a) == AccountOf(env, a)
    ensures forall rank: nat :: TablesAt(other, rank) == TablesAt(env, rank)
  {
    forall k: nat
      ensures AccountAt(env, a, k) == AccountAt(other, a, k)
      ensures StepPassed(env, a, k) == StepPassed(other, a, k)
    {
      AccountsAgree(env, other, a, k);
    }
    ExitsAgree(env, other, a);
    if ExitOf(env, a).Concluded? {
      ProofHoldsIff(env);
      ProofHoldsIff(other);
    }
  }

  lemma ExitsAgree(env: Env, other: Env, a: Account)
    requires SameButForAdvice(env, other)
    requires forall k: nat :: StepPassed(env, a, k) == StepPassed(other, a, k)
    ensures ExitOf(other, a) == ExitOf(env, a)
  {
    assert Delegated(other, a) == Delegated(env, a);
    assert Planned(other, a) == Planned(env, a);
    assert ConfirmedRun(other, a) == ConfirmedRun(env, a);
    assert Recommended(other, a) == Recommended(env, a);
    assert RetestStarted(other, a) == RetestStarted(env, a);
  }

  lemma {:induction false} AccountsAgree(env: Env, other: Env, a: Account, k: nat)
    requires forall i: nat :: UsageOf(Answer(env, i)) == UsageOf(Answer(other, i))
    ensures AccountAt(env, a, k) == AccountAt(other, a, k)
  {
    if k > 0 {
      AccountsAgree(env, other, a, k - 1);
    }
  }

  // ------------------------------------------------------------------ the budget of a run

  /** What the started steps report, in order. */
  function Usages(env: Env, n: nat): (us: seq<Usage>)
    ensures |us| == n
  {
    if n == 0 then [] else Usages(env, n - 1) + [UsageOf(Answer(env, n - 1))]
  }

  lemma {:induction false} DriveToGate(env: Env, a: Account, k: nat)
    requires forall i: nat | i < k :: Admits(env, a, i)
    ensures Drive(a, Usages(env, k)) == AccountAt(env, a, k) && Admitted(a, Usages(env, k)) == k
  {
    if k > 0 {
      DriveToGate(env, a, k - 1);
      assert Admits(env, a, k - 1);
      DriveOneMore(a, Usages(env, k - 1), UsageOf(Answer(env, k - 1)));
    }
  }

  lemma {:induction false} DriveOneMore(a: Account, us: seq<Usage>, u: Usage)
    requires Admitted(a, us) == |us| && Drive(a, us).CanStart().Allowed?
    ensures Drive(a, us + [u]) == Drive(a, us).Record(u) && Admitted(a, us + [u]) == |us| + 1
    decreases |us|
  {
    if us == [] {
      assert us + [u] == [u] && [u][1..] == [];
      assert Drive(a, [u]) == Drive(a.Record(u), []) == a.Record(u);
      assert Admitted(a, [u]) == 1 + Admitted(a.Record(u), []);
    } else {
      assert (us + [u])[1..] == us[1..] + [u];
      DriveOneMore(a.Record(us[0]), us[1..], u);
    }
  }

  lemma StartedAreAdmitted(env: Env, a: Account)
    requires !ExitOf(env, a).Raised?
    ensures forall i: nat | i < Started(env, a) :: Admits(env, a, i)
  {
  }

  /** At every exit the campaign account is that of a gated run over the calls really started, so
      the bounds on gated runs apply: at most four calls, and at most the usage of the last one
      above what its gate had left. */
  lemma BudgetOverEveryRun(env: Env, a: Account)
    requires !ExitOf(env, a).Raised?
    ensures var us := Usages(env, Started(env, a));
      && |us| <= 4
      && Drive(a, us) == AccountOf(env, a) && Admitted(a, us) == |us|
      && (us != [] ==> AccountOf(env, a).tokens <= a.maxTokens - a.ceiling + Figure(us[|us| - 1].tokens))
  {
    StartedAreAdmitted(env, a);
    DriveToGate(env, a, Started(env, a));
    if Started(env, a) > 0 {
      TokensBoundedByLastCall(a, Usages(env, Started(env, a)));
    }
  }

  // ------------------------------------------------------------------ the tracker at every gate

  /** Which gates a run has reached, by its exit. */
  lemma GatesByExit(env: Env, a: Account)
    requires !ExitOf(env, a).Raised?
    ensures var rank := Rank(ExitOf(env, a));
      && ReachesGate(env, a, 0)
      && (ReachesGate(env, a, 1) <==> rank >= 2)
      && (ReachesGate(env, a, 2) <==> rank >= 5)
      && (ReachesGate(env, a, 3) <==> rank >= 7)
  {
  }

  /** What the steps before gate `k` report. */
  function EarlierTokens(env: Env, k: nat): (ts: seq<Reported>)
    ensures |ts| == k
  {
    if k == 0 then [] else EarlierTokens(env, k - 1) + [UsageOf(Answer(env, k - 1)).tokens]
  }

  lemma {:induction false} EarlierTokensAt(env: Env, k: nat)
    ensures (forall t | t in EarlierTokens(env, k) :: t.Num?)
       <==> forall i: nat | i < k :: UsageOf(Answer(env, i)).tokens.Num?
  {
    if k > 0 {
      EarlierTokensAt(env, k - 1);
      var last := UsageOf(Answer(env, k - 1)).tokens;
      assert last in EarlierTokens(env, k);
      assert forall t | t in EarlierTokens(env, k) :: t in EarlierTokens(env, k - 1) || t == last;
      assert forall t | t in EarlierTokens(env, k - 1) :: t in EarlierTokens(env, k);
    }
  }

  lemma {:induction false} AccountIsSum(env: Env, a: Account, k: nat)
    ensures AccountAt(env, a, k).tokens == a.tokens + Sum(EarlierTokens(env, k))
  {
    if k > 0 {
      AccountIsSum(env, a, k - 1);
      AccountTokens(env, a, k - 1);
      var last := UsageOf(Answer(env, k - 1)).tokens;
      SumOfConcat(EarlierTokens(env, k - 1), [last]);
      assert [last][1..] == [];
    }
  }

  lemma TotalIsKnownIff(rs: seq<Reported>)
    ensures TotalOf(rs) == Known(Sum(rs)) <==> forall r | r in rs :: r.Num?
  {
    if forall r | r in rs :: r.Num? {
      KnownTotal(rs);
    }
  }

  /** Only accepted steps lie behind a gate: any other step has ended the run. */
  lemma EarlierStepsPassed(env: Env, a: Account, k: nat)
    requires ReachesGate(env, a, k)
    ensures k < 4 && forall i: nat | i < k :: Admits(env, a, i) && StepOk(Answer(env, i))
  {
  }

  /** At every gate a run reaches, all earlier steps were admitted and ended OK, the tracker is that of a
      gated run over exactly those steps, and it holds their exact usage if and only if each of them
      reported an integer. */
  lemma TrackerAtGate(env: Env, a: Account, k: nat)
    requires ReachesGate(env, a, k)
    ensures forall i: nat | i < k :: Admits(env, a, i) && StepOk(Answer(env, i))
    ensures Drive(a, Usages(env, k)) == AccountAt(env, a, k) && Admitted(a, Usages(env, k)) == k
    ensures TotalOf(EarlierTokens(env, k)) == Known(AccountAt(env, a, k).tokens - a.tokens)
       <==> forall i: nat | i < k :: UsageOf(Answer(env, i)).tokens.Num?
  {
    EarlierStepsPassed(env, a, k);
    DriveToGate(env, a, k);
    AccountIsSum(env, a, k);
    EarlierTokensAt(env, k);
    TotalIsKnownIff(EarlierTokens(env, k));
  }

  /** An accepted answer reports its tokens as an integer, as the step program writes it. */
  predicate OkReportsCount(env: Env) {
    forall i | 0 <= i < 4 :: StepOk(Answer(env, i)) ==> UsageOf(Answer(env, i)).tokens.Num?
  }

  /** So at every gate the tracker equals the exact usage of all earlier calls. */
  lemma TrackerIsExact(env: Env, a: Account, k: nat)
    requires ReachesGate(env, a, k) && OkReportsCount(env)
    ensures TotalOf(EarlierTokens(env, k)) == Known(AccountAt(env, a, k).tokens - a.tokens)
  {
    TrackerAtGate(env, a, k);
  }
}
