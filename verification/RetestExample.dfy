/** A concrete run of the adaptive-retest loop that its verdict passes. */
module RetestExample {
  import opened Wrappers
  import opened Digests
  import opened ProviderUsage
  import opened CampaignBudget
  import opened ModelStep
  import opened RemediationController
  import opened RetestEvidence
  import opened AdaptiveRetest
  import opened RetestTheorems

  /** Every step ends OK after one call of a hundred tokens. */
  function Answered(recommendation: Option<Recommendation>): StepResult {
    StepResult("OK", Num(1), Num(100), true, true, recommendation)
  }

  function RunAt(evidenceAt: int): Run {
    Run(TargetRef, true, true, [Probe("BASELINE_PROBE", 403), Probe("ALTERNATE_PROBE", 200)], evidenceAt)
  }

  /** The range goes from the vulnerable to the patched mode, with a new state and a new sentinel. */
  function Rotation(): Mutation {
    var before, after := Zeros(64), Zeros(63) + "1";
    Mutation("vulnerable", "patched", before, after, Some(1), Some(2), before, after)
  }

  lemma RotationIsAccepted()
    ensures MutationAccepted(Rotation()) && Rotation().oldEpoch.value <= Rotation().newEpoch.value
  {
    var before, after := Zeros(64), Zeros(63) + "1";
    assert before[63] == '0' && after[63] == '1';
  }

  /** Both workers run, the patch falls between them, and the verifier answers differ as they must. */
  function ExampleEnv(m: Mutation): Env {
    Env(leadId := "agjob-000000000000000a", reconId := "agjob-000000000000000b", retestId := "agjob-000000000000000c",
        delegationId := "adelg-0000000000000001", loopId := "loop-1", findingId := "finding-1",
        authorizationId := "auth-1", receiptId := "receipt-1",
        delegate := Some(Answered(None)), plan := Some(Answered(None)),
        recommend := Some(Answered(Some(Recommendation(UniformDetectionControl, true)))),
        retestPlan := Some(Answered(None)),
        initialExecution := Executed(RunAt(0)), retestExecution := Executed(RunAt(3)),
        initialVerify := VerifierAnswer(Some("CONFIRMED"), true, true, 0),
        retestVerify := VerifierAnswer(Some("PASS"), true, true, 0),
        staleVerify := VerifierAnswer(Some("INCONCLUSIVE"), true, true, 0),
        findingValid := true, projectionClean := true, retestProjectionClean := true,
        authorizedAt := 1, appliedAt := 2, mutation := m)
  }

  /** The account the phase opens. */
  const Limits := Opened(MaxProviderCalls, MaxProviderTokens, PerTaskOutputCeiling)

  /** Under these limits a step is admitted exactly while fewer than four calls are recorded and at most
      7,904 tokens, which leaves a whole output ceiling. */
  lemma LimitsAdmitIff(calls: int, tokens: int)
    ensures Limits.(calls := calls, tokens := tokens).CanStart().Allowed? <==> calls < 4 && tokens <= 7_904
  {
  }

  lemma {:induction false} ExampleAccount(m: Mutation, k: nat)
    requires k <= 4
    ensures AccountAt(ExampleEnv(m), Limits, k) == Limits.(calls := k, tokens := 100 * k)
  {
    if k > 0 {
      ExampleAccount(m, k - 1);
    }
  }

  lemma ExampleStepsPass(m: Mutation, k: nat)
    requires k < 4
    ensures StepPassed(ExampleEnv(m), Limits, k)
  {
    ExampleAccount(m, k);
  }

  lemma ExampleConcludes(m: Mutation)
    requires MutationAccepted(m)
    ensures ExitOf(ExampleEnv(m), Limits) == Concluded
  {
    ExampleStepsPass(m, 0);
    ExampleStepsPass(m, 1);
    ExampleStepsPass(m, 2);
    ExampleStepsPass(m, 3);
    var env := ExampleEnv(m);
    assert env.leadId[21] != env.reconId[21] && env.leadId[21] != env.retestId[21]
      && env.reconId[21] != env.retestId[21];
  }

  lemma BothProbesRan(evidenceAt: int)
    ensures GoodRun(RunAt(evidenceAt))
  {
    var probes := RunAt(evidenceAt).probes;
    assert FirstAnswered(probes, "BASELINE_PROBE", 0);
    assert FirstAnswered(probes, "ALTERNATE_PROBE", 1);
  }

  lemma ExampleTotals(m: Mutation)
    ensures TotalCalls(Answers(ExampleEnv(m))) == Some(4) && Sum(TokenReports(ExampleEnv(m))) == 400
  {
    var env := ExampleEnv(m);
    assert CallReports(Answers(env)) == [Num(1), Num(1), Num(1), Num(1)];
    assert TokenReports(env) == [Num(100), Num(100), Num(100), Num(100)];
    CallsOfOne(CallReports(Answers(env)));
    SumOfEqual(TokenReports(env), 100);
  }

  lemma ExampleIsGood(m: Mutation)
    requires MutationAccepted(m) && m.oldEpoch.value <= m.newEpoch.value
    ensures GoodAnswers(ExampleEnv(m))
  {
    BothProbesRan(0);
    BothProbesRan(3);
    ExampleTotals(m);
  }

  lemma GoodRunPasses(env: Env, a: Account, host: HostChecks)
    requires ExitOf(env, a).Concluded? && GoodAnswers(env) && HostHolds(host)
    ensures Passes(RecordOf(env, a), host)
  {
    ConcludedPassesIff(env, a, host);
  }

  /** Under the phase's own limits a run passes that made four calls and used four hundred tokens,
      whatever accepted mutation the range reports. */
  lemma ExamplePasses(m: Mutation, host: HostChecks)
    requires HostHolds(host) && MutationAccepted(m) && m.oldEpoch.value <= m.newEpoch.value
    ensures ExitOf(ExampleEnv(m), Limits).Concluded? && Passes(RecordOf(ExampleEnv(m), Limits), host)
    ensures AccountOf(ExampleEnv(m), Limits) == Limits.(calls := 4, tokens := 400)
  {
    ExampleConcludes(m);
    ExampleIsGood(m);
    GoodRunPasses(ExampleEnv(m), Limits, host);
    ConcludedRunStartsFour(ExampleEnv(m), Limits);
    ExampleAccount(m, 4);
  }
}
