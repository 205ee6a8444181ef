/** A concrete two-arm campaign of phase 2.2 that its verdict passes. */
module AdversaryExample {
  import opened Wrappers
  import opened ProviderUsage
  import opened CampaignBudget
  import opened AgentQueue
  import opened ModelStep
  import opened AdversaryCampaign
  import opened AdversaryVerdict

  /** The account the phase opens. */
  const Limits := Opened(MaxProviderCalls, MaxProviderTokens, PerTaskOutputCeiling)

  /** Every step ends OK after one call of a hundred tokens. */
  const Good := StepResult("OK", Num(1), Num(100), true, true, None)

  const Sequence := Broker(
    true, ProfileId, ProfileId, 2, 2, 1, "DENY", TargetRef,
    [BrokeredProbe(Baseline, "/api/ops/a"), BrokeredProbe(Alternate, "/api/ops/b")])

  const Output := TaskOutput(true, Domain, true, Capability, true)

  /** Both probes are answered; the alternate one is denied, or gets through to the sentinel. */
  function ProbedAs(denied: bool): Probing {
    Probed(Sequence, true,
           [ObservedProbe(Baseline, 403, true, false),
            ObservedProbe(Alternate, if denied then 403 else 200, denied, !denied)],
           true, Adjudication(Some(if denied then "PASS" else "CONFIRMED"), true, true, 0), true)
  }

  const Vulnerable := ModeEnv(
    "agjob-000000000000000a", "agjob-000000000000000b", "adelg-0000000000000001", Some(Good), Some(Good),
    ProbedAs(false))

  const Patched := ModeEnv(
    "agjob-000000000000000c", "agjob-000000000000000d", "adelg-0000000000000002", Some(Good), Some(Good),
    ProbedAs(true))

  lemma SequenceIsGood()
    ensures TwoProbeSequence(Sequence)
    ensures forall p | p in Sequence.probes :: "/api/ops/" <= p.route && NoScheme(p.route)
  {
  }

  lemma ProbesAreSeen(denied: bool)
    ensures var probes := ProbedAs(denied).probes;
      && Responded(probes, "BASELINE_PROBE") && SeenAs(probes, "BASELINE_PROBE", true, false)
      && Responded(probes, "ALTERNATE_PROBE") && SeenAs(probes, "ALTERNATE_PROBE", denied, !denied)
  {
    var probes := ProbedAs(denied).probes;
    assert IsFirst(probes, "BASELINE_PROBE", 0) && IsFirst(probes, "ALTERNATE_PROBE", 1);
  }

  lemma WorkIsGood(denied: bool)
    ensures GoodWork(ProbedAs(denied), denied, if denied then "PASS" else "CONFIRMED")
  {
    SequenceIsGood();
    ProbesAreSeen(denied);
  }

  lemma PairIsGood()
    ensures GoodPair(Vulnerable.execution, Patched.execution) && GoodSays(Output, Output)
  {
    WorkIsGood(false);
    WorkIsGood(true);
  }

  /** Under the phase's limits a step is admitted exactly while fewer than four calls are recorded and at
      most 7,904 tokens, which leaves a whole output ceiling. */
  lemma LimitsAdmitIff(calls: int, tokens: int)
    ensures Limits.(calls := calls, tokens := tokens).CanStart().Allowed? <==> calls < 4 && tokens <= 7_904
  {
  }

  lemma ResultsAreGood()
    ensures GoodResults([Good, Good, Good, Good])
  {
    var rs := [Good, Good, Good, Good];
    assert CallReports(rs) == [Num(1), Num(1), Num(1), Num(1)];
    assert Tokens(rs) == [Num(100), Num(100), Num(100), Num(100)];
    CallsOfOne(CallReports(rs));
    SumOfEqual(Tokens(rs), 100);
  }

  lemma ArmsReachTheirWorkers()
    ensures ReachesWorker(Vulnerable, Limits) && ModeAccount(Vulnerable, Limits) == Limits.(calls := 2, tokens := 200)
    ensures ReachesWorker(Patched, Limits.(calls := 2, tokens := 200))
  {
  }

  lemma NothingRaises()
    ensures !CampaignRaises(Vulnerable, Patched, EmptyTables, Limits)
  {
    ArmsReachTheirWorkers();
    var ids := [Vulnerable.leadId, Vulnerable.reconId, Patched.leadId, Patched.reconId];
    assert ids[0][21] == 'a' && ids[1][21] == 'b' && ids[2][21] == 'c' && ids[3][21] == 'd';
    assert Vulnerable.delegationId[21] != Patched.delegationId[21];
  }

  /** Under the phase's own limits this campaign passes on four calls and four hundred tokens. */
  lemma ExamplePasses(host: HostChecks)
    requires HostHolds(host)
    ensures !CampaignRaises(Vulnerable, Patched, EmptyTables, Limits)
    ensures Passes(JudgedOf(Vulnerable, Says(Output, Output), Limits),
                   SecondArm(Vulnerable, Patched, Says(Output, Output), Limits), host)
  {
    NothingRaises();
    ArmsReachTheirWorkers();
    PairIsGood();
    ResultsAreGood();
    VerdictPassesIff(Vulnerable, Patched, Says(Output, Output), Says(Output, Output), EmptyTables, Limits, host);
  }
}
