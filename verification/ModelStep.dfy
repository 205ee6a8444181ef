/** What the drivers get back when they start a model step or a brokered worker execution. */
module ModelStep {
  import opened Wrappers
  import opened ProviderUsage
  import opened CampaignBudget

  datatype Recommendation = Recommendation(profileId: string, nonAuthoritative: bool)

  /** The last output line of a model step, if it parses. */
  datatype StepResult = StepResult(
    status: string, calls: Reported, tokens: Reported, identityExact: bool,
    hasPlan: bool, recommendation: Option<Recommendation>)

  type Step = Option<StepResult>

  /** What is recorded in place of a step whose gate refused. */
  const BudgetStop := StepResult("BUDGET_STOP", Num(0), Num(0), false, false, None)

  predicate StepOk(s: Step) {
    s.Some? && s.value.status == "OK"
  }

  /** A step whose output does not parse reports nothing, so nothing is counted for it, and a total over it
      is not evaluated. */
  lemma LostStepReports(a: Account)
    ensures a.Record(UsageOf(None)) == a
    ensures TotalOf([UsageOf(None).tokens]) == NotEvaluated && CallTotal([UsageOf(None).calls]) == Some(0)
  {
    var tokens := [UsageOf(None).tokens];
    assert tokens[0] in tokens && !Tracked(tokens[0]);
    assert [UsageOf(None).calls][1..] == [];
  }

  function UsageOf(s: Step): Usage {
    if s.None? then Usage(Absent, Absent) else Usage(s.value.calls, s.value.tokens)
  }

  function Tokens(results: seq<StepResult>): (tokens: seq<Reported>)
    ensures |tokens| == |results| && forall i | 0 <= i < |results| :: tokens[i] == results[i].tokens
  {
    seq(|results|, i requires 0 <= i < |results| => results[i].tokens)
  }

  function CallReports(results: seq<StepResult>): (calls: seq<Reported>)
    ensures |calls| == |results| && forall i | 0 <= i < |results| :: calls[i] == results[i].calls
  {
    seq(|results|, i requires 0 <= i < |results| => results[i].calls)
  }

  datatype Probe = Probe(name: string, statusCode: int)

  datatype Run = Run(
    targetRef: string, routesRelative: bool, onRangeAccess: bool, probes: seq<Probe>, evidenceAt: int)

  /** A brokered worker execution: refused by the broker, ended by an exception, or run. */
  datatype Execution = BrokerRejected | ExecutionRaised | Executed(run: Run)
}
