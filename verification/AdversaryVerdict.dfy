/** The verdict on a two-arm adversary-simulation campaign, and what it means when it passes. */
module AdversaryVerdict {
  import opened Wrappers
  import opened ProviderUsage
  import opened CampaignBudget
  import opened AgentQueue
  import opened ModelStep
  import opened AdversaryCampaign

  const MaxProviderCalls := 4
  const MaxProviderTokens := 12_000
  const PerTaskOutputCeiling := 4096

  const TargetRef := "range-ops"
  const ProfileId := "http_detection_control_probe_v1"
  const Capability := "aegis.ops.detection_control_probe"
  const Domain := "ADVERSARY_SIMULATION"
  const Baseline := "BASELINE_PROBE"
  const Alternate := "ALTERNATE_PROBE"

  /** What a step's answer says beside its usage; read only where the step ran. */
  datatype TaskOutput = TaskOutput(
    unconfirmed: bool, domain: string, capabilityRegistered: bool, capability: string, projectionsClean: bool)

  /** An arm as it is judged: its record, with what its two steps said. */
  datatype Judged = Judged(record: ModeRecord, delegateSays: TaskOutput, planSays: TaskOutput)

  /** Checks over evidence that no mode writes: ground truth, severity, marker scan, cleanup, leftovers. */
  datatype HostChecks = HostChecks(scenario: Check, markersAbsent: Check, severity: Check, cleanup: Check,
                                   noLeftovers: Check)

  predicate HostHolds(h: HostChecks) {
    h.scenario.Holds? && h.markersAbsent.Holds? && h.severity.Holds? && h.cleanup.Holds? && h.noLeftovers.Holds?
  }

  datatype JobChecks = JobChecks(leadJobs: Check, reconJobs: Check, separateJobs: Check, handoff: Check) {
    predicate AllHold() {
      leadJobs.Holds? && reconJobs.Holds? && separateJobs.Holds? && handoff.Holds?
    }
  }

  datatype OutputChecks = OutputChecks(typedPlan: Check, capability: Check, hypotheses: Check, domain: Check) {
    predicate AllHold() {
      typedPlan.Holds? && capability.Holds? && hypotheses.Holds? && domain.Holds?
    }
  }

  datatype WorkChecks = WorkChecks(
    profile: Check, sequence: Check, nonAuthoritative: Check, shellFree: Check, concurrency: Check,
    redirectBlocked: Check, inventoryScope: Check, noEgress: Check,
    baselineExecuted: Check, alternateExecuted: Check, observationsLive: Check,
    vulnerableBaseline: Check, vulnerableAlternate: Check, patchedBaseline: Check, patchedAlternate: Check,
    noEffect: Check,
    adjudicated: Check, notSubstituted: Check, confirmed: Check, passed: Check, sentinelReset: Check)
  {
    predicate AllHold() {
      && profile.Holds? && sequence.Holds? && nonAuthoritative.Holds? && shellFree.Holds? && concurrency.Holds?
      && redirectBlocked.Holds? && inventoryScope.Holds? && noEgress.Holds?
      && baselineExecuted.Holds? && alternateExecuted.Holds? && observationsLive.Holds?
      && vulnerableBaseline.Holds? && vulnerableAlternate.Holds? && patchedBaseline.Holds? && patchedAlternate.Holds?
      && noEffect.Holds? && adjudicated.Holds? && notSubstituted.Holds?
      && confirmed.Holds? && passed.Holds? && sentinelReset.Holds?
    }
  }

  datatype ResultChecks = ResultChecks(projectionsClean: Check, identity: Check, callCeiling: Check,
                                       tokenCeiling: Check)
  {
    predicate AllHold() {
      projectionsClean.Holds? && identity.Holds? && callCeiling.Holds? && tokenCeiling.Holds?
    }
  }

  // ------------------------------------------------------------------ reading an arm

  function ProbeOf(probes: seq<ObservedProbe>, name: string): Option<ObservedProbe> {
    if probes == [] then None
    else if probes[0].name == name then Some(probes[0])
    else ProbeOf(probes[1..], name)
  }

  predicate Answered(p: Option<ObservedProbe>) {
    p.Some? && p.value.statusCode > 0
  }

  predicate Denied(p: Option<ObservedProbe>) {
    p.Some? && p.value.blocked && !p.value.sentinel
  }

  predicate ReachedSentinel(p: Option<ObservedProbe>) {
    p.Some? && !p.value.blocked && p.value.sentinel
  }

  predicate WasProbed(r: ModeRecord) {
    r.execution.Some? && r.execution.value.Probed?
  }

  predicate PlanOk(r: ModeRecord) {
    r.planStep.Some? && StepOk(r.planStep.value)
  }

  predicate SeparateJobs(r: ModeRecord) {
    && Scheme + RoleName(LeadOrchestrator) + "/" <= r.lead.note.address
    && r.recon.Some? && Scheme + RoleName(ReconAgent) + "/" <= r.recon.value.job.note.address
    && r.lead.note.address != r.recon.value.job.note.address
  }

  predicate ReconConsumed(r: ModeRecord) {
    r.recon.Some? && JobNoteGood(r.recon.value.job.note, ReconAgent)
  }

  function NamesOf(probes: seq<BrokeredProbe>): (names: seq<string>)
    ensures |names| == |probes| && forall i | 0 <= i < |names| :: names[i] == probes[i].name
  {
    seq(|probes|, i requires 0 <= i < |probes| => probes[i].name)
  }

  predicate SequenceRendered(b: Broker) {
    && b.shellFree && b.totalRequests == 2 && b.effectiveVariants == 2 && b.concurrency == 1
    && b.redirectPolicy == "DENY"
    && NamesOf(b.probes) == [Baseline, Alternate]
  }

  predicate RoutesInternal(b: Broker) {
    forall i | 0 <= i < |b.probes| :: "/api/ops/" <= b.probes[i].route
  }

  predicate RoutesRelative(b: Broker) {
    forall i | 0 <= i < |b.probes| :: "/" <= b.probes[i].route && !Contains(b.probes[i].route, "://")
  }

  predicate ProfileSelected(b: Broker) {
    b.requestedProfile == ProfileId && b.effectiveProfile == ProfileId
  }

  /** A step's result as the verdict collects it: every step that was entered and parsed counts, a
      refused one as a BUDGET_STOP of no calls. */
  function Result(s: Option<Step>): seq<StepResult> {
    if s.Some? && s.value.Some? then [s.value.value] else []
  }

  function ArmResults(r: ModeRecord): seq<StepResult> {
    Result(Some(r.delegateStep)) + Result(r.planStep)
  }

  /** The projections of a step's result are reported clean; a BUDGET_STOP reports none. */
  predicate CleanStep(s: Option<Step>, says: TaskOutput) {
    s.Some? && s.value.Some? ==> s.value.value != BudgetStop && says.projectionsClean
  }

  predicate CleanArm(j: Judged) {
    CleanStep(Some(j.record.delegateStep), j.delegateSays) && CleanStep(j.record.planStep, j.planSays)
  }

  // ------------------------------------------------------------------ the verdict

  function When(present: bool, holds: bool): Check {
    if present then Bool(holds) else NotChecked
  }

  /** A skipped second arm has no jobs. */
  function JobsOf(r: ModeRecord, second: Option<ModeRecord>): JobChecks {
    if second.None? then JobChecks(NotChecked, NotChecked, NotChecked, NotChecked)
    else
      var q := second.value;
      JobChecks(
        Bool(JobNoteGood(r.lead.note, LeadOrchestrator) && JobNoteGood(q.lead.note, LeadOrchestrator)),
        Bool(ReconConsumed(r) && ReconConsumed(q)),
        Bool(SeparateJobs(r) && SeparateJobs(q)),
        Bool(HandoffPersisted(r) && HandoffPersisted(q)))
  }

  predicate BothSteps(r: ModeRecord) {
    StepOk(r.delegateStep) && PlanOk(r)
  }

  function OutputsOf(v: Judged, second: Option<Judged>): OutputChecks {
    if second.None? then OutputChecks(NotChecked, NotChecked, NotChecked, NotChecked)
    else
      var p := second.value;
      var planned := PlanOk(v.record) && PlanOk(p.record);
      var stepped := BothSteps(v.record) && BothSteps(p.record);
      OutputChecks(
        When(planned, v.planSays.capabilityRegistered && p.planSays.capabilityRegistered),
        When(planned, v.planSays.capability == Capability && p.planSays.capability == Capability),
        When(stepped, v.delegateSays.unconfirmed && p.delegateSays.unconfirmed && v.planSays.unconfirmed
             && p.planSays.unconfirmed),
        When(stepped, v.delegateSays.domain == Domain && p.delegateSays.domain == Domain
                      && v.planSays.domain == Domain && p.planSays.domain == Domain))
  }

  function StatusCheck(arm: Option<Probing>, wanted: string): Check {
    if arm.None? || !arm.value.Probed? || arm.value.verify.status.None? then NotChecked
    else Bool(arm.value.verify.status == Some(wanted))
  }

  /** The checks over both arms' brokered work: nothing but the statuses is checked unless both arms
      got to their workers. */
  function WorkOf(first: Option<Probing>, second: Option<Probing>): WorkChecks {
    var confirmed, passed := StatusCheck(first, "CONFIRMED"), StatusCheck(second, "PASS");
    var n := NotChecked;
    if !(first.Some? && first.value.Probed? && second.Some? && second.value.Probed?) then
      WorkChecks(n, n, n, n, n, n, n, n, n, n, n, n, n, n, n, n, n, n, confirmed, passed, n)
    else
      var (x, y) := (first.value, second.value);
      var (b, c) := (x.broker, y.broker);
      var base, alt := ProbeOf(x.probes, Baseline), ProbeOf(x.probes, Alternate);
      var base', alt' := ProbeOf(y.probes, Baseline), ProbeOf(y.probes, Alternate);
      var judged := x.verify.status.Some? && y.verify.status.Some?;
      WorkChecks(
        profile := Bool(ProfileSelected(b) && ProfileSelected(c)),
        sequence := Bool(SequenceRendered(b) && SequenceRendered(c)),
        nonAuthoritative := Bool(b.effectiveVariants == 2 && b.totalRequests == 2
                                 && c.effectiveVariants == 2 && c.totalRequests == 2),
        shellFree := Bool(b.shellFree && c.shellFree),
        concurrency := Bool(b.concurrency == 1 && c.concurrency == 1),
        redirectBlocked := Bool(b.redirectPolicy == "DENY" && b.targetRef == TargetRef && RoutesInternal(b)
                                && c.redirectPolicy == "DENY" && c.targetRef == TargetRef && RoutesInternal(c)),
        inventoryScope := Bool(b.targetRef == TargetRef && c.targetRef == TargetRef),
        noEgress := Bool(RoutesRelative(b) && x.onRangeAccess && RoutesRelative(c) && y.onRangeAccess),
        baselineExecuted := Bool(Answered(base) && Answered(base')),
        alternateExecuted := Bool(Answered(alt) && Answered(alt')),
        observationsLive := Bool(x.observed && Answered(alt) && y.observed && Answered(alt')),
        vulnerableBaseline := Bool(Denied(base)),
        vulnerableAlternate := Bool(ReachedSentinel(alt)),
        patchedBaseline := Bool(Denied(base')),
        patchedAlternate := Bool(Denied(alt')),
        noEffect := Bool(!ReachedSentinel(alt')),
        adjudicated := When(judged, x.verify.status in {Some("CONFIRMED"), Some("PASS")}
                                    && y.verify.status in {Some("CONFIRMED"), Some("PASS")}
                                    && x.verify.baselineDenied && y.verify.baselineDenied),
        notSubstituted := When(judged, x.verify.generatedNoTraffic && y.verify.generatedNoTraffic
                                       && x.verify.probeRequests == 0 && y.verify.probeRequests == 0),
        confirmed := confirmed,
        passed := passed,
        sentinelReset := Bool(x.sentinelReset && y.sentinelReset))
  }

  /** The checks over the collected results, or None where computing the call total raises. */
  function ResultsOf(rs: seq<StepResult>, clean: bool): Option<ResultChecks> {
    var calls := CallTotal(CallReports(rs));
    if calls.None? then None
    else
      Some(ResultChecks(
        When(rs != [], clean),
        When(rs != [], forall r | r in rs :: r.identityExact),
        When(rs != [], calls.value <= MaxProviderCalls),
        WithinCeiling(Tokens(rs), MaxProviderTokens)))
  }

  function RecordOf(j: Option<Judged>): Option<ModeRecord> {
    if j.Some? then Some(j.value.record) else None
  }

  function AllResults(v: Judged, p: Option<Judged>): seq<StepResult> {
    ArmResults(v.record) + (if p.Some? then ArmResults(p.value.record) else [])
  }

  predicate Passes(v: Judged, p: Option<Judged>, host: HostChecks) {
    var results := ResultsOf(AllResults(v, p), CleanArm(v) && (p.Some? ==> CleanArm(p.value)));
    && JobsOf(v.record, RecordOf(p)).AllHold()
    && OutputsOf(v, p).AllHold()
    && WorkOf(v.record.execution, if p.Some? then p.value.record.execution else None).AllHold()
    && results.Some? && results.value.AllHold()
    && HostHolds(host)
  }

  // ------------------------------------------------------------------ what a passing verdict means

  predicate IsFirst(probes: seq<ObservedProbe>, name: string, i: nat) {
    i < |probes| && probes[i].name == name && forall k | 0 <= k < i :: probes[k].name != name
  }

  /** The first probe of the name was answered. */
  predicate Responded(probes: seq<ObservedProbe>, name: string) {
    exists i | 0 <= i < |probes| :: IsFirst(probes, name, i) && probes[i].statusCode > 0
  }

  /** The first probe of the name was blocked, or not, and showed the sentinel, or not. */
  predicate SeenAs(probes: seq<ObservedProbe>, name: string, blocked: bool, sentinel: bool) {
    exists i | 0 <= i < |probes| ::
      IsFirst(probes, name, i) && probes[i].blocked == blocked && probes[i].sentinel == sentinel
  }

  /** The route names no host. */
  predicate NoScheme(route: string) {
    forall i | 0 <= i < |route| - 2 :: route[i] == ':' ==> route[i + 1] != '/' || route[i + 2] != '/'
  }

  /** The registered sequence: a baseline and an alternate probe, rendered without a shell, one request at
      a time and without redirects. */
  predicate TwoProbeSequence(b: Broker) {
    && b.shellFree && b.totalRequests == b.effectiveVariants == 2 && b.concurrency == 1 && b.redirectPolicy == "DENY"
    && |b.probes| == 2 && b.probes[0].name == "BASELINE_PROBE" && b.probes[1].name == "ALTERNATE_PROBE"
  }

  /** What both arms' work must show: the registered two-probe sequence, rendered without a shell, one
      request at a time and inside the range; both probes answered, the baseline denied, the alternate
      one denied or through to the sentinel as stated; and a verifier that adjudicated it without traffic
      of its own. */
  predicate GoodWork(x: Probing, denied: bool, status: string)
    requires x.Probed?
  {
    && x.broker.requestedProfile == x.broker.effectiveProfile == "http_detection_control_probe_v1"
    && TwoProbeSequence(x.broker) && x.broker.targetRef == "range-ops" && x.onRangeAccess
    && (forall p | p in x.broker.probes :: "/api/ops/" <= p.route && NoScheme(p.route))
    && Responded(x.probes, "BASELINE_PROBE") && SeenAs(x.probes, "BASELINE_PROBE", true, false)
    && Responded(x.probes, "ALTERNATE_PROBE") && SeenAs(x.probes, "ALTERNATE_PROBE", denied, !denied)
    && x.observed && x.sentinelReset
    && x.verify.status == Some(status)
    && x.verify.baselineDenied && x.verify.generatedNoTraffic && x.verify.probeRequests == 0
  }

  /** The vulnerable arm's alternate probe reached the sentinel and was confirmed; the patched arm's was
      denied and passed. */
  predicate GoodPair(x: Probing, y: Probing)
    requires x.Probed? && y.Probed?
  {
    GoodWork(x, false, "CONFIRMED") && GoodWork(y, true, "PASS")
  }

  /** What an arm's two steps must say. */
  predicate GoodSays(delegate: TaskOutput, plan: TaskOutput) {
    && delegate.unconfirmed && delegate.domain == "ADVERSARY_SIMULATION" && delegate.projectionsClean
    && plan.unconfirmed && plan.domain == "ADVERSARY_SIMULATION" && plan.projectionsClean
    && plan.capabilityRegistered && plan.capability == "aegis.ops.detection_control_probe"
  }

  predicate GoodResults(rs: seq<StepResult>) {
    && (forall r | r in rs :: r.identityExact)
    && CallTotal(CallReports(rs)).Some? && CallTotal(CallReports(rs)).value <= 4
    && (forall r | r in rs :: r.tokens.Num?) && Sum(Tokens(rs)) <= 12_000
  }

  /** The job was claimed, and the note's address resolves to it. */
  predicate JobTaken(note: JobNote, prefix: string) {
    prefix <= note.address && note.claimedStatus.Claimed? && note.resolved
  }

  predicate ReconTaken(r: ModeRecord) {
    r.recon.Some? && JobTaken(r.recon.value.job.note, "agentjob://RECON_AGENT/")
  }

  /** The recon job was handed over by a resolvable delegation that names the lead job. */
  predicate HandedOver(r: ModeRecord) {
    && r.handoffLinked && r.delegation.Some? && r.recon.Some?
    && "agentqueue://RECON_AGENT/" <= r.delegation.value.address && r.delegation.value.resolved
    && r.recon.value.fromDelegation == r.delegation.value.id
    && r.delegation.value.producer == r.recon.value.producer == LastSegment(r.lead.note.address)
  }

  /** The step is recorded, parsed and ended OK. */
  predicate EndedOk(s: Option<Step>) {
    s.Some? && s.value.Some? && s.value.value.status == "OK"
  }

  /** An arm that ended both steps OK and got to its worker, with both jobs taken and the recon job
      handed over. */
  predicate InOrder(r: ModeRecord) {
    && EndedOk(Some(r.delegateStep)) && EndedOk(r.planStep)
    && r.execution.Some? && r.execution.value.Probed?
    && JobTaken(r.lead.note, "agentjob://LEAD_ORCHESTRATOR/") && ReconTaken(r) && HandedOver(r)
  }

  lemma WithinCeilingOfResults(rs: seq<StepResult>)
    ensures WithinCeiling(Tokens(rs), MaxProviderTokens).Holds?
       <==> rs != [] && (forall r | r in rs :: r.tokens.Num?) && Sum(Tokens(rs)) <= MaxProviderTokens
  {
    WithinCeilingHoldsIff(Tokens(rs), MaxProviderTokens);
    var ts := Tokens(rs);
    if forall t | t in ts :: t.Num? {
      forall r | r in rs ensures r.tokens.Num? {
        var i :| 0 <= i < |rs| && rs[i] == r;
        assert ts[i] in ts;
      }
    }
  }

  lemma {:induction false} FirstProbe(probes: seq<ObservedProbe>, name: string)
    ensures ProbeOf(probes, name).Some? ==>
      exists i | 0 <= i < |probes| :: IsFirst(probes, name, i) && probes[i] == ProbeOf(probes, name).value
    ensures ProbeOf(probes, name).None? ==> forall i | 0 <= i < |probes| :: probes[i].name != name
  {
    if probes != [] && probes[0].name != name {
      FirstProbe(probes[1..], name);
      if ProbeOf(probes, name).Some? {
        var i :| 0 <= i < |probes[1..]| && IsFirst(probes[1..], name, i)
          && probes[1..][i] == ProbeOf(probes, name).value;
        assert forall k | 0 < k < i + 1 :: probes[k] == probes[1..][k - 1];
        assert IsFirst(probes, name, i + 1);
      } else {
        assert forall k | 0 < k < |probes| :: probes[k] == probes[1..][k - 1];
      }
    } else if probes != [] {
      assert IsFirst(probes, name, 0);
    }
  }

  /** Reading the first probe of a name. */
  lemma ProbeChecks(probes: seq<ObservedProbe>, name: string)
    ensures var p := ProbeOf(probes, name);
      && (Answered(p) <==> Responded(probes, name))
      && (Denied(p) <==> SeenAs(probes, name, true, false))
      && (ReachedSentinel(p) <==> SeenAs(probes, name, false, true))
  {
    FirstProbe(probes, name);
    if ProbeOf(probes, name).Some? {
      var i :| 0 <= i < |probes| && IsFirst(probes, name, i) && probes[i] == ProbeOf(probes, name).value;
      assert forall k | 0 <= k < |probes| && IsFirst(probes, name, k) :: k == i;
    }
  }

  lemma SchemeAt(route: string, i: nat)
    requires i + 3 <= |route|
    ensures OccursAt(route, "://", i) <==> route[i] == ':' && route[i + 1] == '/' && route[i + 2] == '/'
  {
    assert route[i..i + 3] == [route[i], route[i + 1], route[i + 2]];
  }

  lemma NoSchemeIff(route: string)
    ensures NoScheme(route) <==> !Contains(route, "://")
  {
    if i :| 0 <= i <= |route| && OccursAt(route, "://", i) {
      SchemeAt(route, i);
    }
    if i :| 0 <= i < |route| - 2 && route[i] == ':' && route[i + 1] == '/' && route[i + 2] == '/' {
      SchemeAt(route, i);
    }
  }

  lemma RoutesIff(b: Broker)
    ensures RoutesInternal(b) <==> forall p | p in b.probes :: "/api/ops/" <= p.route
    ensures RoutesRelative(b) <==> forall p | p in b.probes :: "/" <= p.route && NoScheme(p.route)
  {
    forall p | p in b.probes
      ensures NoScheme(p.route) <==> !Contains(p.route, "://")
    {
      NoSchemeIff(p.route);
    }
    assert forall i | 0 <= i < |b.probes| :: b.probes[i] in b.probes;
  }

  lemma RoutesInsideIff(b: Broker)
    ensures RoutesInternal(b) && RoutesRelative(b)
       <==> forall p | p in b.probes :: "/api/ops/" <= p.route && NoScheme(p.route)
  {
    RoutesIff(b);
    forall p | p in b.probes && "/api/ops/" <= p.route
      ensures "/" <= p.route
    {
      assert p.route[0] == "/api/ops/"[0];
    }
  }

  lemma SequenceIff(b: Broker)
    ensures SequenceRendered(b) <==> TwoProbeSequence(b)
  {
    var names := NamesOf(b.probes);
    if |b.probes| == 2 {
      assert names == [names[0], names[1]];
    }
  }

  /** The checks over both arms' brokered work, in what brokers, workers and verifiers reported. */
  lemma WorkHoldsIff(x: Probing, y: Probing)
    requires x.Probed? && y.Probed?
    ensures WorkOf(Some(x), Some(y)).AllHold() <==> GoodPair(x, y)
  {
    SequenceIff(x.broker);
    SequenceIff(y.broker);
    ProbeChecks(x.probes, "BASELINE_PROBE");
    ProbeChecks(x.probes, "ALTERNATE_PROBE");
    ProbeChecks(y.probes, "BASELINE_PROBE");
    ProbeChecks(y.probes, "ALTERNATE_PROBE");
    RoutesInsideIff(x.broker);
    RoutesInsideIff(y.broker);
  }

  lemma JobsHoldIff(r: ModeRecord, q: ModeRecord)
    requires BothSteps(r) && WasProbed(r) && BothSteps(q) && WasProbed(q)
    ensures JobsOf(r, Some(q)).AllHold() <==> InOrder(r) && InOrder(q)
  {
    JobPrefixes(r.lead.note.address);
    JobPrefixes(q.lead.note.address);
  }

  lemma ResultsHoldIff(rs: seq<StepResult>, clean: bool)
    requires rs != []
    ensures ResultsOf(rs, clean).Some? && ResultsOf(rs, clean).value.AllHold() <==> clean && GoodResults(rs)
  {
    WithinCeilingOfResults(rs);
  }

  lemma OutputsHoldIff(v: Judged, p: Judged)
    requires BothSteps(v.record) && BothSteps(p.record)
    ensures OutputsOf(v, Some(p)).AllHold() && CleanArm(v) && CleanArm(p)
       <==> GoodSays(v.delegateSays, v.planSays) && GoodSays(p.delegateSays, p.planSays)
  {
  }

  /** Two records pass, whatever wrote them, exactly if every host check holds, both arms are in order,
      and their work, their outputs and their four results are good. */
  lemma RecordsPassIff(v: Judged, p: Judged, host: HostChecks)
    ensures Passes(v, Some(p), host) <==>
      && host == HostChecks(Holds, Holds, Holds, Holds, Holds)
      && InOrder(v.record) && InOrder(p.record)
      && GoodPair(v.record.execution.value, p.record.execution.value)
      && GoodSays(v.delegateSays, v.planSays) && GoodSays(p.delegateSays, p.planSays)
      && GoodResults([v.record.delegateStep.value, v.record.planStep.value.value,
                      p.record.delegateStep.value, p.record.planStep.value.value])
  {
    if BothSteps(v.record) && WasProbed(v.record) && BothSteps(p.record) && WasProbed(p.record) {
      JobsHoldIff(v.record, p.record);
      var rs := [v.record.delegateStep.value, v.record.planStep.value.value,
                 p.record.delegateStep.value, p.record.planStep.value.value];
      assert AllResults(v, Some(p)) == rs;
      ResultsHoldIff(rs, CleanArm(v) && CleanArm(p));
      OutputsHoldIff(v, p);
      WorkHoldsIff(v.record.execution.value, p.record.execution.value);
    } else {
      UnfinishedNeverPasses(v, Some(p), host);
    }
  }

  /** An arm that did not get through both steps to its worker fails the verdict. */
  lemma UnfinishedNeverPasses(v: Judged, p: Option<Judged>, host: HostChecks)
    requires p.None? || !(BothSteps(v.record) && WasProbed(v.record))
          || !(BothSteps(p.value.record) && WasProbed(p.value.record))
    ensures !Passes(v, p, host)
  {
  }

  // ------------------------------------------------------------------ what each check says

  /** The job checks, one by one. Without a second arm none of them is checked, and none fails. */
  lemma JobChecksMean(r: ModeRecord, q: ModeRecord)
    ensures JobsOf(r, None) == JobChecks(NotChecked, NotChecked, NotChecked, NotChecked)
    ensures var lead := "agentjob://LEAD_ORCHESTRATOR/";
      var recon := "agentjob://RECON_AGENT/";
      JobsOf(r, Some(q)) == JobChecks(
        leadJobs := Bool(JobTaken(r.lead.note, lead) && JobTaken(q.lead.note, lead)),
        reconJobs := Bool(ReconTaken(r) && ReconTaken(q)),
        separateJobs := Bool(&& lead <= r.lead.note.address && r.recon.Some? && recon <= r.recon.value.job.note.address
                             && lead <= q.lead.note.address && q.recon.Some?
                               && recon <= q.recon.value.job.note.address),
        handoff := Bool(HandedOver(r) && HandedOver(q)))
  {
    JobPrefixes(r.lead.note.address);
    JobPrefixes(q.lead.note.address);
  }

  /** The output checks: checked only once both arms' plans, or all four steps, have ended OK. */
  lemma OutputChecksMean(v: Judged, p: Judged)
    ensures OutputsOf(v, None) == OutputChecks(NotChecked, NotChecked, NotChecked, NotChecked)
    ensures var planned := EndedOk(v.record.planStep) && EndedOk(p.record.planStep);
      var stepped := planned && EndedOk(Some(v.record.delegateStep)) && EndedOk(Some(p.record.delegateStep));
      var outputs := OutputsOf(v, Some(p));
      && (if !planned then outputs.typedPlan == outputs.capability == NotChecked
          else
            && outputs.typedPlan == Bool(v.planSays.capabilityRegistered && p.planSays.capabilityRegistered)
            && outputs.capability
               == Bool(v.planSays.capability == p.planSays.capability == "aegis.ops.detection_control_probe"))
      && (if !stepped then outputs.hypotheses == outputs.domain == NotChecked
          else
            && outputs.hypotheses == Bool(&& v.delegateSays.unconfirmed && v.planSays.unconfirmed
                                          && p.delegateSays.unconfirmed && p.planSays.unconfirmed)
            && outputs.domain == Bool(&& v.delegateSays.domain == v.planSays.domain == "ADVERSARY_SIMULATION"
                                      && p.delegateSays.domain == p.planSays.domain == "ADVERSARY_SIMULATION"))
  {
  }

  /** A verifier status as it is checked: missing is not failed. */
  function StatusSays(status: Option<string>, wanted: string): Check {
    if status.None? then NotChecked else if status.value == wanted then Holds else Fails
  }

  function StatusOf(arm: Option<Probing>): Option<string> {
    if arm.Some? && arm.value.Probed? then arm.value.verify.status else None
  }

  /** Without both arms' workers only the two statuses are checked. */
  lemma UncheckedWork(first: Option<Probing>, second: Option<Probing>)
    requires !(first.Some? && first.value.Probed? && second.Some? && second.value.Probed?)
    ensures var n, w := NotChecked, WorkOf(first, second);
      && w.confirmed == StatusSays(StatusOf(first), "CONFIRMED") && w.passed == StatusSays(StatusOf(second), "PASS")
      && n == w.profile == w.sequence == w.nonAuthoritative == w.shellFree == w.concurrency == w.redirectBlocked
      && n == w.inventoryScope == w.noEgress == w.baselineExecuted == w.alternateExecuted == w.observationsLive
      && n == w.vulnerableBaseline == w.vulnerableAlternate == w.patchedBaseline == w.patchedAlternate
      && n == w.noEffect == w.adjudicated == w.notSubstituted == w.sentinelReset
  {
  }

  /** The checks over the two brokers. */
  lemma BrokerChecksMean(x: Probing, y: Probing)
    requires x.Probed? && y.Probed?
    ensures var w, b, c := WorkOf(Some(x), Some(y)), x.broker, y.broker;
      && w.profile == Bool(&& b.requestedProfile == b.effectiveProfile == "http_detection_control_probe_v1"
                           && c.requestedProfile == c.effectiveProfile == "http_detection_control_probe_v1")
      && w.sequence == Bool(TwoProbeSequence(b) && TwoProbeSequence(c))
      && w.nonAuthoritative
         == Bool(b.effectiveVariants == b.totalRequests == 2 && c.effectiveVariants == c.totalRequests == 2)
      && w.shellFree == Bool(b.shellFree && c.shellFree)
      && w.concurrency == Bool(b.concurrency == c.concurrency == 1)
      && w.inventoryScope == Bool(b.targetRef == c.targetRef == "range-ops")
  {
    SequenceIff(x.broker);
    SequenceIff(y.broker);
  }

  /** The two checks over the rendered routes. */
  lemma RouteChecksMean(x: Probing, y: Probing)
    requires x.Probed? && y.Probed?
    ensures var w, b, c := WorkOf(Some(x), Some(y)), x.broker, y.broker;
      && w.redirectBlocked == Bool(&& b.redirectPolicy == c.redirectPolicy == "DENY"
                                   && b.targetRef == c.targetRef == "range-ops"
                                   && (forall p | p in b.probes :: "/api/ops/" <= p.route)
                                   && (forall p | p in c.probes :: "/api/ops/" <= p.route))
      && w.noEgress == Bool(&& (forall p | p in b.probes :: "/" <= p.route && NoScheme(p.route))
                            && (forall p | p in c.probes :: "/" <= p.route && NoScheme(p.route))
                            && x.onRangeAccess && y.onRangeAccess)
  {
    RoutesIff(x.broker);
    RoutesIff(y.broker);
  }

  /** The checks over what the two workers saw and the two verifiers said. */
  lemma EvidenceChecksMean(x: Probing, y: Probing)
    requires x.Probed? && y.Probed?
    ensures var w := WorkOf(Some(x), Some(y));
      var base, alt := "BASELINE_PROBE", "ALTERNATE_PROBE";
      && w.baselineExecuted == Bool(Responded(x.probes, base) && Responded(y.probes, base))
      && w.alternateExecuted == Bool(Responded(x.probes, alt) && Responded(y.probes, alt))
      && w.observationsLive
         == Bool(x.observed && y.observed && Responded(x.probes, alt) && Responded(y.probes, alt))
      && w.vulnerableBaseline == Bool(SeenAs(x.probes, base, true, false))
      && w.vulnerableAlternate == Bool(SeenAs(x.probes, alt, false, true))
      && w.patchedBaseline == Bool(SeenAs(y.probes, base, true, false))
      && w.patchedAlternate == Bool(SeenAs(y.probes, alt, true, false))
      && w.noEffect == Bool(!SeenAs(y.probes, alt, false, true))
      && w.sentinelReset == Bool(x.sentinelReset && y.sentinelReset)
  {
    ProbeChecks(x.probes, "BASELINE_PROBE");
    ProbeChecks(x.probes, "ALTERNATE_PROBE");
    ProbeChecks(y.probes, "BASELINE_PROBE");
    ProbeChecks(y.probes, "ALTERNATE_PROBE");
  }

  lemma VerifierChecksMean(x: Probing, y: Probing)
    requires x.Probed? && y.Probed?
    ensures var w, s, t := WorkOf(Some(x), Some(y)), x.verify, y.verify;
      && w.confirmed == StatusSays(s.status, "CONFIRMED") && w.passed == StatusSays(t.status, "PASS")
      && (if s.status.None? || t.status.None? then w.adjudicated == w.notSubstituted == NotChecked
          else
            && w.adjudicated == Bool(&& (s.status.value == "CONFIRMED" || s.status.value == "PASS")
                                     && (t.status.value == "CONFIRMED" || t.status.value == "PASS")
                                     && s.baselineDenied && t.baselineDenied)
            && w.notSubstituted == Bool(&& s.generatedNoTraffic && t.generatedNoTraffic
                                        && s.probeRequests == t.probeRequests == 0))
  {
  }

  /** Every step that was entered and parsed must report clean projections; a BUDGET_STOP reports none. */
  lemma CleanArmMeans(j: Judged)
    ensures var stop := StepResult("BUDGET_STOP", Num(0), Num(0), false, false, None);
      var first, second := j.record.delegateStep, j.record.planStep;
      CleanArm(j) <==>
        && (first.Some? ==> first.value != stop && j.delegateSays.projectionsClean)
        && (second.Some? && second.value.Some? ==> second.value.value != stop && j.planSays.projectionsClean)
  {
  }

  /** The checks over the results: without results only the token check says anything. */
  lemma ResultChecksMean(rs: seq<StepResult>, clean: bool)
    requires CallTotal(CallReports(rs)).Some?
    ensures var c := ResultsOf(rs, clean).value;
      && (rs == [] ==> c == ResultChecks(NotChecked, NotChecked, NotChecked, NotChecked))
      && (rs != [] ==>
            && c.projectionsClean == Bool(clean)
            && c.identity == Bool(forall r | r in rs :: r.identityExact)
            && c.callCeiling == Bool(CallTotal(CallReports(rs)).value <= 4)
            && (c.tokenCeiling.Holds? <==> (forall r | r in rs :: r.tokens.Num?) && Sum(Tokens(rs)) <= 12_000))
  {
    WithinCeilingOfResults(rs);
  }

  // ------------------------------------------------------------------ the verdict over every campaign

  /** What the environment says beside the mode's own answers. */
  datatype Says = Says(delegate: TaskOutput, plan: TaskOutput)

  function JudgedOf(env: ModeEnv, says: Says, a: Account): Judged {
    Judged(ModeRecordOf(env, a), says.delegate, says.plan)
  }

  /** The second arm as it is judged: nothing if the first one was stopped by the budget. */
  function SecondArm(v: ModeEnv, p: ModeEnv, says: Says, a: Account): Option<Judged> {
    if ModeRecordOf(v, a).budgetStop then None else Some(JudgedOf(p, says, ModeAccount(v, a)))
  }

  /** A mode gets through both steps to its worker. */
  predicate ReachesWorker(env: ModeEnv, a: Account) {
    Planned(env, a) && env.execution.Probed?
  }

  lemma JobsTaken(env: ModeEnv)
    ensures JobTaken(Note(LeadJob(env), true), "agentjob://LEAD_ORCHESTRATOR/")
    ensures JobTaken(Note(ReconJob(env), true), "agentjob://RECON_AGENT/")
  {
    NotesAreGood(LeadJob(env), true);
    NotesAreGood(ReconJob(env), true);
    JobPrefixes("");
  }

  lemma ModeInOrder(env: ModeEnv, t: Tables, a: Account)
    requires Consistent(t) && !Raises(env, t, a) && ReachesWorker(env, a)
    ensures InOrder(ModeRecordOf(env, a)) && ModeRecordOf(env, a).execution == Some(env.execution)
    ensures ModeRecordOf(env, a).delegateStep == env.delegate && ModeRecordOf(env, a).planStep == Some(env.plan)
    ensures !ModeRecordOf(env, a).budgetStop
  {
    JobsTaken(env);
    HandoffPersistedIff(env, t, a);
  }

  lemma ReachedPassesIff(v: ModeEnv, p: ModeEnv, j: Judged, k: Judged, host: HostChecks)
    requires v.delegate.Some? && v.plan.Some? && v.execution.Probed?
    requires p.delegate.Some? && p.plan.Some? && p.execution.Probed?
    requires InOrder(j.record) && j.record.execution == Some(v.execution)
    requires j.record.delegateStep == v.delegate && j.record.planStep == Some(v.plan)
    requires InOrder(k.record) && k.record.execution == Some(p.execution)
    requires k.record.delegateStep == p.delegate && k.record.planStep == Some(p.plan)
    ensures Passes(j, Some(k), host) <==>
      && host == HostChecks(Holds, Holds, Holds, Holds, Holds)
      && GoodSays(j.delegateSays, j.planSays) && GoodSays(k.delegateSays, k.planSays)
      && GoodPair(v.execution, p.execution)
      && GoodResults([v.delegate.value, v.plan.value, p.delegate.value, p.plan.value])
  {
    RecordsPassIff(j, k, host);
  }

  lemma ModeOutOfOrder(env: ModeEnv, a: Account)
    requires !ReachesWorker(env, a)
    ensures var r := ModeRecordOf(env, a); !(BothSteps(r) && WasProbed(r))
  {
  }

  /** Every exception leaves no record to judge. */
  predicate CampaignRaises(v: ModeEnv, p: ModeEnv, t: Tables, a: Account) {
    Raises(v, t, a) || (!ModeRecordOf(v, a).budgetStop && Raises(p, ModeTables(v, t, a), ModeAccount(v, a)))
  }

  /** The verdict over every campaign, exactly: it passes if and only if both modes get to their workers
      through admitted and accepted steps, the work, the outputs and the host checks are good, and the
      four results fit the ceilings with exact usage. In particular no early exit, budget stop or
      skipped arm passes. */
  lemma VerdictPassesIff(v: ModeEnv, p: ModeEnv, sv: Says, sp: Says, t: Tables, a: Account, host: HostChecks)
    requires Consistent(t) && !CampaignRaises(v, p, t, a)
    ensures Passes(JudgedOf(v, sv, a), SecondArm(v, p, sp, a), host) <==>
      && ReachesWorker(v, a) && ReachesWorker(p, ModeAccount(v, a))
      && host == HostChecks(Holds, Holds, Holds, Holds, Holds)
      && GoodSays(sv.delegate, sv.plan) && GoodSays(sp.delegate, sp.plan) && GoodPair(v.execution, p.execution)
      && GoodResults([v.delegate.value, v.plan.value, p.delegate.value, p.plan.value])
  {
    var a1 := ModeAccount(v, a);
    if ReachesWorker(v, a) && ReachesWorker(p, a1) {
      ModeKeepsConsistent(v, t, a);
      ModeInOrder(v, t, a);
      ModeInOrder(p, ModeTables(v, t, a), a1);
      ReachedPassesIff(v, p, JudgedOf(v, sv, a), JudgedOf(p, sp, a1), host);
    } else {
      if !ReachesWorker(v, a) {
        ModeOutOfOrder(v, a);
      } else {
        ModeOutOfOrder(p, a1);
      }
      UnfinishedNeverPasses(JudgedOf(v, sv, a), SecondArm(v, p, sp, a), host);
    }
  }

  /** The tokens the four steps of a campaign report. */
  function TokenReports(v: ModeEnv, p: ModeEnv): seq<Reported> {
    [UsageOf(v.delegate).tokens, UsageOf(v.plan).tokens, UsageOf(p.delegate).tokens, UsageOf(p.plan).tokens]
  }

  lemma TrackerOfCampaign(v: ModeEnv, p: ModeEnv, a: Account)
    requires Planned(v, a) && Planned(p, ModeAccount(v, a))
    ensures ModeAccount(p, ModeAccount(v, a)).tokens == a.tokens + Sum(TokenReports(v, p))
  {
    var r := TokenReports(v, p);
    assert r[1..][1..][1..][1..] == [];
    assert Sum(r[1..][1..][1..]) == Figure(r[3]);
    assert Sum(r[1..][1..]) == Figure(r[2]) + Figure(r[3]);
    assert Sum(r[1..]) == Figure(r[1]) + Figure(r[2]) + Figure(r[3]);
  }

  lemma CampaignTotal(v: ModeEnv, p: ModeEnv, a: Account)
    requires Planned(v, a) && Planned(p, ModeAccount(v, a)) && a.tokens == 0
    requires GoodResults([v.delegate.value, v.plan.value, p.delegate.value, p.plan.value])
    ensures TotalOf(TokenReports(v, p)) == Known(ModeAccount(p, ModeAccount(v, a)).tokens)
    ensures ModeAccount(p, ModeAccount(v, a)).tokens <= MaxProviderTokens
  {
    var rs := [v.delegate.value, v.plan.value, p.delegate.value, p.plan.value];
    assert Tokens(rs) == TokenReports(v, p);
    ExactReports(rs);
    TrackerOfCampaign(v, p, a);
  }

  /** What a passing campaign has left behind: both hand-offs persisted, four steps started, and a token
      total that is exact, within the ceiling, and what the budget tracker holds. */
  lemma PassingCampaign(v: ModeEnv, p: ModeEnv, sv: Says, sp: Says, t: Tables, a: Account, host: HostChecks)
    requires Consistent(t) && !CampaignRaises(v, p, t, a) && a.tokens == 0
    requires Passes(JudgedOf(v, sv, a), SecondArm(v, p, sp, a), host)
    ensures HandoffPersisted(ModeRecordOf(v, a)) && HandoffPersisted(ModeRecordOf(p, ModeAccount(v, a)))
    ensures CampaignSteps(v, p, a) == 4
    ensures TotalOf(TokenReports(v, p)) == Known(ModeAccount(p, ModeAccount(v, a)).tokens)
    ensures ModeAccount(p, ModeAccount(v, a)).tokens <= MaxProviderTokens
  {
    VerdictPassesIff(v, p, sv, sp, t, a, host);
    ModeKeepsConsistent(v, t, a);
    ModeInOrder(v, t, a);
    ModeInOrder(p, ModeTables(v, t, a), ModeAccount(v, a));
    CampaignTotal(v, p, a);
  }

  lemma ExactReports(rs: seq<StepResult>)
    requires forall r | r in rs :: r.tokens.Num?
    ensures TotalOf(Tokens(rs)) == Known(Sum(Tokens(rs)))
  {
    var ts := Tokens(rs);
    forall r | r in ts ensures r.Num? {
      var i :| 0 <= i < |ts| && ts[i] == r;
      assert rs[i] in rs;
    }
    KnownTotal(ts);
  }
}
