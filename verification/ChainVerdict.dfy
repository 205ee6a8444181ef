/** The verdict on a two-arm chain campaign, and what it means when it passes. */
module ChainVerdict {
  import opened Wrappers
  import opened ProviderUsage
  import opened Digests
  import opened ChainLedger
  import opened ChainArm

  const MaxProviderCalls := 12
  const MaxProviderTokens := 60_000

  const TargetRef := "range-cloud"
  const StageAPrimitive := "METADATA_CREDENTIAL_EXPOSURE"
  const StageBPrimitive := "INTERNAL_SERVICE_AUTHORIZATION"
  const StageACapability := "aegis.cloud.metadata_boundary_probe"
  const StageBCapability := "aegis.cloud.internal_service_access"

  // ------------------------------------------------------------------ the checks

  /** Checks over evidence that no arm writes: ground-truth severity, egress, credential isolation,
      the credential-value scan, cleanup and leftovers. */
  datatype HostChecks = HostChecks(
    valueAbsent: Check, severity: Check, noEgress: Check, gatewayOnly: Check, cleanup: Check, noLeftovers: Check)

  predicate HostHolds(h: HostChecks) {
    && h.valueAbsent.Holds? && h.severity.Holds? && h.noEgress.Holds?
    && h.gatewayOnly.Holds? && h.cleanup.Holds? && h.noLeftovers.Holds?
  }

  datatype Checks = Checks(
    distinctPrimitives: Check, causallyConnected: Check, jobConsumed: Check, handoffPersisted: Check,
    typedPlan: Check, registeredOnly: Check, shellFree: Check,
    stagesExecuted: Check, liveObservations: Check, noFixture: Check,
    linksVerified: Check, stageBNeedsA: Check, causalControl: Check, opaqueReference: Check,
    projectionsClean: Check, hypothesesFalse: Check,
    vulnerableConfirmed: Check, patchedBlocked: Check, brokenNotConfirmed: Check,
    identity: Check, scope: Check, callCeiling: Check, tokenCeiling: Check, revoked: Check,
    host: HostChecks)
  {
    predicate AllHold() {
      && distinctPrimitives.Holds? && causallyConnected.Holds? && jobConsumed.Holds? && handoffPersisted.Holds?
      && typedPlan.Holds? && registeredOnly.Holds? && shellFree.Holds?
      && stagesExecuted.Holds? && liveObservations.Holds? && noFixture.Holds?
      && linksVerified.Holds? && stageBNeedsA.Holds? && causalControl.Holds? && opaqueReference.Holds?
      && projectionsClean.Holds? && hypothesesFalse.Holds?
      && vulnerableConfirmed.Holds? && patchedBlocked.Holds? && brokenNotConfirmed.Holds?
      && identity.Holds? && scope.Holds? && callCeiling.Holds? && tokenCeiling.Holds? && revoked.Holds?
      && HostHolds(host)
    }
  }

  // ------------------------------------------------------------------ reading the records

  /** The output of a recorded step; a step without one reads as an empty output. */
  function OutputOf(s: Option<Step>): Output {
    if s.Some? && s.value.Some? && s.value.value.output.Some? then s.value.value.output.value
    else Output([], "", "", false)
  }

  /** The recorded steps that are counted: those that ended OK or with a gateway rejection. */
  function Counted(s: Option<Step>): seq<Answer> {
    if s.Some? && s.value.Some? && s.value.value.status in {"OK", "GATEWAY_REJECTED"} then [s.value.value] else []
  }

  function ArmResults(r: ArmRecord): seq<Answer> {
    Counted(r.planChain) + Counted(r.planStageA) + Counted(r.interpret) + Counted(r.select) + Counted(r.explain)
  }

  function ModelResults(v: ArmRecord, p: ArmRecord): seq<Answer> {
    ArmResults(v) + ArmResults(p)
  }

  function CallReports(rs: seq<Answer>): (calls: seq<Reported>)
    ensures |calls| == |rs| && forall i | 0 <= i < |rs| :: calls[i] == rs[i].calls
  {
    seq(|rs|, i requires 0 <= i < |rs| => rs[i].calls)
  }

  function TokenReports(rs: seq<Answer>): (tokens: seq<Reported>)
    ensures |tokens| == |rs| && forall i | 0 <= i < |rs| :: tokens[i] == rs[i].tokens
  {
    seq(|rs|, i requires 0 <= i < |rs| => rs[i].tokens)
  }

  /** The link of a stage: the last one with its index. */
  function LinkAt(links: seq<Link>, stage: nat): Option<Link> {
    if links == [] then None
    else if links[|links| - 1].stageIndex == stage then Some(links[|links| - 1])
    else LinkAt(links[..|links| - 1], stage)
  }

  predicate DependsOn(b: Option<Link>, a: Option<Link>) {
    && b.Some? && b.value.consumesPriorReference
    && b.value.dependsOn == (if a.Some? then Some(a.value.id) else None)
  }

  predicate StageAReached(c: ChainProbe) {
    exists i | 0 <= i < |c.stageA| :: c.stageA[i].name == "CONTROL" && c.stageA[i].statusCode == 200
  }

  predicate StageBReached(c: ChainProbe) {
    exists i | 0 <= i < |c.stageB| :: c.stageB[i].name == "CONTROL" && c.stageB[i].statusCode == 200
  }

  predicate SawCredential(c: ChainProbe) {
    exists i | 0 <= i < |c.stageA| :: c.stageA[i].name == "BOUNDARY_PROBE" && c.stageA[i].credentialField
  }

  predicate SawEffect(c: ChainProbe) {
    exists i | 0 <= i < |c.stageB| :: c.stageB[i].name == "SERVICE_ACCESS" && c.stageB[i].adminEffect
  }

  /** An arm without a parsed probe reads as an empty one, which holds nothing back as revoked. */
  function ProbeOf(r: ArmRecord): ChainProbe {
    if r.probe.Some? && r.probe.value.Some? then r.probe.value.value
    else ChainProbe([], [], None, false, true, false)
  }

  function Status(v: Option<Verified>): Verified {
    if v.Some? then v.value else None
  }

  predicate JobConsumed(r: ArmRecord) {
    && JobScheme <= r.job.address && r.job.claimed && r.job.resolved
    && |r.jobTransitions| >= 3 && r.jobTransitions[..3] == [Queued, Claimed, Closed]
  }

  predicate HandedOff(links: seq<Link>, a: Option<Link>, b: Option<Link>) {
    && |links| == 2 && a.Some? && b.Some?
    && a.value.producer == "CLOUD_BOUNDARY_AGENT" && b.value.producer == "AUTHORIZATION_AGENT"
    && a.value.consumer == "CHAIN_AGENT" && b.value.consumer == "CHAIN_AGENT"
    && DependsOn(b, a) && a.value.id != "" && Reference in b.value.inputRefs
    && IsDigest(a.value.sourceSha) && IsDigest(b.value.sourceSha)
  }

  /** The verdict's checks, or None where computing the call total raises. */
  function ChecksOf(v: ArmRecord, p: ArmRecord, host: HostChecks): Option<Checks> {
    var results := ModelResults(v, p);
    var calls := CallTotal(CallReports(results));
    if calls.None? then None
    else
      var plan := OutputOf(v.planChain);
      var stages := plan.stages;
      var a, b := LinkAt(v.links, 0), LinkAt(v.links, 1);
      var c := ProbeOf(v);
      var reached := StageAReached(c);
      var live := SawCredential(c) && SawEffect(c);
      var va, vb := Status(v.verifyA), Status(v.verifyB);
      var clean := if results == [] then NotChecked else Bool(forall r | r in results :: r.projectionsClean);
      Some(Checks(
        distinctPrimitives := Bool(|stages| == 2 && stages[0].primitive != stages[1].primitive
                                   && {stages[0].primitive, stages[1].primitive} == {StageAPrimitive, StageBPrimitive}),
        causallyConnected := Bool(|stages| == 2 && stages[1].consumesPrior && DependsOn(b, a) && a.Some?
                                  && a.value.id != ""),
        jobConsumed := Bool(JobConsumed(v) && JobConsumed(p)),
        handoffPersisted := Bool(HandedOff(v.links, a, b)),
        typedPlan := Bool(v.planChain.Some? && StepOk(v.planChain.value) && plan.targetRef == TargetRef
                          && plan.unconfirmed),
        registeredOnly := Bool((set s | s in stages :: s.capability) == {StageACapability, StageBCapability}
                               && OutputOf(v.planStageA).capability == StageACapability
                               && OutputOf(v.select).capability == StageBCapability),
        shellFree := Bool(v.broker == Some(Some(true))),
        stagesExecuted := Bool(reached && StageBReached(c)),
        liveObservations := Bool(live),
        noFixture := Bool(reached && live),
        linksVerified := Bool(va == Confirms && vb == Confirms),
        stageBNeedsA := Bool(DependsOn(b, a) && SawEffect(c)),
        causalControl := Bool(c.causal.Some? && !c.causal.value.adminEffect && c.causal.value.statusCode != 200
                              && SawEffect(c)),
        opaqueReference := Bool(c.referencePresent && b.Some? && b.value.consumesPriorReference),
        projectionsClean := clean,
        hypothesesFalse := Bool(plan.unconfirmed && OutputOf(v.interpret).unconfirmed && OutputOf(v.select).unconfirmed
                                && v.links != []),
        vulnerableConfirmed := Bool(va == Confirms && vb == Confirms && v.finalState == ChainConfirmed),
        patchedBlocked := Bool(Status(p.verifyA) == Some("PASS") && p.finalState == BlockedByPatch
                               && p.referencePresent == Some(false)),
        brokenNotConfirmed := Bool(p.finalState != ChainConfirmed && p.explain.None?),
        identity := if results == [] then NotChecked else Bool(forall r | r in results :: r.identityExact),
        scope := Bool(plan.targetRef == TargetRef),
        callCeiling := Bool(calls.value <= MaxProviderCalls),
        tokenCeiling := WithinCeiling(TokenReports(results), MaxProviderTokens),
        revoked := Bool(!c.resolvableAfterRevoke && c.revokedRejected),
        host := host))
  }

  predicate Passes(v: ArmRecord, p: ArmRecord, host: HostChecks) {
    ChecksOf(v, p, host).Some? && ChecksOf(v, p, host).value.AllHold()
  }

  // ------------------------------------------------------------------ what a passing verdict means

  /** The plan composes the two registered primitives, the second consuming the first. */
  predicate GoodPlan(o: Output) {
    && |o.stages| == 2 && o.stages[1].consumesPrior && o.targetRef == "range-cloud" && o.unconfirmed
    && {o.stages[0].primitive, o.stages[1].primitive}
       == {"METADATA_CREDENTIAL_EXPOSURE", "INTERNAL_SERVICE_AUTHORIZATION"}
    && {o.stages[0].capability, o.stages[1].capability}
       == {"aegis.cloud.metadata_boundary_probe", "aegis.cloud.internal_service_access"}
  }

  predicate ControlledA(c: ChainProbe) {
    exists p | p in c.stageA :: p.name == "CONTROL" && p.statusCode == 200
  }

  predicate ControlledB(c: ChainProbe) {
    exists p | p in c.stageB :: p.name == "CONTROL" && p.statusCode == 200
  }

  predicate CredentialSeen(c: ChainProbe) {
    exists p | p in c.stageA :: p.name == "BOUNDARY_PROBE" && p.credentialField
  }

  predicate EffectSeen(c: ChainProbe) {
    exists p | p in c.stageB :: p.name == "SERVICE_ACCESS" && p.adminEffect
  }

  /** The probe reached both stages live, saw the credential field and the effect, was refused
      without the reference, and had the reference revoked. */
  predicate GoodProbe(c: ChainProbe) {
    && ControlledA(c) && ControlledB(c) && CredentialSeen(c) && EffectSeen(c)
    && c.causal.Some? && !c.causal.value.adminEffect && c.causal.value.statusCode != 200
    && c.referencePresent && !c.resolvableAfterRevoke && c.revokedRejected
  }

  /** The recorded answers the verdict has to count: those that parsed and ended OK or were rejected by
      the gateway. */
  function Kept(steps: seq<Option<Step>>): seq<Answer> {
    if steps == [] then []
    else (if steps[0].Some? && steps[0].value.Some?
             && (steps[0].value.value.status == "OK" || steps[0].value.value.status == "GATEWAY_REJECTED")
          then [steps[0].value.value] else [])
         + Kept(steps[1..])
  }

  /** Everything counted is clean, of the exact model, and within both ceilings with exact usage. */
  predicate GoodResults(rs: seq<Answer>) {
    && rs != [] && (forall r | r in rs :: r.projectionsClean && r.identityExact)
    && CallTotal(CallReports(rs)).Some? && CallTotal(CallReports(rs)).value <= 12
    && (forall r | r in rs :: r.tokens.Num?) && Sum(TokenReports(rs)) <= 60_000
  }

  /** What a recorded step said, if it parsed and said anything. */
  function Said(s: Option<Step>): Option<Output> {
    if s.Some? && s.value.Some? then s.value.value.output else None
  }

  /** The plan is good, the stage A plan and the selection name the two registered capabilities, and
      neither selection nor interpretation claims a confirmation. */
  predicate GoodSays(plan: Option<Output>, stageA: Option<Output>, select: Option<Output>, interpret: Option<Output>) {
    && plan.Some? && GoodPlan(plan.value)
    && stageA.Some? && stageA.value.capability == "aegis.cloud.metadata_boundary_probe"
    && select.Some? && select.value.capability == "aegis.cloud.internal_service_access" && select.value.unconfirmed
    && interpret.Some? && interpret.value.unconfirmed
  }

  /** The arm's job was taken by its address, and queued, claimed and closed. */
  predicate JobRan(r: ArmRecord) {
    && "agentjob://CHAIN_AGENT/" <= r.job.address && r.job.claimed && r.job.resolved
    && |r.jobTransitions| >= 3
    && r.jobTransitions[0].Queued? && r.jobTransitions[1].Claimed? && r.jobTransitions[2].Closed?
  }

  /** Stage B's link hangs on stage A's and consumes its reference. */
  predicate TwoStages(a: Link, b: Link) {
    && a.stageIndex == 0 && a.producer == "CLOUD_BOUNDARY_AGENT" && a.consumer == "CHAIN_AGENT"
    && b.stageIndex == 1 && b.producer == "AUTHORIZATION_AGENT" && b.consumer == "CHAIN_AGENT"
    && a.id != "" && b.dependsOn == Some(a.id) && b.consumesPriorReference && "credential-reference" in b.inputRefs
    && IsDigest(a.sourceSha) && IsDigest(b.sourceSha)
  }

  /** Two links, one of each stage. */
  predicate TwoLinks(links: seq<Link>) {
    |links| == 2 && (TwoStages(links[0], links[1]) || TwoStages(links[1], links[0]))
  }

  /** The vulnerable arm confirmed both links and the whole chain. */
  predicate VulnerableInOrder(r: ArmRecord) {
    && JobRan(r) && TwoLinks(r.links)
    && r.verifyA == Some(Some("CONFIRMED")) == r.verifyB && r.finalState.ChainConfirmed?
    && r.planChain.Some? && r.planChain.value.Some? && r.planChain.value.value.status == "OK"
    && r.probe.Some? && r.probe.value.Some? && r.broker == Some(Some(true))
  }

  /** The patched arm was blocked with its verifier passing stage A, and nothing explained. */
  predicate PatchedInOrder(r: ArmRecord) {
    && JobRan(r) && r.verifyA == Some(Some("PASS")) && r.finalState.BlockedByPatch?
    && r.referencePresent == Some(false) && r.explain.None?
  }

  /** The vulnerable arm's answers, apart from its links. */
  predicate GoodVulnerable(v: ArmEnv) {
    && v.vulnerable
    && v.planChain.Some? && v.planChain.value.status == "OK"
    && v.planStageA.Some? && v.planStageA.value.status == "OK" && v.planStageA.value.output.Some?
    && v.broker == Some(true)
    && v.probe.Some? && GoodProbe(v.probe.value)
    && v.verifyA == Some("CONFIRMED") == v.verifyB
    && v.select.Some? && v.select.value.status == "OK"
    && GoodSays(Said(Some(v.planChain)), Said(Some(v.planStageA)), Said(Some(v.select)), Said(Some(v.interpret)))
  }

  /** The patched arm's plans were accepted, its verifier passed stage A and no reference was produced. */
  predicate GoodPatched(p: ArmEnv) {
    && !p.vulnerable
    && p.planChain.Some? && p.planChain.value.status == "OK"
    && p.planStageA.Some? && p.planStageA.value.status == "OK" && p.planStageA.value.output.Some?
    && p.broker.Some? && p.verifyA == Some("PASS")
    && !(p.probe.Some? && p.probe.value.referencePresent)
  }

  /** The steps a campaign starts whose vulnerable arm confirmed the chain and whose patched arm was
      blocked, in the order the verdict visits them. */
  function SevenSteps(v: ArmEnv, p: ArmEnv): seq<Option<Step>> {
    [Some(v.planChain), Some(v.planStageA), Some(v.interpret), Some(v.select), Some(v.explain),
     Some(p.planChain), Some(p.planStageA)]
  }

  function ResultsOf(v: ArmEnv, p: ArmEnv): seq<Answer> {
    Kept(SevenSteps(v, p))
  }

  lemma {:induction false} KeptOfConcat(a: seq<Option<Step>>, b: seq<Option<Step>>)
    ensures Kept(a + b) == Kept(a) + Kept(b)
  {
    if a == [] {
      assert a + b == b;
    } else {
      assert (a + b)[1..] == a[1..] + b;
      KeptOfConcat(a[1..], b);
    }
  }

  lemma KeptOne(s: Option<Step>)
    ensures Kept([s]) == Counted(s)
  {
    assert [s][1..] == [];
  }

  lemma ArmResultsAreKept(r: ArmRecord)
    ensures ArmResults(r) == Kept([r.planChain, r.planStageA, r.interpret, r.select, r.explain])
  {
    var five := [r.planChain, r.planStageA, r.interpret, r.select, r.explain];
    assert five == [r.planChain] + [r.planStageA] + [r.interpret] + [r.select] + [r.explain];
    KeptOfConcat([r.planChain] + [r.planStageA] + [r.interpret] + [r.select], [r.explain]);
    KeptOfConcat([r.planChain] + [r.planStageA] + [r.interpret], [r.select]);
    KeptOfConcat([r.planChain] + [r.planStageA], [r.interpret]);
    KeptOfConcat([r.planChain], [r.planStageA]);
    KeptOne(r.planChain);
    KeptOne(r.planStageA);
    KeptOne(r.interpret);
    KeptOne(r.select);
    KeptOne(r.explain);
  }

  /** The results the verdict counts are, in step order and arm by arm, exactly the kept answers. */
  lemma ResultsAreKept(v: ArmRecord, p: ArmRecord)
    ensures ModelResults(v, p)
         == Kept([v.planChain, v.planStageA, v.interpret, v.select, v.explain,
                  p.planChain, p.planStageA, p.interpret, p.select, p.explain])
  {
    ArmResultsAreKept(v);
    ArmResultsAreKept(p);
    var vs := [v.planChain, v.planStageA, v.interpret, v.select, v.explain];
    var ps := [p.planChain, p.planStageA, p.interpret, p.select, p.explain];
    KeptOfConcat(vs, ps);
    assert vs + ps == [v.planChain, v.planStageA, v.interpret, v.select, v.explain,
                       p.planChain, p.planStageA, p.interpret, p.select, p.explain];
  }

  lemma {:induction false} KeptSkipsMissing(steps: seq<Option<Step>>, more: seq<Option<Step>>)
    requires forall s | s in more :: s.None?
    ensures Kept(steps + more) == Kept(steps)
    decreases |more|
  {
    if more == [] {
      assert steps + more == steps;
    } else {
      KeptOfConcat(steps, more);
      KeptSkipsMissing([], more[1..]);
      assert [] + more[1..] == more[1..];
      assert more[0] in more;
      assert Kept(more) == Kept(more[1..]) == [];
      assert Kept(steps) + [] == Kept(steps);
    }
  }

  lemma WithinCeilingOfResults(rs: seq<Answer>)
    ensures WithinCeiling(TokenReports(rs), MaxProviderTokens).Holds?
       <==> rs != [] && (forall r | r in rs :: r.tokens.Num?) && Sum(TokenReports(rs)) <= MaxProviderTokens
  {
    WithinCeilingHoldsIff(TokenReports(rs), MaxProviderTokens);
    var ts := TokenReports(rs);
    if forall t | t in ts :: t.Num? {
      forall r | r in rs ensures r.tokens.Num? {
        var i :| 0 <= i < |rs| && rs[i] == r;
        assert ts[i] in ts;
      }
    }
  }

  lemma JobsOfArmRan(env: ArmEnv, t: Tables)
    ensures JobRan(ArmRecordOf(env, t))
  {
    assert "agentjob://CHAIN_AGENT/" <= JobScheme + env.jobId;
  }

  lemma BlockedRecord(p: ArmEnv, t: Tables)
    requires !p.vulnerable
    ensures PatchedInOrder(ArmRecordOf(p, t)) <==> GoodPatched(p)
    ensures var r := ArmRecordOf(p, t); GoodPatched(p) ==>
      && r.planChain == Some(p.planChain) && r.planStageA == Some(p.planStageA)
      && r.interpret.None? && r.select.None? && r.explain.None?
  {
    JobsOfArmRan(p, t);
  }

  /** The vulnerable arm is in order exactly if it confirmed the chain, its execution was shell-free and
      its two links are there. */
  lemma ConfirmedRecord(v: ArmEnv, t: Tables)
    requires v.vulnerable
    ensures var r := ArmRecordOf(v, t);
      VulnerableInOrder(r) <==> FinalState(v) == ChainConfirmed && v.broker == Some(true) && TwoLinks(r.links)
    ensures var r := ArmRecordOf(v, t); FinalState(v) == ChainConfirmed ==>
      && r.planChain == Some(v.planChain) && r.planStageA == Some(v.planStageA) && r.probe == Some(v.probe)
      && r.interpret == Some(v.interpret) && r.select == Some(v.select) && r.explain == Some(v.explain)
  {
    JobsOfArmRan(v, t);
  }

  lemma ResultsOfCampaign(v: ArmRecord, p: ArmRecord, steps: seq<Option<Step>>)
    requires p.interpret.None? && p.select.None? && p.explain.None?
    requires steps == [v.planChain, v.planStageA, v.interpret, v.select, v.explain, p.planChain, p.planStageA]
    ensures ModelResults(v, p) == Kept(steps)
  {
    ResultsAreKept(v, p);
    KeptSkipsMissing(steps, [None, None, None]);
    assert steps + [None, None, None]
        == [v.planChain, v.planStageA, v.interpret, v.select, v.explain,
            p.planChain, p.planStageA, p.interpret, p.select, p.explain];
  }

  lemma LinksHandedOff(v: ArmEnv)
    ensures TwoLinks([StageALink(v), StageBLink(v)])
  {
    var links := [StageALink(v), StageBLink(v)];
    assert TwoStages(links[0], links[1]);
  }

  /** Two links are handed off in the verdict's sense exactly if one of each stage is there. */
  lemma TwoLinksIff(links: seq<Link>)
    ensures TwoLinks(links) <==> HandedOff(links, LinkAt(links, 0), LinkAt(links, 1))
  {
    if |links| == 2 {
      assert links[..1] == [links[0]] && [links[0]][..0] == [];
      LinkOfTwo(links, 0);
      LinkOfTwo(links, 1);
    }
  }

  lemma LinkOfTwo(links: seq<Link>, stage: nat)
    requires |links| == 2
    ensures LinkAt(links, stage) == if links[1].stageIndex == stage then Some(links[1])
                                    else if links[0].stageIndex == stage then Some(links[0]) else None
  {
    assert links[..1] == [links[0]] && [links[0]][..0] == [];
    assert LinkAt([links[0]], stage) == if links[0].stageIndex == stage then Some(links[0]) else None;
  }

  /** What the verdict's checks read in the plan, and in the probe. */
  predicate PlanAsRead(o: Output) {
    && |o.stages| == 2 && o.stages[0].primitive != o.stages[1].primitive
    && {o.stages[0].primitive, o.stages[1].primitive} == {StageAPrimitive, StageBPrimitive}
    && o.stages[1].consumesPrior && o.targetRef == TargetRef && o.unconfirmed
    && (set s | s in o.stages :: s.capability) == {StageACapability, StageBCapability}
  }

  predicate ProbeAsRead(c: ChainProbe) {
    && StageAReached(c) && StageBReached(c) && SawCredential(c) && SawEffect(c)
    && c.causal.Some? && !c.causal.value.adminEffect && c.causal.value.statusCode != 200
    && c.referencePresent && !c.resolvableAfterRevoke && c.revokedRejected
  }

  lemma GoodPlanIff(o: Output)
    ensures GoodPlan(o) <==> PlanAsRead(o)
  {
    if |o.stages| == 2 {
      assert o.stages == [o.stages[0], o.stages[1]];
      assert (set s | s in o.stages :: s.capability) == {o.stages[0].capability, o.stages[1].capability};
      if o.stages[0].primitive == o.stages[1].primitive {
        assert StageAPrimitive in {StageAPrimitive, StageBPrimitive}
          && StageBPrimitive in {StageAPrimitive, StageBPrimitive};
        assert |StageAPrimitive| != |StageBPrimitive|;
      }
    }
  }

  lemma GoodProbeIff(c: ChainProbe)
    ensures GoodProbe(c) <==> ProbeAsRead(c)
  {
  }

  /** Records whose arms are out of order never pass. */
  lemma OutOfOrderNeverPasses(v: ArmRecord, p: ArmRecord, host: HostChecks)
    requires !VulnerableInOrder(v) || !PatchedInOrder(p)
    ensures !Passes(v, p, host)
  {
    if !PatchedInOrder(p) {
      PatchedOutOfOrder(v, p, host);
    } else {
      TwoLinksIff(v.links);
      VulnerableOutOfOrder(v, p, host);
    }
  }

  lemma PatchedOutOfOrder(v: ArmRecord, p: ArmRecord, host: HostChecks)
    requires !PatchedInOrder(p)
    ensures !Passes(v, p, host)
  {
  }

  lemma VulnerableOutOfOrder(v: ArmRecord, p: ArmRecord, host: HostChecks)
    requires !VulnerableInOrder(v)
    requires TwoLinks(v.links) <==> HandedOff(v.links, LinkAt(v.links, 0), LinkAt(v.links, 1))
    ensures !Passes(v, p, host)
  {
  }

  /** A step without an output reads as one that says nothing good. */
  lemma SaysIff(plan: Option<Step>, stageA: Option<Step>, select: Option<Step>, interpret: Option<Step>)
    ensures GoodSays(Said(plan), Said(stageA), Said(select), Said(interpret)) <==>
      && GoodPlan(OutputOf(plan))
      && OutputOf(stageA).capability == StageACapability && OutputOf(select).capability == StageBCapability
      && OutputOf(select).unconfirmed && OutputOf(interpret).unconfirmed
  {
  }

  /** Two records in order, in terms of what the checks read. */
  lemma PassesIffAsRead(v: ArmRecord, p: ArmRecord, host: HostChecks)
    requires JobConsumed(v) && JobConsumed(p) && HandedOff(v.links, LinkAt(v.links, 0), LinkAt(v.links, 1))
    requires Status(v.verifyA) == Confirms && Status(v.verifyB) == Confirms && v.finalState == ChainConfirmed
    requires Status(p.verifyA) == Some("PASS") && p.finalState == BlockedByPatch && p.referencePresent == Some(false)
    requires p.explain.None? && v.planChain.Some? && StepOk(v.planChain.value) && v.broker == Some(Some(true))
    ensures var rs := ModelResults(v, p);
      Passes(v, p, host) <==>
        && HostHolds(host) && rs != [] && (forall r | r in rs :: r.projectionsClean && r.identityExact)
        && CallTotal(CallReports(rs)).Some? && CallTotal(CallReports(rs)).value <= MaxProviderCalls
        && WithinCeiling(TokenReports(rs), MaxProviderTokens).Holds?
        && PlanAsRead(OutputOf(v.planChain)) && ProbeAsRead(ProbeOf(v))
        && OutputOf(v.planStageA).capability == StageACapability && OutputOf(v.select).capability == StageBCapability
        && OutputOf(v.select).unconfirmed && OutputOf(v.interpret).unconfirmed
  {
  }

  /** Records whose arms are in order pass exactly if what they hold is good. */
  lemma InOrderPassesIff(v: ArmRecord, p: ArmRecord, host: HostChecks)
    requires VulnerableInOrder(v) && PatchedInOrder(p)
    ensures Passes(v, p, host) <==>
      && host == HostChecks(Holds, Holds, Holds, Holds, Holds, Holds)
      && GoodSays(Said(v.planChain), Said(v.planStageA), Said(v.select), Said(v.interpret))
      && GoodProbe(v.probe.value.value) && GoodResults(ModelResults(v, p))
  {
    TwoLinksIff(v.links);
    SaysIff(v.planChain, v.planStageA, v.select, v.interpret);
    PassesIffAsRead(v, p, host);
    WithinCeilingOfResults(ModelResults(v, p));
    GoodPlanIff(OutputOf(v.planChain));
    GoodProbeIff(ProbeOf(v));
  }

  /** Two records pass, whatever wrote them, exactly if every host check holds, both arms are in order,
      and what the model said, the probe saw and the counted results report is good. */
  lemma RecordsPassIff(v: ArmRecord, p: ArmRecord, host: HostChecks)
    ensures Passes(v, p, host) <==>
      && host == HostChecks(Holds, Holds, Holds, Holds, Holds, Holds)
      && VulnerableInOrder(v) && PatchedInOrder(p)
      && GoodSays(Said(v.planChain), Said(v.planStageA), Said(v.select), Said(v.interpret))
      && GoodProbe(v.probe.value.value) && GoodResults(ModelResults(v, p))
  {
    if VulnerableInOrder(v) && PatchedInOrder(p) {
      InOrderPassesIff(v, p, host);
    } else {
      OutOfOrderNeverPasses(v, p, host);
    }
  }

  // ------------------------------------------------------------------ what each check says

  /** The link read for a stage is the last one with its index. */
  predicate LastOfStage(links: seq<Link>, stage: nat, i: nat) {
    i < |links| && links[i].stageIndex == stage && forall k | i < k < |links| :: links[k].stageIndex != stage
  }

  lemma {:induction false} LinkAtIff(links: seq<Link>, stage: nat, link: Link)
    ensures LinkAt(links, stage) == Some(link) <==> exists i | 0 <= i < |links| ::
            LastOfStage(links, stage, i) && links[i] == link
  {
    if links != [] {
      var front, n := links[..|links| - 1], |links| - 1;
      if links[n].stageIndex == stage {
        assert LastOfStage(links, stage, n);
      } else {
        LinkAtIff(front, stage, link);
        forall i | 0 <= i < n
          ensures LastOfStage(front, stage, i) <==> LastOfStage(links, stage, i)
        {
          assert forall k | 0 <= k < n :: front[k] == links[k];
        }
      }
    }
  }

  /** What is missing reads as an output that says nothing, or a probe that saw nothing and revoked
      nothing. */
  lemma MissingReads(s: Option<Step>, r: ArmRecord)
    ensures OutputOf(s) == if Said(s).Some? then Said(s).value else Output([], "", "", false)
    ensures ProbeOf(r)
         == if r.probe.Some? && r.probe.value.Some? then r.probe.value.value
            else ChainProbe([], [], None, false, true, false)
  {
  }

  lemma PlanChecksMean(v: ArmRecord, p: ArmRecord, host: HostChecks)
    requires CallTotal(CallReports(ModelResults(v, p))).Some?
    ensures var c, plan := ChecksOf(v, p, host).value, OutputOf(v.planChain);
      var stages, a, b := plan.stages, LinkAt(v.links, 0), LinkAt(v.links, 1);
      && c.distinctPrimitives
         == Bool(|stages| == 2 && {stages[0].primitive, stages[1].primitive}
                                  == {"METADATA_CREDENTIAL_EXPOSURE", "INTERNAL_SERVICE_AUTHORIZATION"})
      && c.causallyConnected
         == Bool(|stages| == 2 && stages[1].consumesPrior && a.Some? && a.value.id != ""
                 && b.Some? && b.value.consumesPriorReference && b.value.dependsOn == Some(a.value.id))
      && c.typedPlan
         == Bool(v.planChain.Some? && v.planChain.value.Some? && v.planChain.value.value.status == "OK"
                 && plan.targetRef == "range-cloud" && plan.unconfirmed)
      && c.scope == Bool(plan.targetRef == "range-cloud")
      && c.shellFree == Bool(v.broker == Some(Some(true)))
      && c.hypothesesFalse == Bool(plan.unconfirmed && OutputOf(v.interpret).unconfirmed
                                   && OutputOf(v.select).unconfirmed
                                   && v.links != [])
      && c.host == host
  {
    DistinctIff(OutputOf(v.planChain).stages);
  }

  lemma DistinctIff(stages: seq<PlanStage>)
    ensures |stages| == 2 && {stages[0].primitive, stages[1].primitive}
                             == {"METADATA_CREDENTIAL_EXPOSURE", "INTERNAL_SERVICE_AUTHORIZATION"}
      ==> stages[0].primitive != stages[1].primitive
  {
    if |stages| == 2 && stages[0].primitive == stages[1].primitive {
      assert {stages[0].primitive, stages[1].primitive} == {stages[0].primitive};
      assert |"METADATA_CREDENTIAL_EXPOSURE"| != |"INTERNAL_SERVICE_AUTHORIZATION"|;
      assert "METADATA_CREDENTIAL_EXPOSURE" in {"METADATA_CREDENTIAL_EXPOSURE", "INTERNAL_SERVICE_AUTHORIZATION"};
      assert "INTERNAL_SERVICE_AUTHORIZATION" in {"METADATA_CREDENTIAL_EXPOSURE", "INTERNAL_SERVICE_AUTHORIZATION"};
    }
  }

  lemma LedgerChecksMean(v: ArmRecord, p: ArmRecord, host: HostChecks)
    requires CallTotal(CallReports(ModelResults(v, p))).Some?
    ensures var c, stages := ChecksOf(v, p, host).value, OutputOf(v.planChain).stages;
      && c.jobConsumed == Bool(JobRan(v) && JobRan(p))
      && c.handoffPersisted == Bool(TwoLinks(v.links))
      && c.registeredOnly
         == Bool((forall s | s in stages :: s.capability == "aegis.cloud.metadata_boundary_probe"
                                            || s.capability == "aegis.cloud.internal_service_access")
                 && (exists s | s in stages :: s.capability == "aegis.cloud.metadata_boundary_probe")
                 && (exists s | s in stages :: s.capability == "aegis.cloud.internal_service_access")
                 && OutputOf(v.planStageA).capability == "aegis.cloud.metadata_boundary_probe"
                 && OutputOf(v.select).capability == "aegis.cloud.internal_service_access")
  {
    TwoLinksIff(v.links);
    JobRanIff(v);
    JobRanIff(p);
    CapabilitiesIff(OutputOf(v.planChain).stages);
  }

  lemma JobRanIff(r: ArmRecord)
    ensures JobConsumed(r) <==> JobRan(r)
  {
    if |r.jobTransitions| >= 3 {
      assert r.jobTransitions[..3] == [r.jobTransitions[0], r.jobTransitions[1], r.jobTransitions[2]];
    }
  }

  lemma CapabilitiesIff(stages: seq<PlanStage>)
    ensures (set s | s in stages :: s.capability) == {StageACapability, StageBCapability}
       <==> && (forall s | s in stages :: s.capability == StageACapability || s.capability == StageBCapability)
            && (exists s | s in stages :: s.capability == StageACapability)
            && (exists s | s in stages :: s.capability == StageBCapability)
  {
    var named := set s | s in stages :: s.capability;
    assert forall s | s in stages :: s.capability in named;
    if named == {StageACapability, StageBCapability} {
      assert StageACapability in named && StageBCapability in named;
    }
  }

  lemma ProbeChecksMean(v: ArmRecord, p: ArmRecord, host: HostChecks)
    requires CallTotal(CallReports(ModelResults(v, p))).Some?
    ensures var c, x := ChecksOf(v, p, host).value, ProbeOf(v);
      && c.stagesExecuted == Bool(ControlledA(x) && ControlledB(x))
      && c.liveObservations == Bool(CredentialSeen(x) && EffectSeen(x))
      && c.noFixture == Bool(ControlledA(x) && CredentialSeen(x) && EffectSeen(x))
      && c.causalControl == Bool(x.causal.Some? && !x.causal.value.adminEffect && x.causal.value.statusCode != 200
                                 && EffectSeen(x))
      && c.revoked == Bool(!x.resolvableAfterRevoke && x.revokedRejected)
    ensures var c, x := ChecksOf(v, p, host).value, ProbeOf(v);
      var a, b := LinkAt(v.links, 0), LinkAt(v.links, 1);
      && c.stageBNeedsA == Bool(b.Some? && b.value.consumesPriorReference && EffectSeen(x)
                                && b.value.dependsOn == if a.Some? then Some(a.value.id) else None)
      && c.opaqueReference == Bool(x.referencePresent && b.Some? && b.value.consumesPriorReference)
  {
    ReadsIff(ProbeOf(v));
  }

  lemma ReadsIff(c: ChainProbe)
    ensures StageAReached(c) <==> ControlledA(c)
    ensures StageBReached(c) <==> ControlledB(c)
    ensures SawCredential(c) <==> CredentialSeen(c)
    ensures SawEffect(c) <==> EffectSeen(c)
  {
  }

  lemma VerifierChecksMean(v: ArmRecord, p: ArmRecord, host: HostChecks)
    requires CallTotal(CallReports(ModelResults(v, p))).Some?
    ensures var c := ChecksOf(v, p, host).value;
      var confirmed := v.verifyA == v.verifyB == Some(Some("CONFIRMED"));
      && c.linksVerified == Bool(confirmed)
      && c.vulnerableConfirmed == Bool(confirmed && v.finalState.ChainConfirmed?)
      && c.patchedBlocked == Bool(p.verifyA == Some(Some("PASS")) && p.finalState.BlockedByPatch?
                                  && p.referencePresent == Some(false))
      && c.brokenNotConfirmed == Bool(!p.finalState.ChainConfirmed? && p.explain.None?)
  {
  }

  /** Without results the ceilings and the cleanliness of what was said are not passed but unchecked. */
  lemma ResultChecksMean(v: ArmRecord, p: ArmRecord, host: HostChecks)
    requires CallTotal(CallReports(ModelResults(v, p))).Some?
    ensures var c, rs := ChecksOf(v, p, host).value, ModelResults(v, p);
      && c.projectionsClean == (if rs == [] then NotChecked else Bool(forall r | r in rs :: r.projectionsClean))
      && c.identity == (if rs == [] then NotChecked else Bool(forall r | r in rs :: r.identityExact))
      && c.callCeiling == Bool(CallTotal(CallReports(rs)).value <= 12)
      && (rs == [] ==> c.tokenCeiling == NotChecked)
      && (rs != [] ==> (c.tokenCeiling.Holds? <==>
                          (forall r | r in rs :: r.tokens.Num?) && Sum(TokenReports(rs)) <= 60_000))
  {
    WithinCeilingOfResults(ModelResults(v, p));
  }

  // ------------------------------------------------------------------ the verdict over every campaign

  function VulnerableRecord(v: ArmEnv, t: Tables): ArmRecord {
    ArmRecordOf(v, t)
  }

  /** The patched arm runs second, in the ledger the vulnerable arm left. */
  function PatchedRecord(v: ArmEnv, p: ArmEnv, t: Tables): ArmRecord {
    ArmRecordOf(p, ArmTables(v, t))
  }

  /** The campaign passes if and only if the vulnerable arm confirmed the chain on good answers and
      under new link ids, the patched arm was blocked with its verifier passing stage A and no
      reference produced, and the counted results are good. In particular no failing exit passes. */
  lemma VerdictPassesIff(v: ArmEnv, p: ArmEnv, t: Tables, host: HostChecks)
    requires Consistent(t) && v.jobId !in t.jobs && v.vulnerable && !p.vulnerable
    ensures Passes(VulnerableRecord(v, t), PatchedRecord(v, p, t), host) <==>
      && host == HostChecks(Holds, Holds, Holds, Holds, Holds, Holds)
      && GoodVulnerable(v) && NewLinks(v, t) && GoodPatched(p) && GoodResults(ResultsOf(v, p))
  {
    var rv, rp := VulnerableRecord(v, t), PatchedRecord(v, p, t);
    BlockedRecord(p, ArmTables(v, t));
    VulnerableIsGoodIff(v, t);
    RecordsPassIff(rv, rp, host);
    if GoodVulnerable(v) && GoodPatched(p) {
      GoodConfirms(v);
      ConfirmedRecord(v, t);
      ResultsOfCampaign(rv, rp, SevenSteps(v, p));
    }
  }

  lemma VulnerableIsGoodIff(v: ArmEnv, t: Tables)
    requires Consistent(t) && v.jobId !in t.jobs && v.vulnerable
    ensures var r := ArmRecordOf(v, t);
      VulnerableInOrder(r) && GoodSays(Said(r.planChain), Said(r.planStageA), Said(r.select), Said(r.interpret))
      && GoodProbe(r.probe.value.value)
      <==> GoodVulnerable(v) && NewLinks(v, t)
  {
    ConfirmedRecord(v, t);
    ChainConfirmedIff(v);
    if FinalState(v) == ChainConfirmed {
      LinksOfConfirmed(v, t);
    }
  }

  lemma LinksOfConfirmed(v: ArmEnv, t: Tables)
    requires Consistent(t) && v.jobId !in t.jobs && FinalState(v) == ChainConfirmed
    ensures TwoLinks(ArmRecordOf(v, t).links) <==> NewLinks(v, t)
  {
    if NewLinks(v, t) {
      LinksOfArm(v, t);
      LinksHandedOff(v);
    } else {
      StaleLinksGoMissing(v, t);
    }
  }

  /** A step's answer is among the counted results. */
  predicate IsCounted(s: Step) {
    s.Some? && (s.value.status == "OK" || s.value.status == "GATEWAY_REJECTED")
  }

  lemma KeptCount(v: ArmEnv, p: ArmEnv)
    requires GoodVulnerable(v) && GoodPatched(p)
    ensures |Kept(SevenSteps(v, p))| == 5 + (if IsCounted(v.interpret) then 1 else 0)
            + (if IsCounted(v.explain) then 1 else 0)
  {
    var s := SevenSteps(v, p);
    assert s == s[..2] + [s[2]] + [s[3]] + [s[4]] + s[5..];
    KeptOfConcat(s[..2] + [s[2]] + [s[3]] + [s[4]], s[5..]);
    KeptOfConcat(s[..2] + [s[2]] + [s[3]], [s[4]]);
    KeptOfConcat(s[..2] + [s[2]], [s[3]]);
    KeptOfConcat(s[..2], [s[2]]);
    KeptOfTwo(s[0], s[1]);
    KeptOfTwo(s[5], s[6]);
    assert s[..2] == [s[0], s[1]] && s[5..] == [s[5], s[6]];
    assert |Kept([s[2]])| == if IsCounted(v.interpret) then 1 else 0 by { KeptOne(s[2]); }
    assert |Kept([s[3]])| == 1 by { KeptOne(s[3]); }
    assert |Kept([s[4]])| == if IsCounted(v.explain) then 1 else 0 by { KeptOne(s[4]); }
  }

  lemma KeptOfTwo(a: Option<Step>, b: Option<Step>)
    ensures Kept([a, b]) == Kept([a]) + Kept([b])
  {
    assert [a, b] == [a] + [b];
    KeptOfConcat([a], [b]);
  }

  /** What a passing verdict says about the ledger: two links, the second depending on the first and
      consuming its reference, and the patched arm blocked with nothing to hand on. */
  lemma PassingLinks(v: ArmEnv, p: ArmEnv, t: Tables, host: HostChecks)
    requires Consistent(t) && v.jobId !in t.jobs && v.vulnerable && !p.vulnerable
    requires Passes(VulnerableRecord(v, t), PatchedRecord(v, p, t), host)
    ensures VulnerableRecord(v, t).links
         == [Link(v.linkAId, 0, "CLOUD_BOUNDARY_AGENT", "CHAIN_AGENT",
                  [], ["credential-reference"], v.shaA, None, false, Confirmed),
             Link(v.linkBId, 1, "AUTHORIZATION_AGENT", "CHAIN_AGENT",
                  ["credential-reference"], ["private-operation-effect"], v.shaB, Some(v.linkAId), true, Confirmed)]
    ensures VulnerableRecord(v, t).chainTransitions == [Running, LinkConfirmed, ChainConfirmed]
    ensures var rp := PatchedRecord(v, p, t);
      && rp.chainTransitions == [Running, BlockedByPatch] && rp.referencePresent == Some(false)
      && rp.verifyA == Some(Some("PASS"))
  {
    VerdictPassesIff(v, p, t, host);
    LinksOfArm(v, t);
    ChainConfirmedIff(v);
    BlockedByPatchIff(p);
    assert StatesOfArm(p)[|StatesOfArm(p)| - 1] == BlockedByPatch;
  }

  /** What it says about the run: seven steps started, of which all but the interpretation and the
      explanation are certain to be in the totals, and these two exactly if they ended OK or were
      rejected by the gateway; and exact totals within the ceilings. */
  lemma PassingCampaign(v: ArmEnv, p: ArmEnv, t: Tables, host: HostChecks)
    requires Consistent(t) && v.jobId !in t.jobs && v.vulnerable && !p.vulnerable
    requires Passes(VulnerableRecord(v, t), PatchedRecord(v, p, t), host)
    ensures StepsIn(VulnerableRecord(v, t)) + StepsIn(PatchedRecord(v, p, t)) == 7
    ensures var results := ModelResults(VulnerableRecord(v, t), PatchedRecord(v, p, t));
      && results == Kept(SevenSteps(v, p))
      && |results| == 5 + (if IsCounted(v.interpret) then 1 else 0) + (if IsCounted(v.explain) then 1 else 0)
      && TotalOf(TokenReports(results)) == Known(Sum(TokenReports(results)))
      && Sum(TokenReports(results)) <= 60_000
      && CallTotal(CallReports(results)).Some? && CallTotal(CallReports(results)).value <= 12
  {
    VerdictPassesIff(v, p, t, host);
    BlockedRecord(p, ArmTables(v, t));
    ConfirmedRecord(v, t);
    GoodConfirms(v);
    ResultsOfCampaign(VulnerableRecord(v, t), PatchedRecord(v, p, t), SevenSteps(v, p));
    KeptCount(v, p);
    ExactTotal(ResultsOf(v, p));
  }

  lemma GoodConfirms(v: ArmEnv)
    requires GoodVulnerable(v)
    ensures FinalState(v) == ChainConfirmed
  {
    ChainConfirmedIff(v);
  }

  lemma ExactTotal(rs: seq<Answer>)
    requires forall r | r in rs :: r.tokens.Num?
    ensures TotalOf(TokenReports(rs)) == Known(Sum(TokenReports(rs)))
  {
    var ts := TokenReports(rs);
    forall r | r in ts ensures r.Num? {
      var i :| 0 <= i < |ts| && ts[i] == r;
      assert rs[i] in rs;
    }
    KnownTotal(ts);
  }

  lemma BlockedArmLinks(p: ArmEnv, u: Tables)
    requires Consistent(u) && p.jobId !in u.jobs && FreshLink(u.links, p.linkAId)
    requires GoodPatched(p)
    ensures ArmRecordOf(p, u).links
         == [Link(p.linkAId, 0, "CLOUD_BOUNDARY_AGENT", "CHAIN_AGENT", [], [], p.shaA, None, false, Passed)]
  {
    LinksOfArm(p, u);
  }

  /** The patched arm of a passing campaign holds stage A's link alone, with no reference in it. */
  lemma PassingPatchedArm(v: ArmEnv, p: ArmEnv, t: Tables, host: HostChecks)
    requires Consistent(t) && v.jobId !in t.jobs && v.vulnerable && !p.vulnerable
    requires Passes(VulnerableRecord(v, t), PatchedRecord(v, p, t), host)
    requires p.jobId !in ArmTables(v, t).jobs && FreshLink(ArmTables(v, t).links, p.linkAId)
    ensures PatchedRecord(v, p, t).links
         == [Link(p.linkAId, 0, "CLOUD_BOUNDARY_AGENT", "CHAIN_AGENT", [], [], p.shaA, None, false, Passed)]
  {
    VerdictPassesIff(v, p, t, host);
    ArmKeepsConsistent(v, t);
    BlockedArmLinks(p, ArmTables(v, t));
  }

  /** The arm with its explanation lost: the step ran, but its last output line did not parse. */
  function Lost(v: ArmEnv): ArmEnv {
    v.(explain := None)
  }

  lemma LostArm(v: ArmEnv, t: Tables)
    requires GoodVulnerable(v)
    ensures GoodVulnerable(Lost(v)) && NewLinks(Lost(v), t) == NewLinks(v, t)
    ensures StepsIn(ArmRecordOf(Lost(v), t)) == StepsIn(ArmRecordOf(v, t))
  {
  }

  lemma ResultsAroundExplanation(v: ArmEnv, p: ArmEnv)
    requires IsCounted(v.explain)
    ensures var s := SevenSteps(v, p);
      && ResultsOf(v, p) == Kept(s[..4]) + [v.explain.value] + Kept(s[5..])
      && ResultsOf(Lost(v), p) == Kept(s[..4]) + Kept(s[5..])
  {
    var s, l := SevenSteps(v, p), SevenSteps(Lost(v), p);
    assert s == s[..4] + [s[4]] + s[5..] && l == s[..4] + [l[4]] + s[5..];
    KeptOfConcat(s[..4] + [s[4]], s[5..]);
    KeptOfConcat(s[..4], [s[4]]);
    KeptOfConcat(s[..4] + [l[4]], s[5..]);
    KeptOfConcat(s[..4], [l[4]]);
    KeptOne(s[4]);
    KeptOne(l[4]);
    assert Kept(s[..4]) + [] == Kept(s[..4]);
  }

  lemma LostResults(v: ArmEnv, p: ArmEnv)
    requires IsCounted(v.explain) && GoodResults(ResultsOf(v, p)) && GoodPatched(p)
    requires Figure(v.explain.value.tokens) >= 0 && CallCount(v.explain.value.calls).Some?
             && CallCount(v.explain.value.calls).value >= 0
    ensures GoodResults(ResultsOf(Lost(v), p))
    ensures |ResultsOf(Lost(v), p)| == |ResultsOf(v, p)| - 1
    ensures Sum(TokenReports(ResultsOf(Lost(v), p)))
         == Sum(TokenReports(ResultsOf(v, p))) - Figure(v.explain.value.tokens)
  {
    var s := SevenSteps(v, p);
    ResultsAroundExplanation(v, p);
    assert Kept(s[5..]) != [];
    DroppedResult(Kept(s[..4]), v.explain.value, Kept(s[5..]));
  }

  lemma DroppedResult(head: seq<Answer>, x: Answer, tail: seq<Answer>)
    requires GoodResults(head + [x] + tail) && tail != []
    requires Figure(x.tokens) >= 0 && CallCount(x.calls).Some? && CallCount(x.calls).value >= 0
    ensures GoodResults(head + tail)
    ensures Sum(TokenReports(head + tail)) == Sum(TokenReports(head + [x] + tail)) - Figure(x.tokens)
  {
    TotalsWithout(head, x, tail);
    assert forall r | r in head + tail :: r in head + [x] + tail;
  }

  /** The totals may leave out the last call: a campaign that passes with its explanation counted
      still passes if that answer is lost, one result short and with the lost call's tokens gone
      from the total. */
  lemma LostExplanationStillPasses(v: ArmEnv, p: ArmEnv, t: Tables, host: HostChecks)
    requires Consistent(t) && v.jobId !in t.jobs && v.vulnerable && !p.vulnerable
    requires Passes(VulnerableRecord(v, t), PatchedRecord(v, p, t), host)
    requires IsCounted(v.explain)
    requires Figure(v.explain.value.tokens) >= 0 && CallCount(v.explain.value.calls).Some?
             && CallCount(v.explain.value.calls).value >= 0
    ensures Passes(VulnerableRecord(Lost(v), t), PatchedRecord(Lost(v), p, t), host)
    ensures StepsIn(VulnerableRecord(Lost(v), t)) == StepsIn(VulnerableRecord(v, t))
    ensures |ResultsOf(Lost(v), p)| == |ResultsOf(v, p)| - 1
    ensures Sum(TokenReports(ResultsOf(Lost(v), p)))
         == Sum(TokenReports(ResultsOf(v, p))) - Figure(v.explain.value.tokens)
  {
    VerdictPassesIff(v, p, t, host);
    VerdictPassesIff(Lost(v), p, t, host);
    LostArm(v, t);
    LostResults(v, p);
  }

  lemma TotalsWithout(head: seq<Answer>, x: Answer, tail: seq<Answer>)
    requires CallTotal(CallReports(head + [x] + tail)).Some?
    ensures Sum(TokenReports(head + [x] + tail)) == Sum(TokenReports(head + tail)) + Figure(x.tokens)
    ensures CallTotal(CallReports(head + tail)).Some? && CallCount(x.calls).Some?
    ensures CallTotal(CallReports(head + [x] + tail)).value
         == CallTotal(CallReports(head + tail)).value + CallCount(x.calls).value
  {
    var th, tt, ch, ct := TokenReports(head), TokenReports(tail), CallReports(head), CallReports(tail);
    assert TokenReports(head + [x] + tail) == th + [x.tokens] + tt && TokenReports(head + tail) == th + tt;
    assert CallReports(head + [x] + tail) == ch + [x.calls] + ct && CallReports(head + tail) == ch + ct;
    SumOfConcat(th + [x.tokens], tt);
    SumOfConcat(th, [x.tokens]);
    SumOfConcat(th, tt);
    assert [x.tokens][1..] == [] && [x.calls][1..] == [];
    CallTotalOfConcat(ch + [x.calls], ct);
    CallTotalOfConcat(ch, [x.calls]);
    CallTotalOfConcat(ch, ct);
  }

  // ------------------------------------------------------------------ a concrete campaign

  function Answered(stages: seq<PlanStage>, capability: string): Step {
    Some(Answer("OK", Num(1), Num(100), true, true, Some(Output(stages, TargetRef, capability, true))))
  }

  const TwoStagePlan: Step := Answered(
    [PlanStage(StageAPrimitive, StageACapability, false), PlanStage(StageBPrimitive, StageBCapability, true)], "")

  const LiveProbe := ChainProbe(
    [StageAProbe("CONTROL", 200, false), StageAProbe("BOUNDARY_PROBE", 200, true)],
    [StageBProbe("CONTROL", 200, false), StageBProbe("SERVICE_ACCESS", 200, true)],
    Some(CausalControl(403, false)), true, false, true)

  /** The vulnerable arm of the example: its explanation step ran and its answer was lost. */
  const ExampleVulnerable := ArmEnv(
    true, "chjob-a", "clink-000000000000000a", "clink-000000000000000b",
    TwoStagePlan, Answered([], StageACapability), Some(true), Some(LiveProbe), Genesis, Genesis,
    Confirms, Answered([], ""), Answered([], StageBCapability), Confirms, None)

  const ExamplePatched := ArmEnv(
    false, "chjob-b", "clink-000000000000000c", "clink-000000000000000d",
    TwoStagePlan, Answered([], StageACapability), Some(true), None, Genesis, Genesis,
    Some("PASS"), None, None, None, None)

  /** A campaign that started seven model steps passes on the totals of six. */
  lemma SixOfSevenPass(host: HostChecks)
    requires HostHolds(host)
    ensures var rv := VulnerableRecord(ExampleVulnerable, EmptyTables);
      var rp := PatchedRecord(ExampleVulnerable, ExamplePatched, EmptyTables);
      Passes(rv, rp, host) && StepsIn(rv) + StepsIn(rp) == 7 && |ModelResults(rv, rp)| == 6
  {
    ExampleIsGood();
    SixResults();
    VerdictPassesIff(ExampleVulnerable, ExamplePatched, EmptyTables, host);
    PassingCampaign(ExampleVulnerable, ExamplePatched, EmptyTables, host);
  }

  lemma ExampleIsGood()
    ensures GoodVulnerable(ExampleVulnerable) && GoodPatched(ExamplePatched)
    ensures Consistent(EmptyTables) && NewLinks(ExampleVulnerable, EmptyTables)
  {
    var c := LiveProbe;
    assert c.stageA[0].name == "CONTROL" && c.stageB[0].name == "CONTROL";
    assert c.stageA[1].name == "BOUNDARY_PROBE" && c.stageB[1].name == "SERVICE_ACCESS";
    assert GoodProbe(c);
    assert ExampleVulnerable.linkAId[21] != ExampleVulnerable.linkBId[21];
  }

  lemma {:induction false} KeptFrom(steps: seq<Option<Step>>)
    ensures forall r | r in Kept(steps) :: Some(Some(r)) in steps
  {
    if steps != [] {
      KeptFrom(steps[1..]);
      assert forall s | s in steps[1..] :: s in steps;
    }
  }

  /** The answers of the example: one call of a hundred tokens each, clean and of the exact model. */
  predicate Standard(r: Answer) {
    r.tokens == Num(100) && r.calls == Num(1) && r.projectionsClean && r.identityExact
  }

  lemma ExampleStepsAreStandard()
    ensures forall s | s in SevenSteps(ExampleVulnerable, ExamplePatched) ::
            s.Some? && (s.value.Some? ==> Standard(s.value.value))
  {
  }

  lemma StandardResults(rs: seq<Answer>)
    requires |rs| == 6 && forall r | r in rs :: Standard(r)
    ensures GoodResults(rs)
  {
    assert forall i | 0 <= i < |rs| :: rs[i] in rs;
    SumOfEqual(TokenReports(rs), 100);
    CallsOfOne(CallReports(rs));
  }

  lemma SixResults()
    ensures GoodResults(ResultsOf(ExampleVulnerable, ExamplePatched))
  {
    var steps := SevenSteps(ExampleVulnerable, ExamplePatched);
    ExampleIsGood();
    KeptCount(ExampleVulnerable, ExamplePatched);
    ExampleStepsAreStandard();
    KeptFrom(steps);
    forall r | r in Kept(steps)
      ensures Standard(r)
    {
      assert Some(Some(r)) in steps;
    }
    StandardResults(Kept(steps));
  }
}
