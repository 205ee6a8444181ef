/** One arm of the multi-primitive chain campaign, driven against an arbitrary environment. */
module ChainArm {
  import opened Wrappers
  import opened Trails
  import opened ProviderUsage
  import opened Digests
  import opened ChainLedger
  import AgentQueue

  type LinkId = s: string | AgentQueue.IsHexId("clink-", s) witness "clink-0000000000000000"

  // ------------------------------------------------------------------ answers of the environment

  datatype PlanStage = PlanStage(primitive: string, capability: string, consumesPrior: bool)

  /** What a validated model output says; tasks that have no such field leave it at its default. */
  datatype Output = Output(stages: seq<PlanStage>, targetRef: string, capability: string, unconfirmed: bool)

  datatype Answer = Answer(
    status: string, calls: Reported, tokens: Reported,
    identityExact: bool, projectionsClean: bool, output: Option<Output>)

  /** A model step's answer, or None if its last output line does not parse. */
  type Step = Option<Answer>

  datatype StageAProbe = StageAProbe(name: string, statusCode: int, credentialField: bool)

  datatype StageBProbe = StageBProbe(name: string, statusCode: int, adminEffect: bool)

  datatype CausalControl = CausalControl(statusCode: int, adminEffect: bool)

  datatype ChainProbe = ChainProbe(
    stageA: seq<StageAProbe>, stageB: seq<StageBProbe>, causal: Option<CausalControl>,
    referencePresent: bool, resolvableAfterRevoke: bool, revokedRejected: bool)

  type Verified = Option<string>

  /** Everything one arm may be answered. `broker` is None if rendering the stage A plan raises, and
      otherwise says whether the execution is shell-free; `probe` is None if it does not parse. */
  datatype ArmEnv = ArmEnv(
    vulnerable: bool, jobId: string, linkAId: LinkId, linkBId: LinkId,
    planChain: Step, planStageA: Step, broker: Option<bool>, probe: Option<ChainProbe>,
    shaA: Digest, shaB: Digest,
    verifyA: Verified, interpret: Step, select: Step, verifyB: Verified, explain: Step)

  // ------------------------------------------------------------------ the record

  datatype JobEntry = JobEntry(address: string, claimed: bool, resolved: bool, closed: bool)

  /** Entries are present once the arm has got that far. */
  datatype ArmRecord = ArmRecord(
    job: JobEntry,
    planChain: Option<Step>, planStageA: Option<Step>, broker: Option<Option<bool>>,
    probe: Option<Option<ChainProbe>>, verifyA: Option<Verified>,
    interpret: Option<Step>, select: Option<Step>, verifyB: Option<Verified>, explain: Option<Step>,
    referencePresent: Option<bool>,
    jobTransitions: seq<JobStatus>, chainTransitions: seq<ChainState>,
    finalState: ChainState, links: seq<Link>)

  const JobScheme := "agentjob://CHAIN_AGENT/"

  const Reference := "credential-reference"
  const Effect := "private-operation-effect"
  const Confirms: Verified := Some("CONFIRMED")

  // ------------------------------------------------------------------ one arm, as a function

  predicate StepOk(s: Step) {
    s.Some? && s.value.status == "OK"
  }

  /** Both plans are in and the broker rendered the second one. */
  predicate PlansAccepted(env: ArmEnv) {
    StepOk(env.planChain) && StepOk(env.planStageA) && Rendered(env).Some?
  }

  /** The broker can only render a plan that is there. */
  function Rendered(env: ArmEnv): Option<bool> {
    if env.planStageA.Some? && env.planStageA.value.output.Some? then env.broker else None
  }

  predicate HasReference(env: ArmEnv) {
    env.probe.Some? && env.probe.value.referencePresent
  }

  datatype Exit = PlanFailed | StageAPlanFailed | BrokerRefused | Blocked | NoArtifact | SelectFailed | Completed

  function ExitOf(env: ArmEnv): Exit {
    if !StepOk(env.planChain) then PlanFailed
    else if !StepOk(env.planStageA) then StageAPlanFailed
    else if Rendered(env).None? then BrokerRefused
    else if !env.vulnerable then Blocked
    else if !HasReference(env) || env.verifyA != Confirms then NoArtifact
    else if !StepOk(env.select) then SelectFailed
    else Completed
  }

  function Rank(e: Exit): nat {
    match e
    case PlanFailed => 0
    case StageAPlanFailed => 1
    case BrokerRefused => 2
    case Blocked => 3
    case NoArtifact => 3
    case SelectFailed => 4
    case Completed => 5
  }

  function FinalState(env: ArmEnv): ChainState {
    match ExitOf(env)
    case Blocked => BlockedByPatch
    case Completed => if env.verifyB == Confirms then ChainConfirmed else Failed
    case _ => Failed
  }

  /** The states the chain goes through. */
  function StatesOfArm(env: ArmEnv): seq<ChainState> {
    [Running] + (if Rank(ExitOf(env)) >= 4 then [LinkConfirmed] else []) + [FinalState(env)]
  }

  function LinkStateOf(v: Verified): LinkState {
    if v == Confirms then Confirmed else if v == Some("PASS") then Passed else Incomplete
  }

  function StageALink(env: ArmEnv): Link {
    Link(env.linkAId, 0, "CLOUD_BOUNDARY_AGENT", "CHAIN_AGENT",
         [], if HasReference(env) then [Reference] else [], env.shaA, None, false, LinkStateOf(env.verifyA))
  }

  function StageBLink(env: ArmEnv): Link {
    Link(env.linkBId, 1, "AUTHORIZATION_AGENT", "CHAIN_AGENT",
         [Reference], if env.verifyB == Confirms then [Effect] else [], env.shaB,
         Some(env.linkAId), true, LinkStateOf(env.verifyB))
  }

  /** The link rows after the arm. */
  function RowsAfter(env: ArmEnv, rows: seq<LinkRow>): seq<LinkRow> {
    var rank := Rank(ExitOf(env));
    if rank < 3 then rows
    else
      var withA := UpsertRow(rows, env.jobId, StageALink(env));
      if rank < 5 then withA else UpsertRow(withA, env.jobId, StageBLink(env))
  }

  function Changes(id: string, from: Option<ChainState>, states: seq<ChainState>): seq<Move<ChainState>>
    decreases |states|
  {
    if states == [] then [] else [Move(id, from, states[0])] + Changes(id, Some(states[0]), states[1..])
  }

  /** The ledger after the arm. */
  function ArmTables(env: ArmEnv, t: Tables): Tables {
    Tables(
      t.jobs[env.jobId := Closed],
      t.jobTrail + [Move(env.jobId, None, Queued)] + [Move(env.jobId, Some(Queued), Claimed)]
        + [Move(env.jobId, Some(Claimed), Closed)],
      t.chains[env.jobId := FinalState(env)],
      t.trace + Changes(env.jobId, None, StatesOfArm(env)),
      RowsAfter(env, t.links))
  }

  function ArmRecordOf(env: ArmEnv, t: Tables): ArmRecord {
    var e := ExitOf(env);
    var rank := Rank(e);
    ArmRecord(
      job := JobEntry(JobScheme + env.jobId, true, true, true),
      planChain := Some(env.planChain),
      planStageA := if rank >= 1 then Some(env.planStageA) else None,
      broker := if rank >= 2 then Some(Rendered(env)) else None,
      probe := if rank >= 3 then Some(env.probe) else None,
      verifyA := if rank >= 3 then Some(env.verifyA) else None,
      interpret := if rank >= 4 then Some(env.interpret) else None,
      select := if rank >= 4 then Some(env.select) else None,
      verifyB := if rank >= 5 then Some(env.verifyB) else None,
      explain := if rank >= 5 && env.verifyB == Confirms then Some(env.explain) else None,
      referencePresent := if e.Blocked? || e.Completed? then Some(HasReference(env)) else None,
      jobTransitions := [Queued, Claimed, Closed],
      chainTransitions := StatesOfArm(env),
      finalState := FinalState(env),
      links := LinksOf(ArmTables(env, t), env.jobId))
  }

  // ------------------------------------------------------------------ one arm, as it runs

  const EmptyRecord := ArmRecord(
    JobEntry("", false, false, false), None, None, None, None, None, None, None, None, None, None, [], [], Failed, [])

  /** End the chain in `state`, close the job and read everything back into the record: the arm's
      inner failure routine, which its last step repeats. */
  method Finish(ledger: Ledger, id: string, state: ChainState, partial: ArmRecord) returns (r: ArmRecord)
    requires id in ledger.View().jobs && ledger.View().jobs[id].Claimed?
    modifies ledger
    ensures ledger.View() == Closing(Upserted(old(ledger.View()), id, state), id)
    ensures var t := ledger.View();
      r == partial.(job := partial.job.(closed := true),
                    jobTransitions := StatesOf(t.jobTrail, id), chainTransitions := StatesOf(t.trace, id),
                    finalState := state, links := LinksOf(t, id))
  {
    ledger.UpsertChain(id, state);
    var closed := ledger.CloseJob(id);
    var t := ledger.View();
    r := partial.(job := partial.job.(closed := closed),
                  jobTransitions := StatesOf(t.jobTrail, id), chainTransitions := StatesOf(t.trace, id),
                  finalState := state, links := LinksOf(t, id));
  }

  /** The ledger while the arm runs: its job is claimed, its chain is in the last of `states`. */
  ghost predicate During(now: Tables, t: Tables, id: string, states: seq<ChainState>, rows: seq<LinkRow>) {
    && states != []
    && now == Tables(
         t.jobs[id := Claimed],
         t.jobTrail + [Move(id, None, Queued)] + [Move(id, Some(Queued), Claimed)],
         t.chains[id := states[|states| - 1]],
         t.trace + Changes(id, None, states),
         rows)
  }

  lemma {:induction false} ChangesOfConcat(id: string, from: Option<ChainState>, states: seq<ChainState>, s: ChainState)
    ensures Changes(id, from, states + [s])
         == Changes(id, from, states)
            + [Move(id, if states == [] then from else Some(states[|states| - 1]), s)]
    decreases |states|
  {
    if states == [] {
      assert [s][1..] == [];
    } else {
      assert (states + [s])[1..] == states[1..] + [s];
      ChangesOfConcat(id, Some(states[0]), states[1..], s);
    }
  }

  lemma UpsertDuring(now: Tables, t: Tables, id: string, states: seq<ChainState>, rows: seq<LinkRow>, s: ChainState)
    requires During(now, t, id, states, rows) && s != states[|states| - 1]
    ensures During(Upserted(now, id, s), t, id, states + [s], rows)
  {
    ChangesOfConcat(id, None, states, s);
    assert t.chains[id := states[|states| - 1]][id := s] == t.chains[id := s];
  }

  lemma FinishedTables(env: ArmEnv, now: Tables, t: Tables)
    requires During(now, t, env.jobId, StatesOfArm(env), RowsAfter(env, t.links))
    ensures Closing(now, env.jobId) == ArmTables(env, t)
  {
    assert t.jobs[env.jobId := Claimed][env.jobId := Closed] == t.jobs[env.jobId := Closed];
  }

  lemma {:induction false} TraceOfChanges(trace: seq<Move<ChainState>>, id: string, from: Option<ChainState>,
                                          states: seq<ChainState>)
    requires StatesOf(trace, id) == []
    ensures StatesOf(trace + Changes(id, from, states), id) == states
    decreases |states|
  {
    if states == [] {
      assert trace + [] == trace;
    } else {
      var front, last := states[..|states| - 1], states[|states| - 1];
      assert states == front + [last];
      ChangesOfConcat(id, from, front, last);
      TraceOfChanges(trace, id, from, front);
      var c := Move(id, if front == [] then from else Some(front[|front| - 1]), last);
      StatesAfter(trace + Changes(id, from, front), c, id);
      assert trace + Changes(id, from, states) == trace + Changes(id, from, front) + [c];
    }
  }

  /** Over every run: the job's rows read QUEUED, CLAIMED, CLOSED and the chain's trace is RUNNING,
      then LINK_CONFIRMED if the arm got that far, then one terminal state; whatever belongs to
      other jobs is as before. */
  lemma ArmTrails(env: ArmEnv, t: Tables)
    requires Consistent(t) && env.jobId !in t.jobs
    ensures var t' := ArmTables(env, t);
      && StatesOf(t'.jobTrail, env.jobId) == [Queued, Claimed, Closed]
      && StatesOf(t'.trace, env.jobId) == StatesOfArm(env)
      && (forall id | id in t.jobs :: id in t'.jobs && t'.jobs[id] == t.jobs[id])
      && (forall id | id in t.chains :: id in t'.chains && t'.chains[id] == t.chains[id])
      && t'.jobs[env.jobId].Closed? && t'.chains[env.jobId] == FinalState(env)
      && FinalState(env) in {BlockedByPatch, ChainConfirmed, Failed}
  {
    var id := env.jobId;
    UnknownJobHasNothing(t, id);
    StatesAfter(t.jobTrail, Move(id, None, Queued), id);
    StatesAfter(t.jobTrail + [Move(id, None, Queued)], Move(id, Some(Queued), Claimed), id);
    StatesAfter(t.jobTrail + [Move(id, None, Queued)] + [Move(id, Some(Queued), Claimed)],
                Move(id, Some(Claimed), Closed), id);
    TraceOfChanges(t.trace, id, None, StatesOfArm(env));
  }

  /** The last stretch of every exit: from the running ledger to the arm's record. */
  method LeaveArm(env: ArmEnv, ledger: Ledger, partial: ArmRecord, ghost t: Tables, ghost states: seq<ChainState>)
      returns (r: ArmRecord)
    requires Consistent(t) && env.jobId !in t.jobs
    requires During(ledger.View(), t, env.jobId, states, RowsAfter(env, t.links))
    requires states in {[Running], [Running, LinkConfirmed]} && states + [FinalState(env)] == StatesOfArm(env)
    modifies ledger
    ensures ledger.View() == ArmTables(env, t)
    ensures r == partial.(job := partial.job.(closed := true),
                          jobTransitions := [Queued, Claimed, Closed], chainTransitions := StatesOfArm(env),
                          finalState := FinalState(env), links := LinksOf(ArmTables(env, t), env.jobId))
  {
    UpsertDuring(ledger.View(), t, env.jobId, states, RowsAfter(env, t.links), FinalState(env));
    FinishedTables(env, Upserted(ledger.View(), env.jobId, FinalState(env)), t);
    ArmTrails(env, t);
    r := Finish(ledger, env.jobId, FinalState(env), partial);
  }

  /** The record as the arm opens it. */
  function Opened(env: ArmEnv): ArmRecord {
    EmptyRecord.(job := JobEntry(JobScheme + env.jobId, true, true, false), planChain := Some(env.planChain))
  }

  /** The record once stage A was brokered, probed and verified. */
  function AfterStageA(env: ArmEnv): ArmRecord {
    Opened(env).(planStageA := Some(env.planStageA), broker := Some(Rendered(env)),
                 probe := Some(env.probe), verifyA := Some(env.verifyA))
  }

  /** The vulnerable arm from its confirmed stage A link on. */
  method ComposeChain(env: ArmEnv, ledger: Ledger, partial: ArmRecord, ghost t: Tables) returns (r: ArmRecord)
    requires Consistent(t) && env.jobId !in t.jobs && Rank(ExitOf(env)) >= 4 && partial == AfterStageA(env)
    requires During(ledger.View(), t, env.jobId, [Running], UpsertRow(t.links, env.jobId, StageALink(env)))
    modifies ledger
    ensures ledger.View() == ArmTables(env, t) && r == ArmRecordOf(env, t)
  {
    ghost var rows := UpsertRow(t.links, env.jobId, StageALink(env));
    UpsertDuring(ledger.View(), t, env.jobId, [Running], rows, LinkConfirmed);
    assert [Running] + [LinkConfirmed] == [Running, LinkConfirmed];
    ledger.UpsertChain(env.jobId, LinkConfirmed);
    var record := partial.(interpret := Some(env.interpret), select := Some(env.select));
    if !StepOk(env.select) {
      r := LeaveArm(env, ledger, record, t, [Running, LinkConfirmed]);
      return;
    }
    ledger.UpsertLink(env.jobId, StageBLink(env));
    record := record.(verifyB := Some(env.verifyB));
    if env.verifyA == Confirms && env.verifyB == Confirms {
      record := record.(explain := Some(env.explain));
    }
    r := LeaveArm(env, ledger, record.(referencePresent := Some(HasReference(env))), t, [Running, LinkConfirmed]);
  }

  /** The arm from its accepted plans on. */
  method ProbeStageA(env: ArmEnv, ledger: Ledger, partial: ArmRecord, ghost t: Tables) returns (r: ArmRecord)
    requires Consistent(t) && env.jobId !in t.jobs && PlansAccepted(env)
    requires partial == Opened(env).(planStageA := Some(env.planStageA), broker := Some(Rendered(env)))
    requires During(ledger.View(), t, env.jobId, [Running], t.links)
    modifies ledger
    ensures ledger.View() == ArmTables(env, t) && r == ArmRecordOf(env, t)
  {
    var referencePresent := HasReference(env);
    var record := partial.(probe := Some(env.probe), verifyA := Some(env.verifyA));
    ledger.UpsertLink(env.jobId, StageALink(env));
    if !env.vulnerable {
      r := LeaveArm(env, ledger, record.(referencePresent := Some(referencePresent)), t, [Running]);
      return;
    }
    if !referencePresent || env.verifyA != Confirms {
      r := LeaveArm(env, ledger, record, t, [Running]);
      return;
    }
    r := ComposeChain(env, ledger, record, t);
  }

  /** Drive one arm. Every return closes the job and leaves exactly the ledger and the record that
      the functions above give for the arm's exit; only a taken job id raises. */
  method RunArm(env: ArmEnv, ledger: Ledger) returns (r: Option<ArmRecord>)
    requires Consistent(ledger.View())
    modifies ledger
    ensures r.None? <==> env.jobId in old(ledger.View()).jobs
    ensures r.None? ==> ledger.View() == old(ledger.View())
    ensures r.Some? ==>
      ledger.View() == ArmTables(env, old(ledger.View())) && r.value == ArmRecordOf(env, old(ledger.View()))
  {
    ghost var t := ledger.View();
    var taken := ledger.TakeJob(env.jobId);
    if !taken {
      return None;
    }
    ledger.UpsertChain(env.jobId, Running);
    assert [Running][1..] == [];
    assert During(ledger.View(), t, env.jobId, [Running], t.links);
    var record := Opened(env);
    if !StepOk(env.planChain) {
      var failed := LeaveArm(env, ledger, record, t, [Running]);
      return Some(failed);
    }
    record := record.(planStageA := Some(env.planStageA));
    if !StepOk(env.planStageA) {
      var failed := LeaveArm(env, ledger, record, t, [Running]);
      return Some(failed);
    }
    record := record.(broker := Some(Rendered(env)));
    if Rendered(env).None? {
      var failed := LeaveArm(env, ledger, record, t, [Running]);
      return Some(failed);
    }
    var done := ProbeStageA(env, ledger, record, t);
    return Some(done);
  }

  // ------------------------------------------------------------------ what every run guarantees

  lemma ArmKeepsConsistent(env: ArmEnv, t: Tables)
    requires Consistent(t) && env.jobId !in t.jobs
    ensures Consistent(ArmTables(env, t))
  {
    ChangesBelong(env.jobId, None, StatesOfArm(env));
    UpsertRowJobs(t.links, env.jobId, StageALink(env));
    UpsertRowJobs(UpsertRow(t.links, env.jobId, StageALink(env)), env.jobId, StageBLink(env));
  }

  lemma {:induction false} ChangesBelong(id: string, from: Option<ChainState>, states: seq<ChainState>)
    ensures forall c | c in Changes(id, from, states) :: c.id == id
    decreases |states|
  {
    if states != [] {
      ChangesBelong(id, Some(states[0]), states[1..]);
    }
  }

  lemma {:induction false} UpsertRowJobs(rows: seq<LinkRow>, jobId: string, link: Link)
    ensures forall r | r in UpsertRow(rows, jobId, link) ::
      r.jobId == jobId || exists q | q in rows :: q.jobId == r.jobId
  {
    if rows != [] {
      UpsertRowJobs(rows[1..], jobId, link);
      assert rows == [rows[0]] + rows[1..];
      forall r | r in UpsertRow(rows, jobId, link)
        ensures r.jobId == jobId || exists q | q in rows :: q.jobId == r.jobId
      {
        if r in UpsertRow(rows[1..], jobId, link) && r.jobId != jobId {
          var q :| q in rows[1..] && q.jobId == r.jobId;
          assert q in rows;
        } else if r.jobId == rows[0].jobId {
          assert rows[0] in rows;
        }
      }
    }
  }

  /** The chain is reported confirmed exactly if the arm is the vulnerable one, both plans were
      accepted, stage A left a reference and was confirmed, the stage B selection ended OK and
      stage B was confirmed; and then LINK_CONFIRMED comes before it. */
  lemma ChainConfirmedIff(env: ArmEnv)
    ensures ChainConfirmed in StatesOfArm(env)
       <==> env.vulnerable && PlansAccepted(env) && HasReference(env) && env.verifyA == Confirms
            && StepOk(env.select) && env.verifyB == Confirms
    ensures ChainConfirmed in StatesOfArm(env) ==> StatesOfArm(env) == [Running, LinkConfirmed, ChainConfirmed]
    ensures ChainConfirmed in StatesOfArm(env) <==> FinalState(env) == ChainConfirmed
  {
    assert StatesOfArm(env)[|StatesOfArm(env)| - 1] == FinalState(env);
  }

  /** BLOCKED_BY_PATCH says less than its name: it is reported exactly for a patched arm whose plans
      were accepted, whatever the verifier says and whether or not a reference was produced. */
  lemma BlockedByPatchIff(env: ArmEnv)
    ensures BlockedByPatch in StatesOfArm(env) <==> !env.vulnerable && PlansAccepted(env)
    ensures BlockedByPatch in StatesOfArm(env) ==> StatesOfArm(env) == [Running, BlockedByPatch]
  {
    assert StatesOfArm(env)[|StatesOfArm(env)| - 1] == FinalState(env);
  }

  /** The arm's link ids name no link yet, and differ. */
  ghost predicate NewLinks(env: ArmEnv, t: Tables) {
    env.linkAId != env.linkBId && FreshLink(t.links, env.linkAId) && FreshLink(t.links, env.linkBId)
  }

  /** The links an arm leaves, if its link ids are new: none before stage A is verified, stage A's
      alone up to the selection, and both, in stage order, once the arm completes. */
  lemma LinksOfArm(env: ArmEnv, t: Tables)
    requires Consistent(t) && env.jobId !in t.jobs
    requires Rank(ExitOf(env)) >= 3 ==> FreshLink(t.links, env.linkAId)
    requires ExitOf(env).Completed? ==> NewLinks(env, t)
    ensures LinksOf(ArmTables(env, t), env.jobId)
         == if Rank(ExitOf(env)) < 3 then [] else if ExitOf(env).Completed? then [StageALink(env), StageBLink(env)]
            else [StageALink(env)]
  {
    var id, a, b := env.jobId, StageALink(env), StageBLink(env);
    if Rank(ExitOf(env)) < 3 {
      NoLinksUpTo(t.links, id, StageCount);
    } else {
      FreshLinkIsAppended(t.links, id, a);
      var withA := t.links + [LinkRow(id, 0, a)];
      if ExitOf(env).Completed? {
        FreshLinkIsAppended(withA, id, b);
        LinksOfAppended(t.links, id, a, Some(b), StageCount);
      } else {
        LinksOfAppended(t.links, id, a, None, StageCount);
        assert withA + [] == withA;
      }
    }
  }

  /** If one of them is not new, a link goes missing from the completed arm. */
  lemma StaleLinksGoMissing(env: ArmEnv, t: Tables)
    requires Consistent(t) && env.jobId !in t.jobs && ExitOf(env).Completed? && !NewLinks(env, t)
    ensures |LinksOf(ArmTables(env, t), env.jobId)| <= 1
  {
    var id, a, b := env.jobId, StageALink(env), StageBLink(env);
    var withA := UpsertRow(t.links, id, a);
    NoLinksUpTo(t.links, id, StageCount);
    UpsertCount(t.links, id, a, id, StageCount);
    UpsertCount(withA, id, b, id, StageCount);
    if FreshLink(t.links, a.id) {
      FreshLinkIsAppended(t.links, id, a);
      assert withA[|t.links|].link.id == a.id;
      if !FreshLink(t.links, b.id) {
        var r :| r in t.links && r.link.id == b.id;
        assert r in withA;
      }
    }
  }

  /** An upsert adds at most one link to a job, and none under an id that is there already. */
  lemma {:induction false} UpsertCount(rows: seq<LinkRow>, jobId: string, link: Link, id: string, stages: nat)
    requires link.stageIndex < StageCount
    ensures |LinksUpTo(UpsertRow(rows, jobId, link), id, stages)|
         <= |LinksUpTo(rows, id, stages)| + (if FreshLink(rows, link.id) && link.stageIndex < stages then 1 else 0)
  {
    if stages > 0 {
      UpsertCount(rows, jobId, link, id, stages - 1);
      if FreshLink(rows, link.id) {
        FreshLinkIsAppended(rows, jobId, link);
        LinksInStageOfConcat(rows, [LinkRow(jobId, link.stageIndex, link)], id, stages - 1);
        SingleLink(LinkRow(jobId, link.stageIndex, link), id, stages - 1);
      } else {
        OverwriteKeepsCount(rows, jobId, link, id, stages - 1);
      }
    }
  }

  lemma {:induction false} OverwriteKeepsCount(rows: seq<LinkRow>, jobId: string, link: Link, id: string, stage: nat)
    requires !FreshLink(rows, link.id)
    ensures |LinksInStage(UpsertRow(rows, jobId, link), id, stage)| == |LinksInStage(rows, id, stage)|
  {
    if rows[0].link.id == link.id {
      assert ([rows[0].(link := link)] + rows[1..])[1..] == rows[1..];
    } else {
      var r :| r in rows && r.link.id == link.id;
      assert r in rows[1..];
      OverwriteKeepsCount(rows[1..], jobId, link, id, stage);
      assert ([rows[0]] + UpsertRow(rows[1..], jobId, link))[1..] == UpsertRow(rows[1..], jobId, link);
    }
  }

  lemma {:induction false} NoLinksUpTo(rows: seq<LinkRow>, id: string, stages: nat)
    requires forall r | r in rows :: r.jobId != id
    ensures LinksUpTo(rows, id, stages) == []
  {
    if stages > 0 {
      NoLinks(rows, id, stages - 1);
      NoLinksUpTo(rows, id, stages - 1);
    }
  }

  function One<T>(o: Option<T>): nat {
    if o.Some? then 1 else 0
  }

  /** The model steps a record shows. */
  function StepsIn(r: ArmRecord): nat {
    One(r.planChain) + One(r.planStageA) + One(r.interpret) + One(r.select) + One(r.explain)
  }

  /** A campaign starts at most seven steps, two of them in the patched arm, and seven exactly if
      the vulnerable arm's chain was confirmed and the patched arm got past its first plan. */
  lemma AtMostSevenSteps(v: ArmEnv, p: ArmEnv, t: Tables, u: Tables)
    requires v.vulnerable && !p.vulnerable
    ensures var a, b := StepsIn(ArmRecordOf(v, t)), StepsIn(ArmRecordOf(p, u));
      && a <= 5 && b <= 2
      && (a + b == 7 <==> FinalState(v) == ChainConfirmed && StepOk(p.planChain))
  {
  }

  // ------------------------------------------------------------------ what every exit records

  predicate EndedOk(s: Step) {
    s.Some? && s.value.status == "OK"
  }

  /** Both plans ended OK, the second one is there, and the broker rendered it. */
  predicate Brokered(env: ArmEnv) {
    EndedOk(env.planChain) && EndedOk(env.planStageA) && env.planStageA.value.output.Some? && env.broker.Some?
  }

  predicate Referenced(env: ArmEnv) {
    env.probe.Some? && env.probe.value.referencePresent
  }

  /** The vulnerable arm's stage A left a reference and was confirmed. */
  predicate LinkedA(env: ArmEnv) {
    Brokered(env) && env.vulnerable && Referenced(env) && env.verifyA == Some("CONFIRMED")
  }

  predicate Composed(env: ArmEnv) {
    LinkedA(env) && EndedOk(env.select)
  }

  /** The record an arm leaves: which entries, and what they say. */
  lemma ArmEntries(env: ArmEnv, t: Tables)
    ensures var r := ArmRecordOf(env, t);
      && r.job == JobEntry(address := "agentjob://CHAIN_AGENT/" + env.jobId, claimed := true, resolved := true,
                           closed := true)
      && r.planChain == Some(env.planChain)
      && r.planStageA == (if EndedOk(env.planChain) then Some(env.planStageA) else None)
      && r.broker == (if !EndedOk(env.planChain) || !EndedOk(env.planStageA) then None
                      else Some(if env.planStageA.value.output.Some? then env.broker else None))
      && r.probe == (if Brokered(env) then Some(env.probe) else None)
      && r.verifyA == (if Brokered(env) then Some(env.verifyA) else None)
      && r.interpret == (if LinkedA(env) then Some(env.interpret) else None)
      && r.select == (if LinkedA(env) then Some(env.select) else None)
      && r.verifyB == (if Composed(env) then Some(env.verifyB) else None)
      && r.explain == (if Composed(env) && env.verifyB == Some("CONFIRMED") then Some(env.explain) else None)
      && r.referencePresent
         == (if (Brokered(env) && !env.vulnerable) || Composed(env) then Some(Referenced(env)) else None)
  {
  }

  /** The states it goes through, and the one it ends in. */
  lemma ArmStates(env: ArmEnv, t: Tables)
    ensures var r := ArmRecordOf(env, t);
      && r.jobTransitions == [Queued, Claimed, Closed]
      && r.chainTransitions == (if LinkedA(env) then [Running, LinkConfirmed, r.finalState]
                                else [Running, r.finalState])
      && (r.finalState == if Brokered(env) && !env.vulnerable then BlockedByPatch
                          else if Composed(env) && env.verifyB == Some("CONFIRMED") then ChainConfirmed else Failed)
  {
  }

  function LinkSays(status: Verified): LinkState {
    if status == Some("CONFIRMED") then Confirmed else if status == Some("PASS") then Passed else Incomplete
  }

  /** The two links of an arm, field by field. */
  lemma LinksSay(env: ArmEnv)
    ensures StageALink(env) == Link(
      id := env.linkAId, stageIndex := 0, producer := "CLOUD_BOUNDARY_AGENT", consumer := "CHAIN_AGENT",
      inputRefs := [], outputRefs := if Referenced(env) then ["credential-reference"] else [],
      sourceSha := env.shaA, dependsOn := None, consumesPriorReference := false, verification := LinkSays(env.verifyA))
    ensures StageBLink(env) == Link(
      id := env.linkBId, stageIndex := 1, producer := "AUTHORIZATION_AGENT", consumer := "CHAIN_AGENT",
      inputRefs := ["credential-reference"],
      outputRefs := if env.verifyB == Some("CONFIRMED") then ["private-operation-effect"] else [],
      sourceSha := env.shaB, dependsOn := Some(env.linkAId), consumesPriorReference := true,
      verification := LinkSays(env.verifyB))
  {
  }
}
