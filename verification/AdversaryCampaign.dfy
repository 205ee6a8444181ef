/** The two-arm adversary-simulation campaign: one mode end to end over a shared job queue and a
    shared budget, and the rule that a budget stop in the first arm skips the second. */
module AdversaryCampaign {
  import opened Wrappers
  import opened Trails
  import opened ProviderUsage
  import opened CampaignBudget
  import opened AgentQueue
  import opened ModelStep

  type DelegationId = s: string | IsHexId("adelg-", s) witness "adelg-0000000000000000"

  /** A rendered probe, and what the worker saw of it. */
  datatype BrokeredProbe = BrokeredProbe(name: string, route: string)
  datatype ObservedProbe = ObservedProbe(name: string, statusCode: int, blocked: bool, sentinel: bool)

  datatype Broker = Broker(
    shellFree: bool, requestedProfile: string, effectiveProfile: string, effectiveVariants: int,
    totalRequests: int, concurrency: int, redirectPolicy: string, targetRef: string, probes: seq<BrokeredProbe>)

  datatype Adjudication = Adjudication(
    status: Option<string>, baselineDenied: bool, generatedNoTraffic: bool, probeRequests: int)

  /** What the brokered plan led to: rejected by the broker, ended by an exception, or rendered, run,
      adjudicated and reset. `observed` says whether the normalized observations include a response. */
  datatype Probing =
    | ProbingRejected
    | ProbingRaised
    | Probed(broker: Broker, onRangeAccess: bool, probes: seq<ObservedProbe>, observed: bool,
             verify: Adjudication, sentinelReset: bool)

  /** The environment of one mode: fresh ids, the two step answers and the worker execution. */
  datatype ModeEnv = ModeEnv(
    leadId: JobId, reconId: JobId, delegationId: DelegationId,
    delegate: Step, plan: Step, execution: Probing)

  datatype DelegationNote = DelegationNote(address: string, id: string, producer: string, resolved: bool)

  /** A job's entry in the record, with its transition rows once it was closed. */
  datatype ModeJob = ModeJob(note: JobNote, transitions: seq<JobStatus>)

  datatype ReconEntry = ReconEntry(job: ModeJob, fromDelegation: string, producer: string)

  datatype ModeRecord = ModeRecord(
    lead: ModeJob,
    delegateStep: Step,
    delegation: Option<DelegationNote>,
    recon: Option<ReconEntry>,
    handoffLinked: bool,
    planStep: Option<Step>,
    execution: Option<Probing>,
    budgetStop: bool)

  // ------------------------------------------------------------------ one mode, as a function

  function LeadJob(env: ModeEnv): Job {
    Job(env.leadId, LeadOrchestrator, "", "")
  }

  function ReconJob(env: ModeEnv): Job {
    Job(env.reconId, ReconAgent, env.delegationId, env.leadId)
  }

  function Gated(a: Account, answer: Step): (Account, Step, bool) {
    if a.CanStart().Allowed? then (a.Record(UsageOf(answer)), answer, true) else (a, Some(BudgetStop), false)
  }

  predicate Delegated(env: ModeEnv, a: Account) {
    a.CanStart().Allowed? && StepOk(env.delegate)
  }

  function AfterDelegate(env: ModeEnv, a: Account): Account {
    Gated(a, env.delegate).0
  }

  predicate Planned(env: ModeEnv, a: Account) {
    Delegated(env, a) && AfterDelegate(env, a).CanStart().Allowed? && StepOk(env.plan)
  }

  /** An exception leaves the mode: an id is taken, the plan is missing from an accepted answer, or
      the execution raises. */
  predicate Raises(env: ModeEnv, t: Tables, a: Account) {
    || env.leadId in t.jobs
    || (Delegated(env, a)
        && (env.delegationId in t.delegations || env.reconId in t.jobs || env.reconId == env.leadId))
    || (Planned(env, a) && (!env.plan.value.hasPlan || env.execution.ProbingRaised?))
  }

  /** The lead job's tables with the delegation persisted and the recon job taken. */
  function Linked(env: ModeEnv, t: Tables): Tables {
    Taken(t.(delegations := t.delegations[env.delegationId := Delegation(env.delegationId, env.leadId)]), ReconJob(env))
  }

  /** Both jobs closed, the recon job first, and the delegation that links them. */
  function HandedOff(env: ModeEnv, t: Tables): Tables {
    Finished(Finished(Linked(env, Taken(t, LeadJob(env))), ReconJob(env)), LeadJob(env))
  }

  function ModeTables(env: ModeEnv, t: Tables, a: Account): Tables {
    if Delegated(env, a) then HandedOff(env, t) else Finished(Taken(t, LeadJob(env)), LeadJob(env))
  }

  function ModeAccount(env: ModeEnv, a: Account): Account {
    if Delegated(env, a) then Gated(AfterDelegate(env, a), env.plan).0 else AfterDelegate(env, a)
  }

  /** How many model steps a mode starts. */
  function ModeSteps(env: ModeEnv, a: Account): nat {
    (if a.CanStart().Allowed? then 1 else 0)
    + (if Delegated(env, a) && AfterDelegate(env, a).CanStart().Allowed? then 1 else 0)
  }

  function ClosedJob(job: Job): ModeJob {
    ModeJob(Note(job, true), Lifecycle(Closed))
  }

  function ModeRecordOf(env: ModeEnv, a: Account): ModeRecord {
    var lead := ClosedJob(LeadJob(env));
    var first := Gated(a, env.delegate);
    if !Delegated(env, a) then ModeRecord(lead, first.1, None, None, false, None, None, !first.2)
    else
      var second := Gated(first.0, env.plan);
      ModeRecord(
        lead, first.1,
        Some(DelegationNote(DelegationAddress(env.delegationId), env.delegationId, env.leadId, true)),
        Some(ReconEntry(ClosedJob(ReconJob(env)), env.delegationId, env.leadId)),
        true,
        Some(second.1),
        if Planned(env, a) then Some(env.execution) else None,
        !second.2)
  }

  // ------------------------------------------------------------------ one mode, as it runs

  /** Ask the budget, take the answer if the step is admitted, and record what it reports. */
  method GatedStep(budget: Budget, answer: Step) returns (step: Step, started: bool)
    modifies budget
    ensures (budget.View(), step, started) == Gated(old(budget.View()), answer)
  {
    var gate := budget.CanStart();
    if !gate.Allowed? {
      return Some(BudgetStop), false;
    }
    var usage := UsageOf(answer);
    budget.Record(usage.calls, usage.tokens);
    return answer, true;
  }

  /** Close a job and enter its transition rows. */
  method CloseInto(queue: TaskQueue, job: Job, note: JobNote) returns (entry: ModeJob)
    requires job.id in queue.View().jobs && queue.View().jobs[job.id] == JobRow(job, Claimed)
    requires StatesOf(queue.View().trail, job.id) == Lifecycle(Claimed) && note == Note(job, false)
    modifies queue
    ensures queue.View() == Finished(old(queue.View()), job) && entry == ClosedJob(job)
  {
    StatesAfter(queue.trail, Move(job.id, Some(Claimed), Closed), job.id);
    FinishJob(queue, job);
    entry := ModeJob(note.(closed := true), StatesOf(queue.trail, job.id));
  }

  /** The two hand-off records and the recon job, taken by its address. */
  method HandOff(queue: TaskQueue, env: ModeEnv)
      returns (delegation: Option<DelegationNote>, recon: Option<ReconEntry>, linked: bool)
    requires env.leadId in queue.View().jobs && queue.View().jobs[env.leadId].job == LeadJob(env)
    modifies queue
    ensures var t := old(queue.View());
      if env.delegationId in t.delegations || env.reconId in t.jobs then recon.None?
      else
        && delegation == Some(DelegationNote(DelegationAddress(env.delegationId), env.delegationId, env.leadId, true))
        && recon == Some(ReconEntry(ModeJob(Note(ReconJob(env), false), []), env.delegationId, env.leadId))
        && linked
        && queue.View() == Linked(env, t)
  {
    var d := Delegation(env.delegationId, env.leadId);
    var persisted := queue.Persist(d);
    if persisted.Err? {
      return None, None, false;
    }
    var address := DelegationAddress(d.id);
    assert address[|DelegationScheme|..] == d.id;
    var found := ResolveDelegation(queue.View(), address);
    delegation := Some(DelegationNote(address, d.id, d.producer, found.Ok? && found.value.Some?));
    var note := TakeJob(queue, ReconJob(env));
    if note.None? {
      return delegation, None, false;
    }
    recon := Some(ReconEntry(ModeJob(note.value, []), d.id, env.leadId));
    assert env.reconId in queue.View().jobs && queue.View().jobs[env.reconId].job == ReconJob(env);
    linked := HandoffLinked(queue.View(), d.id);
  }

  /** Close both jobs, the recon job first, and enter their transition rows. */
  method CloseJobs(queue: TaskQueue, env: ModeEnv, reconNote: JobNote, leadNote: JobNote)
    returns (recon: ModeJob, lead: ModeJob)
    requires Consistent(queue.View()) && env.leadId != env.reconId
    requires env.leadId in queue.View().jobs && queue.View().jobs[env.leadId] == JobRow(LeadJob(env), Claimed)
    requires env.reconId in queue.View().jobs && queue.View().jobs[env.reconId] == JobRow(ReconJob(env), Claimed)
    requires reconNote == Note(ReconJob(env), false) && leadNote == Note(LeadJob(env), false)
    modifies queue
    ensures queue.View() == Finished(Finished(old(queue.View()), ReconJob(env)), LeadJob(env))
    ensures recon == ClosedJob(ReconJob(env)) && lead == ClosedJob(LeadJob(env))
  {
    FinishedKeepsConsistent(queue.View(), ReconJob(env));
    recon := CloseInto(queue, ReconJob(env), reconNote);
    lead := CloseInto(queue, LeadJob(env), leadNote);
  }

  lemma LinkedTables(env: ModeEnv, t: Tables)
    requires Consistent(t) && env.leadId !in t.jobs && env.reconId !in t.jobs && env.reconId != env.leadId
    ensures var t3 := Linked(env, Taken(t, LeadJob(env)));
      && Consistent(t3)
      && env.leadId in t3.jobs && t3.jobs[env.leadId] == JobRow(LeadJob(env), Claimed)
      && env.reconId in t3.jobs && t3.jobs[env.reconId] == JobRow(ReconJob(env), Claimed)
  {
    TakenKeepsConsistent(t, LeadJob(env));
    var t1 := Taken(t, LeadJob(env));
    var t2 := t1.(delegations := t1.delegations[env.delegationId := Delegation(env.delegationId, env.leadId)]);
    TakenKeepsConsistent(t2, ReconJob(env));
  }

  /** The second gated step and the worker execution; None if an exception leaves them. */
  method PlanAndExecute(env: ModeEnv, budget: Budget)
    returns (step: Step, started: bool, execution: Option<Option<Probing>>)
    modifies budget
    ensures (budget.View(), step, started) == Gated(old(budget.View()), env.plan)
    ensures execution == if !StepOk(step) then Some(None)
                         else if !env.plan.value.hasPlan || env.execution.ProbingRaised? then None
                         else Some(Some(env.execution))
  {
    step, started := GatedStep(budget, env.plan);
    if !StepOk(step) {
      return step, started, Some(None);
    }
    if !step.value.hasPlan || env.execution.ProbingRaised? {
      return step, started, None;
    }
    return step, started, Some(Some(env.execution));
  }

  /** The mode from the accepted delegation on. */
  method FinishMode(env: ModeEnv, queue: TaskQueue, budget: Budget, leadNote: JobNote, ghost t: Tables,
                    ghost a: Account)
      returns (r: Option<ModeRecord>)
    requires Consistent(t) && env.leadId !in t.jobs && queue.View() == Taken(t, LeadJob(env))
    requires Delegated(env, a) && budget.View() == AfterDelegate(env, a) && leadNote == Note(LeadJob(env), false)
    modifies queue, budget
    ensures r.None? <==> Raises(env, t, a)
    ensures r.Some? ==>
      && r.value == ModeRecordOf(env, a)
      && queue.View() == HandedOff(env, t) && budget.View() == ModeAccount(env, a)
  {
    var delegation, recon, linked := HandOff(queue, env);
    if recon.None? {
      return None;
    }
    LinkedTables(env, t);
    var planStep, started, execution := PlanAndExecute(env, budget);
    if execution.None? {
      return None;
    }
    var reconJob, lead := CloseJobs(queue, env, recon.value.job.note, leadNote);
    return Some(ModeRecord(lead, env.delegate, delegation, Some(recon.value.(job := reconJob)), linked,
                           Some(planStep), execution.value, !started));
  }

  /** Drive one mode. Every return closes the jobs it took and leaves exactly what the functions
      above say; an exception leaves no record. */
  method RunMode(env: ModeEnv, queue: TaskQueue, budget: Budget) returns (r: Option<ModeRecord>)
    requires Consistent(queue.View())
    modifies queue, budget
    ensures r.None? <==> Raises(env, old(queue.View()), old(budget.View()))
    ensures r.Some? ==>
      && r.value == ModeRecordOf(env, old(budget.View()))
      && queue.View() == ModeTables(env, old(queue.View()), old(budget.View()))
      && budget.View() == ModeAccount(env, old(budget.View()))
  {
    ghost var t, a := queue.View(), budget.View();
    var leadNote := TakeJob(queue, LeadJob(env));
    if leadNote.None? {
      return None;
    }
    var step, started := GatedStep(budget, env.delegate);
    if !StepOk(step) {
      TakenKeepsConsistent(t, LeadJob(env));
      var lead := CloseInto(queue, LeadJob(env), leadNote.value);
      return Some(ModeRecord(lead, step, None, None, false, None, None, !started));
    }
    r := FinishMode(env, queue, budget, leadNote.value, t, a);
  }

  // ------------------------------------------------------------------ both arms

  datatype PatchedArm = Skipped | Ran(record: ModeRecord)

  datatype CampaignRecord = CampaignRecord(vulnerable: ModeRecord, patched: PatchedArm, budgetFinal: Account)

  method RunCampaign(vulnerable: ModeEnv, patched: ModeEnv, queue: TaskQueue, budget: Budget)
      returns (r: Option<CampaignRecord>)
    requires Consistent(queue.View())
    modifies queue, budget
    ensures var t, a := old(queue.View()), old(budget.View());
      var t1, a1 := ModeTables(vulnerable, t, a), ModeAccount(vulnerable, a);
      var stopped := ModeRecordOf(vulnerable, a).budgetStop;
      && (r.None? <==> Raises(vulnerable, t, a) || (!stopped && Raises(patched, t1, a1)))
      && (r.Some? && stopped ==>
            r.value == CampaignRecord(ModeRecordOf(vulnerable, a), Skipped, a1)
            && queue.View() == t1 && budget.View() == a1)
      && (r.Some? && !stopped ==>
            r.value == CampaignRecord(ModeRecordOf(vulnerable, a), Ran(ModeRecordOf(patched, a1)),
                                      ModeAccount(patched, a1))
            && queue.View() == ModeTables(patched, t1, a1) && budget.View() == ModeAccount(patched, a1))
  {
    ghost var t, a := queue.View(), budget.View();
    var first := RunMode(vulnerable, queue, budget);
    if first.None? {
      return None;
    }
    ModeKeepsConsistent(vulnerable, t, a);
    if first.value.budgetStop {
      return Some(CampaignRecord(first.value, Skipped, budget.View()));
    }
    var second := RunMode(patched, queue, budget);
    if second.None? {
      return None;
    }
    return Some(CampaignRecord(first.value, Ran(second.value), budget.View()));
  }

  // ------------------------------------------------------------------ what every run guarantees

  lemma ModeKeepsConsistent(env: ModeEnv, t: Tables, a: Account)
    requires Consistent(t) && !Raises(env, t, a)
    ensures Consistent(ModeTables(env, t, a))
  {
    if Delegated(env, a) {
      LinkedTables(env, t);
      var t3 := Linked(env, Taken(t, LeadJob(env)));
      FinishedKeepsConsistent(t3, ReconJob(env));
      FinishedKeepsConsistent(Finished(t3, ReconJob(env)), LeadJob(env));
    } else {
      TakenKeepsConsistent(t, LeadJob(env));
      FinishedKeepsConsistent(Taken(t, LeadJob(env)), LeadJob(env));
    }
  }

  /** Every job a mode enqueues ends QUEUED, CLAIMED, CLOSED whichever exit is taken, and no other
      job moves. */
  lemma ModeClosesItsJobs(env: ModeEnv, t: Tables, a: Account)
    requires Consistent(t) && !Raises(env, t, a)
    ensures var t' := ModeTables(env, t, a);
      && (forall id | id in t'.jobs && id !in t.jobs :: StatesOf(t'.trail, id) == [Queued, Claimed, Closed])
      && (forall id | id in t.jobs :: id in t'.jobs && t'.jobs[id] == t.jobs[id])
  {
    var t' := ModeTables(env, t, a);
    ModeKeepsConsistent(env, t, a);
    ModeJobs(env, t, a);
    forall id | id in t'.jobs && id !in t.jobs
      ensures StatesOf(t'.trail, id) == [Queued, Claimed, Closed]
    {
      ClosedJobWentTheWholeWay(t', id);
    }
  }

  lemma ModeJobs(env: ModeEnv, t: Tables, a: Account)
    requires !Raises(env, t, a)
    ensures var lead := t.jobs[env.leadId := JobRow(LeadJob(env), Closed)];
      ModeTables(env, t, a).jobs == if Delegated(env, a) then lead[env.reconId := JobRow(ReconJob(env), Closed)]
        else lead
  {
  }

  lemma ClosedJobWentTheWholeWay(t: Tables, id: string)
    requires Consistent(t) && id in t.jobs && t.jobs[id].status.Closed?
    ensures StatesOf(t.trail, id) == [Queued, Claimed, Closed]
  {
  }

  /** The verdict's hand-off check, which compares ids taken back out of addresses. */
  predicate HandoffPersisted(r: ModeRecord) {
    && r.recon.Some? && r.delegation.Some?
    && r.handoffLinked
    && var leadId := LastSegment(r.lead.note.address);
    && DelegationScheme <= r.delegation.value.address
    && r.delegation.value.resolved
    && r.delegation.value.producer == leadId
    && r.recon.value.fromDelegation == r.delegation.value.id
    && r.recon.value.producer == leadId
  }

  /** The hand-off check holds exactly when the recon job exists, which is exactly when the
      delegation step was admitted and ended OK; and the tables really link the three records. */
  lemma HandoffPersistedIff(env: ModeEnv, t: Tables, a: Account)
    requires Consistent(t) && !Raises(env, t, a)
    ensures var r := ModeRecordOf(env, a);
      && (HandoffPersisted(r) <==> r.recon.Some?)
      && (r.recon.Some? <==> Delegated(env, a))
      && (r.recon.Some? <==>
            HandoffLinked(ModeTables(env, t, a), env.delegationId) && env.delegationId !in t.delegations)
  {
    AddressOfJob(LeadJob(env));
    var t' := ModeTables(env, t, a);
    if Delegated(env, a) {
      assert env.reconId in t'.jobs && t'.jobs[env.reconId].job == ReconJob(env);
    }
  }

  /** A mode's record marks a budget stop exactly if one of its gates refused, and a stopped mode
      never reached the worker. */
  lemma BudgetStopIff(env: ModeEnv, a: Account)
    ensures ModeRecordOf(env, a).budgetStop
       <==> !a.CanStart().Allowed? || (Delegated(env, a) && !AfterDelegate(env, a).CanStart().Allowed?)
    ensures ModeRecordOf(env, a).budgetStop ==> ModeRecordOf(env, a).execution.None?
  {
  }

  /** The account after a mode is that of a gated run over the steps it started. */
  lemma ModeIsGatedRun(env: ModeEnv, a: Account)
    ensures var us := [UsageOf(env.delegate), UsageOf(env.plan)][..ModeSteps(env, a)];
      Drive(a, us) == ModeAccount(env, a) && Admitted(a, us) == ModeSteps(env, a)
  {
    var first, second := UsageOf(env.delegate), UsageOf(env.plan);
    var us := [first, second][..ModeSteps(env, a)];
    var b := a.Record(first);
    if us != [] {
      assert us[0] == first;
      if |us| == 1 {
        assert us[1..] == [];
        assert Drive(b, us[1..]) == b && Admitted(b, us[1..]) == 0;
      } else {
        assert us[1..] == [second] && [second][1..] == [];
        assert Drive(b, us[1..]) == Drive(b.Record(second), [])
          && Admitted(b, us[1..]) == 1 + Admitted(b.Record(second), []);
      }
    }
  }

  /** The steps a campaign starts: the patched arm starts none if it is skipped. */
  function CampaignSteps(vulnerable: ModeEnv, patched: ModeEnv, a: Account): nat {
    ModeSteps(vulnerable, a)
    + (if ModeRecordOf(vulnerable, a).budgetStop then 0 else ModeSteps(patched, ModeAccount(vulnerable, a)))
  }

  /** No campaign starts more than four steps, whatever the answers are; and once a gate refused in
      the first arm, none is started any more. */
  lemma AtMostFourSteps(vulnerable: ModeEnv, patched: ModeEnv, a: Account)
    ensures CampaignSteps(vulnerable, patched, a) <= 4
    ensures ModeRecordOf(vulnerable, a).budgetStop ==> CampaignSteps(vulnerable, patched, a) <= 1
  {
  }

  /** A campaign that stays within one counted call and one reserved ceiling per step never exceeds
      its budget, over both arms together. */
  lemma CampaignWithinBudget(vulnerable: ModeEnv, patched: ModeEnv, a: Account)
    requires a.calls <= a.maxCalls && a.tokens <= a.maxTokens
    requires forall s | s in {vulnerable.delegate, vulnerable.plan, patched.delegate, patched.plan} ::
      Figure(UsageOf(s).calls) <= 1 && Figure(UsageOf(s).tokens) <= a.ceiling
    ensures var b := ModeAccount(patched, ModeAccount(vulnerable, a)); b.calls <= b.maxCalls && b.tokens <= b.maxTokens
  {
    ModeWithinBudget(vulnerable, a);
    ModeWithinBudget(patched, ModeAccount(vulnerable, a));
  }

  lemma ModeWithinBudget(env: ModeEnv, a: Account)
    requires a.calls <= a.maxCalls && a.tokens <= a.maxTokens
    requires forall s | s in {env.delegate, env.plan} ::
      Figure(UsageOf(s).calls) <= 1 && Figure(UsageOf(s).tokens) <= a.ceiling
    ensures var b := ModeAccount(env, a); b.calls <= b.maxCalls && b.tokens <= b.maxTokens
    ensures var b := ModeAccount(env, a);
      b.maxCalls == a.maxCalls && b.maxTokens == a.maxTokens && b.ceiling == a.ceiling
  {
    var us := [UsageOf(env.delegate), UsageOf(env.plan)][..ModeSteps(env, a)];
    ModeIsGatedRun(env, a);
    forall u | u in us
      ensures Figure(u.calls) <= 1 && Figure(u.tokens) <= a.ceiling
    {
      assert u == UsageOf(env.delegate) || u == UsageOf(env.plan);
    }
    CallsWithinBudget(a, us);
    TokensWithinBudget(a, us);
  }

  // ------------------------------------------------------------------ what every exit records

  /** The account has a call and the reserved ceiling left. */
  predicate Open(a: Account) {
    a.calls < a.maxCalls && a.tokens <= a.maxTokens - a.ceiling
  }

  predicate EndedOk(s: Step) {
    s.Some? && s.value.status == "OK"
  }

  /** The account once the first step's figures are recorded: integers count, anything else does not. */
  function Charged(a: Account, s: Step): Account {
    a.(calls := a.calls + (if s.Some? && s.value.calls.Num? then s.value.calls.n else 0),
       tokens := a.tokens + (if s.Some? && s.value.tokens.Num? then s.value.tokens.n else 0))
  }

  /** A step as it is recorded: its answer, or a BUDGET_STOP of no calls. */
  function Noted(a: Account, s: Step): Step {
    if Open(a) then s else Some(StepResult("BUDGET_STOP", Num(0), Num(0), false, false, None))
  }

  function JobEnded(prefix: string, id: string): ModeJob {
    ModeJob(JobNote(address := prefix + id, claimedStatus := Claimed, resolved := true, closed := true),
            [Queued, Claimed, Closed])
  }

  /** The record and the account a mode leaves, for every exit. */
  lemma ModeEntries(env: ModeEnv, a: Account)
    ensures var r := ModeRecordOf(env, a);
      var a1 := Charged(a, env.delegate);
      && r.lead == JobEnded("agentjob://LEAD_ORCHESTRATOR/", env.leadId)
      && r.delegateStep == Noted(a, env.delegate)
      && (if Open(a) && EndedOk(env.delegate)
          then
            && r.delegation == Some(DelegationNote(address := "agentqueue://RECON_AGENT/" + env.delegationId,
                                                   id := env.delegationId, producer := env.leadId, resolved := true))
            && r.recon == Some(ReconEntry(job := JobEnded("agentjob://RECON_AGENT/", env.reconId),
                                          fromDelegation := env.delegationId, producer := env.leadId))
            && r.handoffLinked && r.planStep == Some(Noted(a1, env.plan))
            && r.execution == (if Open(a1) && EndedOk(env.plan) then Some(env.execution) else None)
            && (r.budgetStop <==> !Open(a1))
            && ModeAccount(env, a) == (if Open(a1) then Charged(a1, env.plan) else a1)
          else
            && r.delegation.None? && r.recon.None? && !r.handoffLinked && r.planStep.None? && r.execution.None?
            && (r.budgetStop <==> !Open(a))
            && ModeAccount(env, a) == (if Open(a) then a1 else a))
  {
    JobPrefixes("");
  }

  /** When a mode raises: on a taken id, on an accepted answer without a plan, or if its execution does. */
  lemma RaisesIff(env: ModeEnv, t: Tables, a: Account)
    ensures var handsOff := Open(a) && EndedOk(env.delegate);
      Raises(env, t, a) <==>
        || env.leadId in t.jobs
        || (handsOff && (env.delegationId in t.delegations || env.reconId in t.jobs || env.reconId == env.leadId))
        || (handsOff && Open(Charged(a, env.delegate)) && EndedOk(env.plan)
            && (!env.plan.value.hasPlan || env.execution.ProbingRaised?))
  {
  }

  /** The jobs and delegations a mode leaves: all its own closed, all others as they were. */
  lemma ModeQueue(env: ModeEnv, t: Tables, a: Account)
    requires !Raises(env, t, a)
    ensures var lead := t.jobs[env.leadId := JobRow(Job(env.leadId, LeadOrchestrator, "", ""), Closed)];
      var recon := JobRow(Job(env.reconId, ReconAgent, env.delegationId, env.leadId), Closed);
      var t' := ModeTables(env, t, a);
      if Open(a) && EndedOk(env.delegate)
      then
        && t'.jobs == lead[env.reconId := recon]
        && t'.delegations == t.delegations[env.delegationId := Delegation(env.delegationId, env.leadId)]
      else t'.jobs == lead && t'.delegations == t.delegations
  {
    ModeJobs(env, t, a);
  }
}
