/** What one run of the adaptive-retest loop does, for every environment: where it exits, and the
    record, queue, ledger and budget it leaves there. */
module AdaptiveRetest {
  import opened Wrappers
  import opened Trails
  import opened CampaignBudget
  import opened AgentQueue
  import opened ModelStep
  import opened RemediationLedger
  import opened RemediationController
  import opened RetestEvidence

  /** Everything the loop asks for: fresh ids, step answers, executions, verifier answers, clock
      readings, the range's mutation report, and whether the records and projections built from
      environment data validate. */
  datatype Env = Env(
    leadId: JobId, reconId: JobId, retestId: JobId, delegationId: string,
    loopId: string, findingId: string, authorizationId: string, receiptId: string,
    delegate: Step, plan: Step, recommend: Step, retestPlan: Step,
    initialExecution: Execution, retestExecution: Execution,
    initialVerify: VerifierAnswer, retestVerify: VerifierAnswer, staleVerify: VerifierAnswer,
    findingValid: bool, projectionClean: bool, retestProjectionClean: bool,
    authorizedAt: int, appliedAt: int, mutation: Mutation)

  // ------------------------------------------------------------------ the four gated steps

  function Answer(env: Env, k: nat): Step {
    if k == 0 then env.delegate else if k == 1 then env.plan else if k == 2 then env.recommend else env.retestPlan
  }

  /** The budget account at the gate of step `k`, if all earlier steps were started. */
  function AccountAt(env: Env, a: Account, k: nat): Account {
    if k == 0 then a else AccountAt(env, a, k - 1).Record(UsageOf(Answer(env, k - 1)))
  }

  predicate Admits(env: Env, a: Account, k: nat) {
    AccountAt(env, a, k).CanStart().Allowed?
  }

  predicate StepPassed(env: Env, a: Account, k: nat) {
    Admits(env, a, k) && StepOk(Answer(env, k))
  }

  function StepRecorded(env: Env, a: Account, k: nat): Step {
    if Admits(env, a, k) then Answer(env, k) else Some(BudgetStop)
  }

  // ------------------------------------------------------------------ where the run exits

  datatype Exit =
    | Raised
    | DelegateFailed
    | PlanFailed
    | InitialRejected
    | NotConfirmed
    | RecommendFailed
    | PatchRefused
    | RetestPlanFailed
    | RetestRejected
    | Concluded

  function FindingOf(env: Env): Finding
    requires env.initialExecution.Executed?
  {
    Finding(env.findingId, env.loopId, TargetRef, ScenarioId, env.initialExecution.run.evidenceAt)
  }

  function LeaseOf(env: Env): Authorization
    requires env.initialExecution.Executed?
  {
    Lease(FindingOf(env), env.authorizationId, env.authorizedAt)
  }

  /** The patch is applied while the lease is valid and the range reports a real change. */
  predicate PatchAccepted(env: Env) {
    env.authorizedAt <= env.appliedAt < env.authorizedAt + LeaseLength && MutationAccepted(env.mutation)
  }

  function ReceiptOf(env: Env): Receipt
    requires env.initialExecution.Executed? && PatchAccepted(env)
  {
    MintReceipt(FindingOf(env), LeaseOf(env), env.mutation, env.appliedAt, env.receiptId)
  }

  function FactsOf(env: Env): RetestFacts
    requires env.initialExecution.Executed? && env.retestExecution.Executed?
  {
    RetestFacts(if env.retestVerify.status.Some? then env.retestVerify.status.value else "None",
                env.initialExecution.run.evidenceAt, env.retestExecution.run.evidenceAt, TargetRef, ScenarioId)
  }

  /** The guards of the run up to its checkpoints; each includes the earlier ones. */
  predicate Delegated(env: Env, a: Account) {
    StepPassed(env, a, 0) && env.reconId != env.leadId
  }

  predicate Planned(env: Env, a: Account) {
    Delegated(env, a) && StepPassed(env, a, 1) && env.plan.value.hasPlan
  }

  predicate ConfirmedRun(env: Env, a: Account) {
    && Planned(env, a)
    && env.initialExecution.Executed?
    && env.initialVerify.status == Some("CONFIRMED")
    && env.findingValid && env.projectionClean
  }

  predicate Recommended(env: Env, a: Account) {
    ConfirmedRun(env, a) && StepPassed(env, a, 2) && env.recommend.value.recommendation.Some?
  }

  predicate RetestStarted(env: Env, a: Account) {
    && Recommended(env, a)
    && PatchAccepted(env)
    && env.retestId != env.leadId && env.retestId != env.reconId
    && env.retestProjectionClean
  }

  predicate Retested(env: Env, a: Account) {
    && RetestStarted(env, a)
    && StepPassed(env, a, 3) && env.retestPlan.value.hasPlan
    && env.retestExecution.Executed?
  }

  /** The run reaches gate `k`, whatever becomes of it afterwards. */
  predicate ReachesGate(env: Env, a: Account, k: nat) {
    k == 0 || (k == 1 && Delegated(env, a)) || (k == 2 && ConfirmedRun(env, a)) || (k == 3 && RetestStarted(env, a))
  }

  function ExitOf(env: Env, a: Account): Exit {
    if !StepPassed(env, a, 0) then DelegateFailed
    else if !Delegated(env, a) then Raised
    else if !StepPassed(env, a, 1) then PlanFailed
    else if !Planned(env, a) || env.initialExecution.ExecutionRaised? then Raised
    else if env.initialExecution.BrokerRejected? then InitialRejected
    else if env.initialVerify.status != Some("CONFIRMED") then NotConfirmed
    else if !ConfirmedRun(env, a) then Raised
    else if !StepPassed(env, a, 2) then RecommendFailed
    else if !Recommended(env, a) then Raised
    else if !PatchAccepted(env) then PatchRefused
    else if !RetestStarted(env, a) then Raised
    else if !StepPassed(env, a, 3) then RetestPlanFailed
    else if !env.retestPlan.value.hasPlan || env.retestExecution.ExecutionRaised? then Raised
    else if env.retestExecution.BrokerRejected? then RetestRejected
    else Concluded
  }

  /** How far the record has grown at an exit. */
  function Rank(e: Exit): nat {
    match e
    case Raised => 0
    case DelegateFailed => 1
    case PlanFailed => 2
    case InitialRejected => 3
    case NotConfirmed => 4
    case RecommendFailed => 5
    case PatchRefused => 6
    case RetestPlanFailed => 7
    case RetestRejected => 8
    case Concluded => 9
  }

  // ------------------------------------------------------------------ the queue

  function LeadJob(env: Env): Job {
    Job(env.leadId, LeadOrchestrator, "", "")
  }

  function ReconJob(env: Env): Job {
    Job(env.reconId, ReconAgent, env.delegationId, env.leadId)
  }

  function RetestJob(env: Env): Job {
    Job(env.retestId, ReconAgent, "", "")
  }

  function TablesAt(env: Env, rank: nat): Tables {
    var t1 := Taken(EmptyTables, LeadJob(env));
    var d := Delegation(env.delegationId, env.leadId);
    var t2 := Taken(t1.(delegations := t1.delegations[d.id := d]), ReconJob(env));
    var t4 := Finished(Finished(t2, ReconJob(env)), LeadJob(env));
    var t7 := Taken(t4, RetestJob(env));
    if rank <= 1 then t1 else if rank <= 3 then t2 else if rank <= 6 then t4
    else if rank <= 8 then t7 else Finished(t7, RetestJob(env))
  }

  // ------------------------------------------------------------------ the ledger

  /** The transition rows of a loop that goes through `states`. */
  function Moves(id: string, states: seq<State>): seq<Move<State>> {
    if states == [] then []
    else
      var n := |states| - 1;
      Moves(id, states[..n]) + [Move(id, if n == 0 then None else Some(states[n - 1]), states[n])]
  }

  /** The whole ledger of a single-loop run: its loop went through `states`, and the first `n`
      kinds of record (finding, authorization, receipt, spent receipt with binding) are there. */
  function Holding(env: Env, states: seq<State>, n: nat): Records
    requires states != []
    requires n >= 1 ==> env.initialExecution.Executed?
    requires n >= 3 ==> PatchAccepted(env)
  {
    Records(
      map[env.loopId := states[|states| - 1]],
      Moves(env.loopId, states),
      if n >= 1 then map[env.findingId := FindingOf(env)] else map[],
      if n >= 2 then map[env.authorizationId := LeaseOf(env)] else map[],
      if n >= 3 then map[env.receiptId := ReceiptRow(ReceiptOf(env), n >= 4)] else map[],
      if n >= 4 then map[env.retestId := Binding(env.loopId, env.findingId, env.receiptId)] else map[])
  }

  /** The last happy-path state the loop reaches. */
  function Reached(env: Env, a: Account): State {
    match ExitOf(env, a)
    case RecommendFailed => InitialConfirmed
    case PatchRefused => PatchAuthorized
    case RetestPlanFailed => RetestRunning
    case RetestRejected => RetestRunning
    case Concluded => RetestRunning
    case _ => InitialExecutionPending
  }

  /** The state the loop is ended in, if it is ended. A budget stop, and a failure before the first
      verifier answer, leave the loop in the state it was in. */
  function Ended(env: Env, a: Account): Option<State> {
    match ExitOf(env, a)
    case NotConfirmed => Some(Incomplete)
    case RecommendFailed => if Admits(env, a, 2) then Some(Incomplete) else None
    case PatchRefused => Some(Incomplete)
    case RetestPlanFailed => if Admits(env, a, 3) then Some(RetestFail) else None
    case RetestRejected => Some(RetestFail)
    case Concluded => Some(ConclusionOf(env).finalState)
    case _ => None
  }

  /** The states the loop has gone through at a normal exit. */
  function StatesLeft(env: Env, a: Account): seq<State> {
    if Ended(env, a).None? then HappyPrefix(Reached(env, a)) else HappyPrefix(Reached(env, a)) + [Ended(env, a).value]
  }

  function LedgerOf(env: Env, a: Account): Records
    requires !ExitOf(env, a).Raised?
  {
    var e := ExitOf(env, a);
    Holding(env, StatesLeft(env, a),
            if e.RecommendFailed? then 1 else if e.PatchRefused? then 2 else if Rank(e) >= 7 then 4 else 0)
  }

  /** The state a checkpoint of the given rank leaves the loop in. */
  function LedgerAt(env: Env, rank: nat): Records
    requires rank >= 5 ==> env.initialExecution.Executed?
    requires rank >= 6 ==> PatchAccepted(env)
  {
    if rank <= 4 then Holding(env, HappyPrefix(InitialExecutionPending), 0)
    else if rank == 5 then Holding(env, HappyPrefix(InitialConfirmed), 1)
    else if rank == 6 then Holding(env, HappyPrefix(RetestQueued), 3)
    else Holding(env, HappyPrefix(RetestRunning), 4)
  }

  /** How many model steps the run starts: those whose gate admits them. */
  function Started(env: Env, a: Account): (n: nat)
    ensures n <= 4
  {
    match ExitOf(env, a)
    case DelegateFailed => if Admits(env, a, 0) then 1 else 0
    case PlanFailed => if Admits(env, a, 1) then 2 else 1
    case InitialRejected => 2
    case NotConfirmed => 2
    case RecommendFailed => if Admits(env, a, 2) then 3 else 2
    case PatchRefused => 3
    case RetestPlanFailed => if Admits(env, a, 3) then 4 else 3
    case _ => 4
  }

  /** The budget account at the exit: every step that was started has been recorded. */
  function AccountOf(env: Env, a: Account): Account {
    AccountAt(env, a, Started(env, a))
  }

  lemma ConcludedRunStartsFour(env: Env, a: Account)
    requires ExitOf(env, a).Concluded?
    ensures AccountOf(env, a) == AccountAt(env, a, 4)
  {
    assert Started(env, a) == 4;
  }

  // ------------------------------------------------------------------ the record

  function PatchNoteOf(env: Env): PatchNote
    requires env.initialExecution.Executed?
  {
    if PatchAccepted(env) then Patched(env.receiptId, true, true, RetestQueued) else PatchRejected
  }

  function ConclusionOf(env: Env): Conclusion
    requires env.initialExecution.Executed? && PatchAccepted(env) && env.retestExecution.Executed?
  {
    var proof := ProveCausalBreak(LedgerAt(env, 7), FindingOf(env), ReceiptOf(env), FactsOf(env));
    Conclusion(env.retestVerify, env.staleVerify.status, proof,
               if FactsOf(env).status == "PASS" && proof.All() then RetestPass else RetestFail)
  }

  /** The record once the run has reached `rank`. */
  function RecordAt(env: Env, a: Account, rank: nat): LoopRecord
    requires rank >= 6 ==> env.initialExecution.Executed?
    requires rank >= 7 ==> PatchAccepted(env)
    requires rank >= 9 ==> env.retestExecution.Executed?
  {
    LoopRecord(
      leadJob := Some(Note(LeadJob(env), rank >= 4)),
      delegateStep := if rank >= 1 then Some(StepRecorded(env, a, 0)) else None,
      delegationId := if rank >= 2 then Some(env.delegationId) else None,
      reconJob := if rank >= 2 then Some(Note(ReconJob(env), rank >= 4)) else None,
      reconFromDelegation := if rank >= 2 then Some(env.delegationId) else None,
      planStep := if rank >= 2 then Some(StepRecorded(env, a, 1)) else None,
      initialExecution := if rank >= 3 then Some(env.initialExecution) else None,
      initialVerify := if rank >= 4 then Some(env.initialVerify) else None,
      findingId := if rank >= 5 then Some(env.findingId) else None,
      recommendStep := if rank >= 5 then Some(StepRecorded(env, a, 2)) else None,
      authorization := if rank >= 6 then Some(AuthorizationNote(UniformDetectionControl, true, PatchAuthorized))
        else None,
      patch := if rank >= 6 then Some(PatchNoteOf(env)) else None,
      retestJob := if rank >= 7 then
          Some(RetestNote(Note(RetestJob(env), rank >= 9), Some(Binding(env.loopId, env.findingId, env.receiptId)),
                          true, true))
        else None,
      retestPlanStep := if rank >= 7 then Some(StepRecorded(env, a, 3)) else None,
      retestExecution := if rank >= 8 then Some(env.retestExecution) else None,
      conclusion := if rank >= 9 then Some(ConclusionOf(env)) else None,
      budgetStop := false)
  }

  /** The exit was taken because a gate refused. */
  predicate StoppedByBudget(env: Env, a: Account) {
    match ExitOf(env, a)
    case DelegateFailed => !Admits(env, a, 0)
    case PlanFailed => !Admits(env, a, 1)
    case RecommendFailed => !Admits(env, a, 2)
    case RetestPlanFailed => !Admits(env, a, 3)
    case _ => false
  }

  function RecordOf(env: Env, a: Account): LoopRecord
    requires !ExitOf(env, a).Raised?
  {
    RecordAt(env, a, Rank(ExitOf(env, a))).(budgetStop := StoppedByBudget(env, a))
  }

  // ------------------------------------------------------------------ what the ledger operations do

  lemma {:induction false} StatesOfMoves(id: string, states: seq<State>)
    ensures StatesOf(Moves(id, states), id) == states
  {
    if states != [] {
      var n := |states| - 1;
      StatesOfMoves(id, states[..n]);
      var last := Move(id, if n == 0 then None else Some(states[n - 1]), states[n]);
      StatesAfter(Moves(id, states[..n]), last, id);
    }
  }

  lemma Moved(env: Env, states: seq<State>, n: nat, s: State)
    requires states != []
    requires n >= 1 ==> env.initialExecution.Executed?
    requires n >= 3 ==> PatchAccepted(env)
    requires s in ValidTransitions(states[|states| - 1])
    ensures TransitionTo(Holding(env, states, n), env.loopId, s) == Ok(Holding(env, states + [s], n))
  {
    assert (states + [s])[..|states|] == states;
    var l := Holding(env, states, n);
    assert l.loops[env.loopId := s] == map[env.loopId := s];
  }

  lemma OpenHolds(env: Env)
    ensures OpenLoop(EmptyRecords, env.loopId) == Ok(LedgerAt(env, 0))
  {
    assert [InitialExecutionPending][..0] == [];
    assert Moves(env.loopId, []) == [];
    assert Moves(env.loopId, [InitialExecutionPending]) == [Move(env.loopId, None, InitialExecutionPending)];
  }

  lemma ConfirmHolds(env: Env)
    requires env.initialExecution.Executed?
    ensures Confirm(LedgerAt(env, 4), FindingOf(env)) == (LedgerAt(env, 5), Ok(()))
  {
    var pending := HappyPrefix(InitialExecutionPending);
    assert PersistFinding(Holding(env, pending, 0), FindingOf(env)) == Ok(Holding(env, pending, 1));
    Moved(env, pending, 1, InitialConfirmed);
    assert pending + [InitialConfirmed] == HappyPrefix(InitialConfirmed);
  }

  lemma RecommendHolds(env: Env, recommendedId: string)
    requires env.initialExecution.Executed?
    ensures Recommend(LedgerAt(env, 5), FindingOf(env), recommendedId)
         == (Holding(env, HappyPrefix(RemediationRecommended), 1), Ok(()))
  {
    Moved(env, HappyPrefix(InitialConfirmed), 1, RemediationRecommended);
    assert HappyPrefix(InitialConfirmed) + [RemediationRecommended] == HappyPrefix(RemediationRecommended);
  }

  lemma AuthorizeHolds(env: Env)
    requires env.initialExecution.Executed?
    ensures Authorize(Holding(env, HappyPrefix(RemediationRecommended), 1), FindingOf(env), UniformDetectionControl,
                      env.authorizedAt, env.authorizationId)
         == (Holding(env, HappyPrefix(PatchAuthorized), 2), Ok(LeaseOf(env)))
  {
    var states := HappyPrefix(RemediationRecommended);
    assert PersistAuthorization(Holding(env, states, 1), LeaseOf(env)) == Ok(Holding(env, states, 2));
    Moved(env, states, 2, PatchAuthorized);
    assert states + [PatchAuthorized] == HappyPrefix(PatchAuthorized);
  }

  lemma SaveReceiptHolds(env: Env, states: seq<State>)
    requires states != [] && env.initialExecution.Executed? && PatchAccepted(env)
    ensures PersistReceipt(Holding(env, states, 2), ReceiptOf(env)) == Ok(Holding(env, states, 3))
  {
  }

  lemma ApplyHolds(env: Env)
    requires env.initialExecution.Executed?
    ensures var l := Holding(env, HappyPrefix(PatchAuthorized), 2);
      ApplyPatch(l, FindingOf(env), LeaseOf(env), env.mutation, env.appliedAt, env.receiptId)
      == if PatchAccepted(env) then (LedgerAt(env, 6), Ok(ReceiptOf(env))) else (l, Err(Rejected))
  {
    if PatchAccepted(env) {
      var states := HappyPrefix(PatchAuthorized);
      SaveReceiptHolds(env, states);
      Moved(env, states, 3, PatchApplied);
      assert states + [PatchApplied] == HappyPrefix(PatchApplied);
      Moved(env, HappyPrefix(PatchApplied), 3, RetestQueued);
      assert HappyPrefix(PatchApplied) + [RetestQueued] == HappyPrefix(RetestQueued);
    }
  }

  /** Beginning the retest spends the receipt, so a replay of it is refused. */
  lemma BeginHolds(env: Env)
    requires env.initialExecution.Executed? && PatchAccepted(env)
    ensures Begin(LedgerAt(env, 6), FindingOf(env), ReceiptOf(env), env.retestId) == (LedgerAt(env, 7), Ok(()))
    ensures ConsumeReceipt(LedgerAt(env, 7), env.receiptId) == Err(ReceiptAlreadyConsumed)
  {
    var states := HappyPrefix(RetestQueued);
    var l := Holding(env, states, 3);
    var spent := MarkConsumed(l, env.receiptId);
    assert spent.receipts == map[env.receiptId := ReceiptRow(ReceiptOf(env), true)];
    assert BindRetest(spent, env.retestId, Binding(env.loopId, env.findingId, env.receiptId))
      == Ok(Holding(env, states, 4));
    Moved(env, states, 4, RetestRunning);
    assert states + [RetestRunning] == HappyPrefix(RetestRunning);
  }

  lemma ConcludeHolds(env: Env)
    requires env.initialExecution.Executed? && PatchAccepted(env) && env.retestExecution.Executed?
    ensures var c := ConclusionOf(env);
      && c.finalState in {RetestPass, RetestFail}
      && Conclude(LedgerAt(env, 7), FindingOf(env), ReceiptOf(env), FactsOf(env))
         == (Holding(env, HappyPrefix(RetestRunning) + [c.finalState], 4), Ok((c.finalState, c.proof)))
  {
    Moved(env, HappyPrefix(RetestRunning), 4, ConclusionOf(env).finalState);
  }
}
