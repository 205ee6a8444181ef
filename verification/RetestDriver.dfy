/** The adaptive-retest loop as the script runs it: step by step over a job queue, a ledger and a
    campaign budget, with an early return at every failed guard. */
module RetestDriver {
  import opened Wrappers
  import opened CampaignBudget
  import opened AgentQueue
  import opened ModelStep
  import opened RemediationLedger
  import opened RemediationController
  import opened RetestEvidence
  import opened AdaptiveRetest

  /** How a stage ends: the loop goes on, returns its record, or an exception leaves it. */
  datatype Flow = Continue | Return | Raise

  /** The last entries: the retest job is closed and the conclusion is filed. */
  function Closing(loop: LoopRecord, env: Env, final: State, proof: Proof): LoopRecord
    requires loop.retestJob.Some?
  {
    var retest := loop.retestJob.value;
    loop.(retestJob := Some(retest.(job := retest.job.(closed := true))),
          conclusion := Some(Conclusion(env.retestVerify, env.staleVerify.status, proof, final)))
  }

  lemma ConclusionFilesTheRecord(env: Env, a: Account)
    requires Retested(env, a)
    ensures ExitOf(env, a).Concluded?
    ensures var c := ConclusionOf(env);
      Closing(RecordAt(env, a, 8), env, c.finalState, c.proof) == RecordOf(env, a)
  {
    var c := ConclusionOf(env);
    assert Closing(RecordAt(env, a, 8), env, c.finalState, c.proof) == RecordAt(env, a, 9);
  }

  lemma RetestJobIsClaimed(env: Env)
    ensures RetestJob(env).id in TablesAt(env, 7).jobs && TablesAt(env, 7).jobs[RetestJob(env).id]
            == JobRow(RetestJob(env), Claimed)
  {
  }

  lemma ConclusionLeaves(env: Env, a: Account)
    requires ExitOf(env, a).Concluded?
    ensures TablesAt(env, Rank(ExitOf(env, a))) == Finished(TablesAt(env, 7), RetestJob(env))
    ensures LedgerOf(env, a) == Holding(env, HappyPrefix(RetestRunning) + [ConclusionOf(env).finalState], 4)
    ensures AccountOf(env, a) == AccountAt(env, a, 4)
  {
    ConcludedRunStartsFour(env, a);
    ConclusionLeavesLedger(env, a);
  }

  lemma ConclusionLeavesLedger(env: Env, a: Account)
    requires ExitOf(env, a).Concluded?
    ensures LedgerOf(env, a) == Holding(env, HappyPrefix(RetestRunning) + [ConclusionOf(env).finalState], 4)
  {
    assert Ended(env, a) == Some(ConclusionOf(env).finalState);
  }

  class LoopRun {
    const env: Env
    const queue: TaskQueue
    const ledger: Ledger
    const controller: Controller
    const budget: Budget
    ghost const opening: Account
    var loop: LoopRecord

    constructor (env: Env, budget: Budget)
      ensures this.env == env && this.budget == budget && opening == budget.View()
      ensures fresh(queue) && fresh(ledger) && controller.ledger == ledger
      ensures queue.View() == EmptyTables && ledger.View() == EmptyRecords
      ensures loop == EmptyLoop
    {
      this.env := env;
      this.budget := budget;
      this.queue := new TaskQueue();
      var l := new Ledger();
      this.ledger := l;
      this.controller := new Controller(l);
      this.opening := budget.View();
      this.loop := EmptyLoop;
    }

    /** The stage boundary where the record has grown to `rank` and `k` steps were recorded. */
    ghost predicate At(rank: nat, k: nat)
      requires rank <= 7
      requires rank >= 5 ==> env.initialExecution.Executed?
      requires rank >= 6 ==> PatchAccepted(env)
      reads this, queue, ledger, budget
    {
      && controller.ledger == ledger
      && loop == RecordAt(env, opening, rank)
      && queue.View() == TablesAt(env, rank)
      && ledger.View() == LedgerAt(env, rank)
      && budget.View() == AccountAt(env, opening, k)
    }

    /** The loop returned: everything it leaves is what the exit says. */
    ghost predicate Left()
      reads this, queue, ledger, budget
    {
      && !ExitOf(env, opening).Raised?
      && loop == RecordOf(env, opening)
      && queue.View() == TablesAt(env, Rank(ExitOf(env, opening)))
      && ledger.View() == LedgerOf(env, opening)
      && budget.View() == AccountOf(env, opening)
    }

    /** Ask the budget, run step `k` if it is admitted, and record what it reports. */
    method GatedStep(k: nat) returns (step: Step, started: bool)
      requires k < 4 && ReachesGate(env, opening, k) && budget.View() == AccountAt(env, opening, k)
      modifies budget
      ensures step == StepRecorded(env, opening, k) && started == Admits(env, opening, k)
      ensures budget.View() == AccountAt(env, opening, if started then k + 1 else k)
    {
      var gate := budget.CanStart();
      if !gate.Allowed? {
        return Some(BudgetStop), false;
      }
      step := Answer(env, k);
      var usage := UsageOf(step);
      budget.Record(usage.calls, usage.tokens);
      return step, true;
    }

    /** The driver's own transition to a fallback or failure state. */
    method GiveUp(ghost states: seq<State>, ghost n: nat, s: State)
      requires states != [] && s in ValidTransitions(states[|states| - 1])
      requires n >= 1 ==> env.initialExecution.Executed?
      requires n >= 3 ==> PatchAccepted(env)
      requires ledger.View() == Holding(env, states, n)
      modifies ledger
      ensures ledger.View() == Holding(env, states + [s], n)
    {
      Moved(env, states, n, s);
      var _ := ledger.Transition(env.loopId, s);
    }

    method RecommendAndAuthorize(recommendedId: string) returns (lease: Authorization, note: AuthorizationNote)
      requires env.initialExecution.Executed? && controller.ledger == ledger && ledger.View() == LedgerAt(env, 5)
      modifies ledger
      ensures lease == LeaseOf(env) && note == AuthorizationNote(UniformDetectionControl, true, PatchAuthorized)
      ensures ledger.View() == Holding(env, HappyPrefix(PatchAuthorized), 2)
    {
      RecommendHolds(env, recommendedId);
      var _ := controller.RecordRecommendation(FindingOf(env), recommendedId);
      AuthorizeHolds(env);
      var authorized := controller.AuthorizeRemediation(FindingOf(env), UniformDetectionControl, env.authorizedAt,
                                                        env.authorizationId);
      lease := authorized.value;
      note := AuthorizationNote(UniformDetectionControl, lease.ValidAt(env.authorizedAt), ledger.loops[env.loopId]);
    }

    method MintPatch(lease: Authorization) returns (note: PatchNote)
      requires env.initialExecution.Executed? && controller.ledger == ledger && lease == LeaseOf(env)
      requires ledger.View() == Holding(env, HappyPrefix(PatchAuthorized), 2)
      modifies ledger
      ensures note == PatchNoteOf(env)
      ensures ledger.View() == if PatchAccepted(env) then LedgerAt(env, 6)
              else Holding(env, HappyPrefix(PatchAuthorized), 2)
    {
      ApplyHolds(env);
      var receipt := controller.ApplyRemediation(FindingOf(env), lease, env.mutation, env.appliedAt, env.receiptId);
      if receipt.Err? {
        return PatchRejected;
      }
      var r := receipt.value;
      return Patched(r.id, r.preDigest != r.postDigest, r.oldSentinel != r.newSentinel, ledger.loops[env.loopId]);
    }

    /** Begin the retest with the stored receipt, read the binding and the flag back, and try to
        consume the receipt a second time. */
    method SpendReceipt() returns (binding: Option<Binding>, consumed: bool, replayBlocked: bool)
      requires env.initialExecution.Executed? && PatchAccepted(env)
      requires controller.ledger == ledger && ledger.View() == LedgerAt(env, 6)
      modifies ledger
      ensures binding == Some(Binding(env.loopId, env.findingId, env.receiptId)) && consumed && replayBlocked
      ensures ledger.View() == LedgerAt(env, 7)
    {
      BeginHolds(env);
      var receipt := ledger.receipts[env.receiptId].receipt;
      var _ := controller.BeginRetest(FindingOf(env), receipt, env.retestId);
      binding := if env.retestId in ledger.bindings then Some(ledger.bindings[env.retestId]) else None;
      consumed := ledger.receipts[env.receiptId].consumed;
      var replay := ledger.Consume(env.receiptId);
      replayBlocked := replay.Err?;
    }

    method ConcludeLedger() returns (final: State, proof: Proof)
      requires env.initialExecution.Executed? && PatchAccepted(env) && env.retestExecution.Executed?
      requires controller.ledger == ledger && ledger.View() == LedgerAt(env, 7)
      modifies ledger
      ensures final == ConclusionOf(env).finalState && proof == ConclusionOf(env).proof
      ensures ledger.View() == Holding(env, HappyPrefix(RetestRunning) + [final], 4)
    {
      ConcludeHolds(env);
      var receipt := ledger.receipts[env.receiptId].receipt;
      var concluded := controller.ConcludeRetest(FindingOf(env), receipt, FactsOf(env));
      final, proof := concluded.value.0, concluded.value.1;
    }

    method Delegate() returns (flow: Flow)
      requires queue.View() == EmptyTables && ledger.View() == EmptyRecords && loop == EmptyLoop
      requires controller.ledger == ledger && budget.View() == opening
      modifies this`loop, queue, ledger, budget
      ensures flow.Continue? ==> StepPassed(env, opening, 0) && At(1, 1)
      ensures flow.Return? ==> Left()
      ensures !flow.Raise?
    {
      OpenHolds(env);
      var _ := ledger.Open(env.loopId);
      var note := TakeJob(queue, LeadJob(env));
      loop := loop.(leadJob := note);
      var step, started := GatedStep(0);
      loop := loop.(delegateStep := Some(step), budgetStop := !started);
      if !StepOk(step) {
        return Return;
      }
      return Continue;
    }

    method Plan() returns (flow: Flow)
      requires StepPassed(env, opening, 0) && At(1, 1)
      modifies this`loop, queue, budget
      ensures flow.Continue? ==> Planned(env, opening) && At(2, 2)
      ensures flow.Return? ==> Left()
      ensures flow.Raise? ==> ExitOf(env, opening).Raised?
    {
      var persisted := queue.Persist(Delegation(env.delegationId, env.leadId));
      assert persisted.Ok?;
      var note := TakeJob(queue, ReconJob(env));
      if note.None? {
        return Raise;
      }
      loop := loop.(delegationId := Some(env.delegationId), reconJob := note,
                    reconFromDelegation := Some(env.delegationId));
      var step, started := GatedStep(1);
      loop := loop.(planStep := Some(step), budgetStop := !started);
      if !StepOk(step) {
        return Return;
      }
      if !step.value.hasPlan {
        return Raise;
      }
      return Continue;
    }

    method ExecuteAndVerify() returns (flow: Flow)
      requires Planned(env, opening) && At(2, 2)
      modifies this`loop, queue, ledger
      ensures flow.Continue? ==>
        env.initialExecution.Executed? && env.initialVerify.status == Some("CONFIRMED") && At(4, 2)
      ensures flow.Return? ==> Left()
      ensures flow.Raise? ==> ExitOf(env, opening).Raised?
    {
      if env.initialExecution.ExecutionRaised? {
        return Raise;
      }
      loop := loop.(initialExecution := Some(env.initialExecution));
      if env.initialExecution.BrokerRejected? {
        return Return;
      }
      loop := loop.(initialVerify := Some(env.initialVerify));
      FinishJob(queue, ReconJob(env));
      FinishJob(queue, LeadJob(env));
      loop := loop.(leadJob := Some(loop.leadJob.value.(closed := true)),
                    reconJob := Some(loop.reconJob.value.(closed := true)));
      if env.initialVerify.status != Some("CONFIRMED") {
        GiveUp(HappyPrefix(InitialExecutionPending), 0, Incomplete);
        return Return;
      }
      return Continue;
    }

    method ConfirmAndRecommend() returns (flow: Flow)
      requires Planned(env, opening)
      requires env.initialExecution.Executed? && env.initialVerify.status == Some("CONFIRMED") && At(4, 2)
      modifies this`loop, ledger, budget
      ensures flow.Continue? ==> Recommended(env, opening) && At(5, 3)
      ensures flow.Return? ==> Left()
      ensures flow.Raise? ==> ExitOf(env, opening).Raised?
    {
      if !env.findingValid {
        return Raise;
      }
      ConfirmHolds(env);
      var _ := controller.ConfirmInitialFinding(FindingOf(env));
      loop := loop.(findingId := Some(env.findingId));
      if !env.projectionClean {
        return Raise;
      }
      var step, started := GatedStep(2);
      loop := loop.(recommendStep := Some(step), budgetStop := !started);
      if !started {
        return Return;
      }
      if !StepOk(step) {
        GiveUp(HappyPrefix(InitialConfirmed), 1, Incomplete);
        return Return;
      }
      if step.value.recommendation.None? {
        return Raise;
      }
      return Continue;
    }

    method Patch() returns (flow: Flow)
      requires Recommended(env, opening) && At(5, 3)
      modifies this`loop, ledger
      ensures flow.Continue? ==> PatchAccepted(env) && At(6, 3)
      ensures flow.Return? ==> Left()
      ensures !flow.Raise?
    {
      var lease, note := RecommendAndAuthorize(env.recommend.value.recommendation.value.profileId);
      loop := loop.(authorization := Some(note));
      var patch := MintPatch(lease);
      loop := loop.(patch := Some(patch));
      if patch.PatchRejected? {
        GiveUp(HappyPrefix(PatchAuthorized), 2, Incomplete);
        return Return;
      }
      return Continue;
    }

    /** The retest job is taken and the receipt is spent; the retest is not yet planned. */
    ghost predicate AtRetestJob()
      requires env.initialExecution.Executed? && PatchAccepted(env)
      reads this, queue, ledger, budget
    {
      && controller.ledger == ledger
      && loop == RecordAt(env, opening, 6).(retestJob := RecordAt(env, opening, 7).retestJob)
      && queue.View() == TablesAt(env, 7)
      && ledger.View() == LedgerAt(env, 7)
      && budget.View() == AccountAt(env, opening, 3)
    }

    method StartRetest() returns (flow: Flow)
      requires Recommended(env, opening) && PatchAccepted(env) && At(6, 3)
      modifies this`loop, queue, ledger
      ensures flow.Continue? ==> RetestStarted(env, opening) && AtRetestJob()
      ensures flow.Raise? ==> ExitOf(env, opening).Raised?
      ensures !flow.Return?
    {
      var note := TakeJob(queue, RetestJob(env));
      if note.None? {
        return Raise;
      }
      var binding, consumed, replayBlocked := SpendReceipt();
      loop := loop.(retestJob := Some(RetestNote(note.value, binding, consumed, replayBlocked)));
      return if env.retestProjectionClean then Continue else Raise;
    }

    method PlanRetest() returns (flow: Flow)
      requires RetestStarted(env, opening) && AtRetestJob()
      modifies this`loop, ledger, budget
      ensures flow.Continue? ==> StepPassed(env, opening, 3) && env.retestPlan.value.hasPlan && At(7, 4)
      ensures flow.Return? ==> Left()
      ensures flow.Raise? ==> ExitOf(env, opening).Raised?
    {
      var step, started := GatedStep(3);
      loop := loop.(retestPlanStep := Some(step), budgetStop := !started);
      if !started {
        return Return;
      }
      if !StepOk(step) {
        GiveUp(HappyPrefix(RetestRunning), 4, RetestFail);
        return Return;
      }
      return if step.value.hasPlan then Continue else Raise;
    }

    method RetestAndConclude() returns (flow: Flow)
      requires RetestStarted(env, opening) && StepPassed(env, opening, 3) && env.retestPlan.value.hasPlan && At(7, 4)
      modifies this`loop, queue, ledger
      ensures !flow.Continue?
      ensures flow.Return? ==> Left()
      ensures flow.Raise? ==> ExitOf(env, opening).Raised?
    {
      if env.retestExecution.ExecutionRaised? {
        return Raise;
      }
      loop := loop.(retestExecution := Some(env.retestExecution));
      if env.retestExecution.BrokerRejected? {
        GiveUp(HappyPrefix(RetestRunning), 4, RetestFail);
        return Return;
      }
      assert Retested(env, opening);
      ConcludeRun();
      return Return;
    }

    method ConcludeRun()
      requires Retested(env, opening) && controller.ledger == ledger
      requires loop == RecordAt(env, opening, 8) && queue.View() == TablesAt(env, 7)
      requires ledger.View() == LedgerAt(env, 7) && budget.View() == AccountAt(env, opening, 4)
      modifies this`loop, queue, ledger
      ensures Left()
    {
      ConclusionFilesTheRecord(env, opening);
      ConclusionLeaves(env, opening);
      RetestJobIsClaimed(env);
      var final, proof := ConcludeLedger();
      FinishJob(queue, RetestJob(env));
      loop := Closing(loop, env, final, proof);
    }

    /** One run of the loop. An exception leaves no record; every return leaves exactly the record,
        queue, ledger and budget of its exit. */
    method RunLoop() returns (record: Option<LoopRecord>)
      requires queue.View() == EmptyTables && ledger.View() == EmptyRecords && loop == EmptyLoop
      requires controller.ledger == ledger && budget.View() == opening
      modifies this`loop, queue, ledger, budget
      ensures record.None? <==> ExitOf(env, opening).Raised?
      ensures record.Some? ==> record.value == loop && Left()
    {
      var flow := Delegate();
      if flow.Continue? {
        flow := Plan();
      }
      if flow.Continue? {
        flow := ExecuteAndVerify();
      }
      if flow.Continue? {
        flow := ConfirmAndRecommend();
      }
      if flow.Continue? {
        flow := Patch();
      }
      if flow.Continue? {
        flow := StartRetest();
      }
      if flow.Continue? {
        flow := PlanRetest();
      }
      if flow.Continue? {
        flow := RetestAndConclude();
      }
      return if flow.Return? then Some(loop) else None;
    }
  }
}
