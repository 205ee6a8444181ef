/** When a controller operation is all or nothing. Each operation is a chain of ledger transactions:
    for every operation, exactly when it succeeds, and exactly when a failing one leaves the ledger as
    it was. */
module RemediationAtomicity {
  import opened Wrappers
  import opened Digests
  import Trails
  import opened RemediationLedger
  import opened RemediationController

  predicate InState(l: Records, loopId: string, s: State) {
    loopId in l.loops && l.loops[loopId] == s
  }

  /** The finding is on file and belongs to the loop it names. */
  predicate FindingOnFile(l: Records, f: Finding) {
    f.id in l.findings && l.findings[f.id].loopId == f.loopId
  }

  /** The states of the happy path have one predecessor each. */
  lemma HappyPredecessor(s: State)
    ensures InitialConfirmed in ValidTransitions(s) <==> s.InitialExecutionPending?
    ensures RemediationRecommended in ValidTransitions(s) <==> s.InitialConfirmed?
    ensures PatchAuthorized in ValidTransitions(s) <==> s.RemediationRecommended?
    ensures PatchApplied in ValidTransitions(s) <==> s.PatchAuthorized?
    ensures RetestQueued in ValidTransitions(s) <==> s.PatchApplied?
    ensures RetestRunning in ValidTransitions(s) <==> s.RetestQueued?
    ensures RetestPass in ValidTransitions(s) <==> s.RetestRunning?
    ensures RetestFail in ValidTransitions(s) <==> s.RetestRunning?
  {
  }

  lemma HappyStep(l: Records, loopId: string)
    ensures loopId in l.loops ==>
      var s := l.loops[loopId];
      && (TransitionTo(l, loopId, InitialConfirmed).Ok? <==> s.InitialExecutionPending?)
      && (TransitionTo(l, loopId, PatchAuthorized).Ok? <==> s.RemediationRecommended?)
      && (TransitionTo(l, loopId, PatchApplied).Ok? <==> s.PatchAuthorized?)
      && (TransitionTo(l, loopId, RetestQueued).Ok? <==> s.PatchApplied?)
      && (TransitionTo(l, loopId, RetestRunning).Ok? <==> s.RetestQueued?)
  {
    if loopId in l.loops {
      HappyPredecessor(l.loops[loopId]);
    }
  }

  /** Confirming succeeds exactly for a new finding of a loop that waits for one; a failing confirmation
      leaves the finding behind exactly if it was new. */
  lemma ConfirmIff(l: Records, f: Finding)
    ensures Confirm(l, f).1.Ok? <==> f.id !in l.findings && InState(l, f.loopId, InitialExecutionPending)
    ensures Confirm(l, f).1.Err? ==> (Confirm(l, f).0 == l <==> f.id in l.findings)
  {
    if f.id !in l.findings {
      var l1 := PersistFinding(l, f).value;
      assert f.id in l1.findings;
      HappyStep(l1, f.loopId);
    }
  }

  /** Recording a recommendation and concluding are one transaction each: failing, they leave nothing. */
  lemma SingleTransactionsAreAtomic(l: Records, f: Finding, recommendedId: string, receipt: Receipt, facts: RetestFacts)
    ensures Recommend(l, f, recommendedId).1.Ok? <==> InState(l, f.loopId, InitialConfirmed)
    ensures Recommend(l, f, recommendedId).1.Err? ==> Recommend(l, f, recommendedId).0 == l
    ensures Conclude(l, f, receipt, facts).1.Ok? <==> InState(l, f.loopId, RetestRunning)
    ensures Conclude(l, f, receipt, facts).1.Err? ==> Conclude(l, f, receipt, facts).0 == l
  {
    if f.loopId in l.loops {
      HappyPredecessor(l.loops[f.loopId]);
    }
  }

  /** The lease can be issued: registered profile, authorized scope, finding on file, new id. */
  predicate LeaseFits(l: Records, f: Finding, profileId: string, authorizationId: string) {
    && profileId == "enforce_uniform_detection_control_v1"
    && f.targetRef == "range-ops" && f.scenarioId == "ops-detection-control-bypass-v1"
    && FindingOnFile(l, f) && authorizationId !in l.authorizations
  }

  /** Authorizing succeeds exactly if the lease fits and the loop waits for it; failing, it leaves the
      ledger as it was exactly if the lease does not fit. */
  lemma AuthorizeIff(l: Records, f: Finding, profileId: string, now: int, id: string)
    ensures Authorize(l, f, profileId, now, id).1.Ok?
       <==> LeaseFits(l, f, profileId, id) && InState(l, f.loopId, RemediationRecommended)
    ensures Authorize(l, f, profileId, now, id).1.Err? ==>
      (Authorize(l, f, profileId, now, id).0 == l <==> !LeaseFits(l, f, profileId, id))
  {
    var saved := PersistAuthorization(l, Lease(f, id, now));
    if saved.Ok? {
      assert id in saved.value.authorizations;
      HappyStep(saved.value, f.loopId);
    }
  }

  /** The mode went from vulnerable to patched, state and sentinel changed, all digests are digests and
      both epochs are counts. */
  predicate RealMutation(m: Mutation) {
    && m.previousMode == "vulnerable" && m.resultingMode == "patched"
    && m.preDigest != m.postDigest && m.oldSentinel != m.newSentinel
    && (forall d | d in {m.preDigest, m.postDigest, m.oldSentinel, m.newSentinel} :: IsDigest(d))
    && m.oldEpoch.Some? && m.oldEpoch.value >= 0 && m.newEpoch.Some? && m.newEpoch.value >= 0
  }

  /** The receipt can be minted and stored: inside the lease, for its finding, for a real mutation, with
      finding and authorization on file for the loop, under a new id. */
  predicate ReceiptFits(l: Records, f: Finding, a: Authorization, m: Mutation, now: int, receiptId: string) {
    && a.issuedAt <= now < a.expiresAt && a.findingId == f.id && RealMutation(m)
    && FindingOnFile(l, f) && a.id in l.authorizations && l.authorizations[a.id].loopId == f.loopId
    && receiptId !in l.receipts
  }

  /** Applying a patch succeeds exactly if its receipt fits and the loop is authorized; failing, it
      leaves the ledger as it was exactly if the receipt does not fit. So the failing applications that
      do leave a receipt are those of a fitting receipt for a loop that is not PATCH_AUTHORIZED. */
  lemma ApplyIff(l: Records, f: Finding, a: Authorization, m: Mutation, now: int, receiptId: string)
    ensures ApplyPatch(l, f, a, m, now, receiptId).1.Ok?
       <==> ReceiptFits(l, f, a, m, now, receiptId) && InState(l, f.loopId, PatchAuthorized)
    ensures ApplyPatch(l, f, a, m, now, receiptId).1.Err? ==>
      (ApplyPatch(l, f, a, m, now, receiptId).0 == l <==> !ReceiptFits(l, f, a, m, now, receiptId))
  {
    if a.ValidAt(now) && a.findingId == f.id && MutationAccepted(m) {
      var saved := PersistReceipt(l, MintReceipt(f, a, m, now, receiptId));
      if saved.Ok? {
        assert receiptId in saved.value.receipts;
        HappyStep(saved.value, f.loopId);
        if TransitionTo(saved.value, f.loopId, PatchApplied).Ok? {
          HappyStep(TransitionTo(saved.value, f.loopId, PatchApplied).value, f.loopId);
        }
      }
    }
  }

  /** The receipt can be consumed for this finding. */
  predicate ReceiptUsable(l: Records, f: Finding, receipt: Receipt) {
    receipt.findingId == f.id && receipt.id in l.receipts && !l.receipts[receipt.id].consumed
  }

  /** A retest begins exactly if its receipt is usable, its job is not bound yet and the loop waits for
      it; failing, it leaves the ledger as it was exactly if the receipt is not usable. Otherwise the
      receipt is spent for nothing. */
  lemma BeginIff(l: Records, f: Finding, receipt: Receipt, jobId: string)
    ensures Begin(l, f, receipt, jobId).1.Ok?
       <==> ReceiptUsable(l, f, receipt) && jobId !in l.bindings && InState(l, f.loopId, RetestQueued)
    ensures Begin(l, f, receipt, jobId).1.Err? ==>
      (Begin(l, f, receipt, jobId).0 == l <==> !ReceiptUsable(l, f, receipt))
    ensures ReceiptUsable(l, f, receipt) ==>
      receipt.id in Begin(l, f, receipt, jobId).0.receipts
      && Begin(l, f, receipt, jobId).0.receipts[receipt.id].consumed
  {
    if ReceiptUsable(l, f, receipt) {
      var l1 := MarkConsumed(l, receipt.id);
      assert l1.receipts[receipt.id].consumed;
      var bound := BindRetest(l1, jobId, Binding(f.loopId, f.id, receipt.id));
      if bound.Ok? {
        HappyStep(bound.value, f.loopId);
      }
    }
  }

  // ------------------------------------------------------------------ a run that gets there

  lemma RunOneMore(l: Records, ops: seq<Op>, op: Op)
    ensures RunAll(l, ops + [op]) == Step(RunAll(l, ops), op)
  {
    assert (ops + [op])[..|ops|] == ops;
  }

  /** A ledger of one loop and at most one finding and authorization. */
  function OneLoop(id: string, s: State, trail: seq<Trails.Move<State>>, f: Option<Finding>,
                   a: Option<Authorization>): Records {
    Records(map[id := s], trail,
            if f.Some? then map[f.value.id := f.value] else map[],
            if a.Some? then map[a.value.id := a.value] else map[], map[], map[])
  }

  lemma OneLoopMoves(id: string, s: State, trail: seq<Trails.Move<State>>, f: Option<Finding>,
                     a: Option<Authorization>, next: State)
    requires next in ValidTransitions(s)
    ensures TransitionTo(OneLoop(id, s, trail, f, a), id, next)
         == Ok(OneLoop(id, next, trail + [Trails.Move(id, Some(s), next)], f, a))
  {
    assert map[id := s][id := next] == map[id := next];
  }

  function Opening(f: Finding, recommendedId: string, now: int, authorizationId: string): seq<Op> {
    [OpOpen(f.loopId)] + [OpConfirm(f)] + [OpRecommend(f.id, recommendedId)]
    + [OpAuthorize(f.id, UniformDetectionControl, now, authorizationId)]
  }

  lemma ConfirmedLoop(f: Finding)
    ensures exists trail :: RunAll(EmptyRecords, [OpOpen(f.loopId)] + [OpConfirm(f)])
                         == OneLoop(f.loopId, InitialConfirmed, trail, Some(f), None)
  {
    RunOneMore(EmptyRecords, [], OpOpen(f.loopId));
    assert [] + [OpOpen(f.loopId)] == [OpOpen(f.loopId)];
    RunOneMore(EmptyRecords, [OpOpen(f.loopId)], OpConfirm(f));
    var trail := [Trails.Move(f.loopId, None, InitialExecutionPending)];
    var l := RunAll(EmptyRecords, [OpOpen(f.loopId)]);
    assert l == OneLoop(f.loopId, InitialExecutionPending, trail, None, None);
    assert PersistFinding(l, f).value == OneLoop(f.loopId, InitialExecutionPending, trail, Some(f), None);
    OneLoopMoves(f.loopId, InitialExecutionPending, trail, Some(f), None, InitialConfirmed);
  }

  lemma AuthorizedLoop(l: Records, f: Finding, trail: seq<Trails.Move<State>>, now: int, authorizationId: string)
    requires f.targetRef == TargetRef && f.scenarioId == ScenarioId
    requires l == OneLoop(f.loopId, RemediationRecommended, trail, Some(f), None)
    ensures exists t :: Step(l, OpAuthorize(f.id, UniformDetectionControl, now, authorizationId))
                     == OneLoop(f.loopId, PatchAuthorized, t, Some(f), Some(Lease(f, authorizationId, now)))
  {
    var a := Lease(f, authorizationId, now);
    assert PersistAuthorization(l, a).value == OneLoop(f.loopId, RemediationRecommended, trail, Some(f), Some(a));
    OneLoopMoves(f.loopId, RemediationRecommended, trail, Some(f), Some(a), PatchAuthorized);
  }

  lemma OpeningAuthorizes(f: Finding, recommendedId: string, now: int, authorizationId: string)
    requires f.targetRef == TargetRef && f.scenarioId == ScenarioId
    ensures exists t :: RunAll(EmptyRecords, Opening(f, recommendedId, now, authorizationId))
                     == OneLoop(f.loopId, PatchAuthorized, t, Some(f), Some(Lease(f, authorizationId, now)))
  {
    var ops := [OpOpen(f.loopId)] + [OpConfirm(f)];
    ConfirmedLoop(f);
    var trail :| RunAll(EmptyRecords, ops) == OneLoop(f.loopId, InitialConfirmed, trail, Some(f), None);
    RunOneMore(EmptyRecords, ops, OpRecommend(f.id, recommendedId));
    OneLoopMoves(f.loopId, InitialConfirmed, trail, Some(f), None, RemediationRecommended);
    var more := ops + [OpRecommend(f.id, recommendedId)];
    RunOneMore(EmptyRecords, more, OpAuthorize(f.id, UniformDetectionControl, now, authorizationId));
    AuthorizedLoop(RunAll(EmptyRecords, more), f,
                   trail + [Trails.Move(f.loopId, Some(InitialConfirmed), RemediationRecommended)],
                   now, authorizationId);
  }

  /** From the empty ledger, six operations get to a refused application that left a receipt: opened,
      confirmed, recommended, authorized, applied, and applied again inside the lease. The loop stays
      where the first application left it, and owns a second, unspent receipt. */
  lemma SecondApplicationIsReachable(f: Finding, recommendedId: string, now: int, authorizationId: string,
                                     m: Mutation, at: int, first: string, again: int, second: string)
    requires f.targetRef == TargetRef && f.scenarioId == ScenarioId && MutationAccepted(m)
    requires now <= at < now + LeaseLength && now <= again < now + LeaseLength && first != second
    ensures var before := Opening(f, recommendedId, now, authorizationId)
            + [OpApply(f.id, authorizationId, m, at, first)];
      var l := RunAll(EmptyRecords, before);
      var l' := RunAll(EmptyRecords, before + [OpApply(f.id, authorizationId, m, again, second)]);
      && l.receipts.Keys == {first} && InState(l, f.loopId, RetestQueued)
      && ApplyPatch(l, f, Lease(f, authorizationId, now), m, again, second).1 == Err(IllegalStateTransition)
      && l'.receipts.Keys == {first, second} && !l'.receipts[second].consumed && InState(l', f.loopId, RetestQueued)
  {
    var a := Lease(f, authorizationId, now);
    var opening := Opening(f, recommendedId, now, authorizationId);
    OpeningAuthorizes(f, recommendedId, now, authorizationId);
    var l0 := RunAll(EmptyRecords, opening);
    RunOneMore(EmptyRecords, opening, OpApply(f.id, authorizationId, m, at, first));
    var l := RunAll(EmptyRecords, opening + [OpApply(f.id, authorizationId, m, at, first)]);
    assert l == ApplyPatch(l0, f, a, m, at, first).0;
    FirstApplication(l0, f, a, m, at, first);
    RunOneMore(EmptyRecords, opening + [OpApply(f.id, authorizationId, m, at, first)],
               OpApply(f.id, authorizationId, m, again, second));
    SecondApplyLeavesAReceipt(l, f, a, m, again, second);
  }

  lemma FirstApplication(l: Records, f: Finding, a: Authorization, m: Mutation, now: int, id: string)
    requires ReceiptFits(l, f, a, m, now, id) && InState(l, f.loopId, PatchAuthorized)
    ensures var l' := ApplyPatch(l, f, a, m, now, id).0;
      && l'.receipts == l.receipts[id := ReceiptRow(MintReceipt(f, a, m, now, id), false)]
      && InState(l', f.loopId, RetestQueued) && l'.findings == l.findings && l'.authorizations == l.authorizations
  {
    ApplyIff(l, f, a, m, now, id);
  }

  /** Applying a fitting receipt to a loop that is not PATCH_AUTHORIZED is refused, and changes exactly
      one thing: the receipt is on file, unspent. */
  lemma SecondApplyLeavesAReceipt(l: Records, f: Finding, a: Authorization, m: Mutation, now: int, id: string)
    requires ReceiptFits(l, f, a, m, now, id) && f.loopId in l.loops && !l.loops[f.loopId].PatchAuthorized?
    ensures ApplyPatch(l, f, a, m, now, id).1 == Err(IllegalStateTransition)
    ensures ApplyPatch(l, f, a, m, now, id).0
         == l.(receipts := l.receipts[id := ReceiptRow(MintReceipt(f, a, m, now, id), false)])
  {
    HappyPredecessor(l.loops[f.loopId]);
  }
}
