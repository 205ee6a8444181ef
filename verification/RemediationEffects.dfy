/** What the controller's operations write: for every operation, the whole ledger it leaves, succeeding
    or failing, and what it returns, field by field. */
module RemediationEffects {
  import opened Wrappers
  import opened Trails
  import opened RemediationLedger
  import opened RemediationController
  import opened RemediationAtomicity

  /** The loop's state is replaced and the change logged; nothing else is touched. */
  predicate MovedOn(l: Records, l': Records, loopId: string, from: State, to: State) {
    && l'.loops == l.loops[loopId := to] && l'.trail == l.trail + [Move(loopId, Some(from), to)]
    && l'.findings == l.findings && l'.authorizations == l.authorizations
    && l'.receipts == l.receipts && l'.bindings == l.bindings
  }

  /** Why a loop cannot be moved to `to`, given the one state it could be moved from. */
  function MoveError(l: Records, loopId: string): LedgerError {
    if loopId in l.loops then IllegalStateTransition else LoopNotFound
  }

  /** Opening a loop. */
  lemma OpenDoes(l: Records, loopId: string)
    ensures OpenLoop(l, loopId)
         == if loopId in l.loops then Err(LoopAlreadyOpen)
            else Ok(Records(
              l.loops[loopId := InitialExecutionPending], l.trail + [Move(loopId, None, InitialExecutionPending)],
              l.findings, l.authorizations, l.receipts, l.bindings))
  {
  }

  /** Every single transition: which are legal, and what they write. */
  lemma TransitionDoes(l: Records, loopId: string, to: State)
    ensures loopId !in l.loops ==> TransitionTo(l, loopId, to) == Err(LoopNotFound)
    ensures loopId in l.loops ==>
      var from := l.loops[loopId];
      if Legal(from, to)
      then TransitionTo(l, loopId, to).Ok? && MovedOn(l, TransitionTo(l, loopId, to).value, loopId, from, to)
      else TransitionTo(l, loopId, to) == Err(IllegalStateTransition)
  {
  }

  /** The legal steps, by where they lead: along the one path, to INCOMPLETE from any state that is not an
      end, and to CLEANUP_FAILED from any of these and from INCOMPLETE. */
  predicate Legal(from: State, to: State) {
    match to
    case InitialExecutionPending => false
    case InitialConfirmed => from.InitialExecutionPending?
    case RemediationRecommended => from.InitialConfirmed?
    case PatchAuthorized => from.RemediationRecommended?
    case PatchApplied => from.PatchAuthorized?
    case RetestQueued => from.PatchApplied?
    case RetestRunning => from.RetestQueued?
    case RetestPass => from.RetestRunning?
    case RetestFail => from.RetestRunning?
    case Incomplete => !from.RetestPass? && !from.RetestFail? && !from.Incomplete? && !from.CleanupFailed?
    case CleanupFailed => !from.RetestPass? && !from.RetestFail? && !from.CleanupFailed?
  }

  /** Confirming: the finding is stored under its id, and the loop moves if it waits for one. */
  lemma ConfirmDoes(l: Records, f: Finding)
    ensures var (l', r) := Confirm(l, f);
      if f.id in l.findings then l' == l && r == Err(AlreadyPersisted)
      else
        var stored := l.(findings := l.findings[f.id := f]);
        if InState(l, f.loopId, InitialExecutionPending)
        then r.Ok? && MovedOn(stored, l', f.loopId, InitialExecutionPending, InitialConfirmed)
        else l' == stored && r == Err(MoveError(l, f.loopId))
  {
    if f.id !in l.findings {
      TransitionDoes(PersistFinding(l, f).value, f.loopId, InitialConfirmed);
    }
  }

  /** Recording a recommendation moves the loop and does nothing else. */
  lemma RecommendDoes(l: Records, f: Finding, recommendedId: string)
    ensures var (l', r) := Recommend(l, f, recommendedId);
      if InState(l, f.loopId, InitialConfirmed)
      then r.Ok? && MovedOn(l, l', f.loopId, InitialConfirmed, RemediationRecommended)
      else l' == l && r == Err(MoveError(l, f.loopId))
  {
    TransitionDoes(l, f.loopId, RemediationRecommended);
  }

  /** Why a lease does not fit: outside the registered scope or without a finding, under another loop's
      finding, or under a used id. */
  function LeaseError(l: Records, f: Finding, profileId: string): LedgerError {
    if profileId != "enforce_uniform_detection_control_v1" || f.targetRef != "range-ops"
       || f.scenarioId != "ops-detection-control-bypass-v1" || f.id !in l.findings
    then Rejected
    else if l.findings[f.id].loopId != f.loopId then FindingInvalid
    else AlreadyPersisted
  }

  /** Why a receipt does not fit: no valid lease or no real mutation, no finding or no authorization of the
      loop, or a used id. */
  function ReceiptError(l: Records, f: Finding, a: Authorization, m: Mutation, now: int): LedgerError {
    if now < a.issuedAt || a.expiresAt <= now || a.findingId != f.id || !RealMutation(m) then Rejected
    else if f.id !in l.findings || l.findings[f.id].loopId != f.loopId then FindingInvalid
    else if a.id !in l.authorizations || l.authorizations[a.id].loopId != f.loopId then AuthorizationInvalid
    else AlreadyPersisted
  }

  /** Authorizing: the registered profile for its own scope gets a lease of ten minutes from now. */
  lemma AuthorizeDoes(l: Records, f: Finding, profileId: string, now: int, id: string)
    ensures var (l', r) := Authorize(l, f, profileId, now, id);
      if !LeaseFits(l, f, profileId, id) then l' == l && r == Err(LeaseError(l, f, profileId))
      else
        var lease := Authorization(id, f.loopId, f.id, now, now + 600_000_000);
        var stored := l.(authorizations := l.authorizations[id := lease]);
        if InState(l, f.loopId, RemediationRecommended)
        then r == Ok(lease) && MovedOn(stored, l', f.loopId, RemediationRecommended, PatchAuthorized)
        else l' == stored && r == Err(MoveError(l, f.loopId))
  {
    AuthorizeIff(l, f, profileId, now, id);
    if LeaseFits(l, f, profileId, id) {
      TransitionDoes(PersistAuthorization(l, Lease(f, id, now)).value, f.loopId, PatchAuthorized);
    }
  }

  /** The receipt of a mutation: its evidence, its scope and its moment, field by field. */
  function ReceiptFor(f: Finding, a: Authorization, m: Mutation, now: int, id: string): Receipt
    requires m.oldEpoch.Some? && m.newEpoch.Some?
  {
    Receipt(
      id := id, loopId := f.loopId, findingId := f.id, authorizationId := a.id,
      targetRef := f.targetRef, scenarioId := f.scenarioId,
      preDigest := m.preDigest, postDigest := m.postDigest,
      oldEpoch := m.oldEpoch.value, oldSentinel := m.oldSentinel,
      newEpoch := m.newEpoch.value, newSentinel := m.newSentinel,
      appliedAt := now)
  }

  /** Applying: a fitting receipt is stored unspent, and an authorized loop makes two moves. */
  lemma ApplyDoes(l: Records, f: Finding, a: Authorization, m: Mutation, now: int, id: string)
    ensures var (l', r) := ApplyPatch(l, f, a, m, now, id);
      if !ReceiptFits(l, f, a, m, now, id) then l' == l && r == Err(ReceiptError(l, f, a, m, now))
      else
        var receipt := ReceiptFor(f, a, m, now, id);
        var stored := l.(receipts := l.receipts[id := ReceiptRow(receipt, false)]);
        if InState(l, f.loopId, PatchAuthorized)
        then
          && r == Ok(receipt)
          && MovedOn(stored.(loops := stored.loops[f.loopId := PatchApplied],
                             trail := stored.trail + [Move(f.loopId, Some(PatchAuthorized), PatchApplied)]),
                     l', f.loopId, PatchApplied, RetestQueued)
        else l' == stored && r == Err(MoveError(l, f.loopId))
  {
    ApplyIff(l, f, a, m, now, id);
    if ReceiptFits(l, f, a, m, now, id) {
      var stored := PersistReceipt(l, MintReceipt(f, a, m, now, id)).value;
      TransitionDoes(stored, f.loopId, PatchApplied);
      if InState(l, f.loopId, PatchAuthorized) {
        TransitionDoes(TransitionTo(stored, f.loopId, PatchApplied).value, f.loopId, RetestQueued);
      }
    }
  }

  /** Beginning a retest: the receipt is spent and otherwise unchanged, the job bound to loop, finding and
      receipt, and the loop moves if it waits for it. */
  lemma BeginDoes(l: Records, f: Finding, receipt: Receipt, jobId: string)
    ensures var (l', r) := Begin(l, f, receipt, jobId);
      if receipt.findingId != f.id then l' == l && r == Err(Rejected)
      else if receipt.id !in l.receipts then l' == l && r == Err(ReceiptNotFound)
      else if l.receipts[receipt.id].consumed then l' == l && r == Err(ReceiptAlreadyConsumed)
      else
        var row := ReceiptRow(l.receipts[receipt.id].receipt, true);
        var spent := l.(receipts := l.receipts[receipt.id := row]);
        if jobId in l.bindings then l' == spent && r == Err(AlreadyPersisted)
        else
          var bound := spent.(bindings := l.bindings[jobId := Binding(f.loopId, f.id, receipt.id)]);
          if InState(l, f.loopId, RetestQueued)
          then r.Ok? && MovedOn(bound, l', f.loopId, RetestQueued, RetestRunning)
          else l' == bound && r == Err(MoveError(l, f.loopId))
  {
    if ReceiptUsable(l, f, receipt) && jobId !in l.bindings {
      var bound := BindRetest(MarkConsumed(l, receipt.id), jobId, Binding(f.loopId, f.id, receipt.id)).value;
      TransitionDoes(bound, f.loopId, RetestRunning);
    }
  }

  /** The eight clauses of the causal proof: the patch lies between the two pieces of evidence, finding,
      retest and receipt are about the same target, scenario and finding, the state changed, the sentinel
      was rotated and its epoch did not go back, and the stored receipt is spent. */
  predicate ProvesBreak(l: Records, f: Finding, receipt: Receipt, facts: RetestFacts) {
    && facts.initialAt < receipt.appliedAt < facts.retestAt
    && f.targetRef == receipt.targetRef == facts.targetRef
    && f.scenarioId == receipt.scenarioId == facts.scenarioId
    && f.id == receipt.findingId
    && receipt.preDigest != receipt.postDigest
    && receipt.oldSentinel != receipt.newSentinel && receipt.oldEpoch <= receipt.newEpoch
    && receipt.id in l.receipts && l.receipts[receipt.id].consumed
  }

  /** Concluding: the loop passes exactly on a PASS with the whole proof, fails otherwise, and nothing else
      is touched. */
  lemma ConcludeDoes(l: Records, f: Finding, receipt: Receipt, facts: RetestFacts)
    ensures var (l', r) := Conclude(l, f, receipt, facts);
      if !InState(l, f.loopId, RetestRunning) then l' == l && r == Err(MoveError(l, f.loopId))
      else
        var final := if facts.status == "PASS" && ProvesBreak(l, f, receipt, facts) then RetestPass else RetestFail;
        && r.Ok? && r.value.0 == final && MovedOn(l, l', f.loopId, RetestRunning, final)
        && (r.value.1.All() <==> ProvesBreak(l, f, receipt, facts))
  {
    var final := if facts.status == "PASS" && ProvesBreak(l, f, receipt, facts) then RetestPass else RetestFail;
    TransitionDoes(l, f.loopId, final);
    TransitionDoes(l, f.loopId, if final.RetestPass? then RetestFail else RetestPass);
  }

  /** Each clause on its own. */
  lemma ProofMeans(l: Records, f: Finding, receipt: Receipt, facts: RetestFacts)
    ensures var p := ProveCausalBreak(l, f, receipt, facts);
      && (p.initialPredatesPatch <==> facts.initialAt < receipt.appliedAt)
      && (p.retestFollowsPatch <==> receipt.appliedAt < facts.retestAt)
      && (p.sameTarget <==> f.targetRef == receipt.targetRef && f.targetRef == facts.targetRef)
      && (p.sameScenario <==> f.scenarioId == receipt.scenarioId && f.scenarioId == facts.scenarioId)
      && (p.sameFinding <==> f.id == receipt.findingId)
      && (p.stateChanged <==> receipt.preDigest != receipt.postDigest)
      && (p.sentinelRotated <==> receipt.oldSentinel != receipt.newSentinel && receipt.oldEpoch <= receipt.newEpoch)
      && (p.receiptConsumed <==> receipt.id in l.receipts && l.receipts[receipt.id].consumed)
  {
  }
}
