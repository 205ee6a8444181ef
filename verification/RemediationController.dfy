/** The non-AI controller that owns every remediation decision, and the safety of every run of it.

    Each operation is a chain of separate ledger transactions, so an operation that fails half-way
    leaves the effects of the transactions before the failing one. The specification functions
    return the ledger together with the reply to say so. */
module RemediationController {
  import opened Wrappers
  import opened Digests
  import opened RemediationLedger

  const TargetRef := "range-ops"
  const ScenarioId := "ops-detection-control-bypass-v1"
  const UniformDetectionControl := "enforce_uniform_detection_control_v1"

  /** Moments are microseconds; an authorization's lease lasts ten minutes. */
  const LeaseLength := 600_000_000

  /** What the range reports about the applied mutation; an epoch is None if it is no integer. */
  datatype Mutation = Mutation(
    previousMode: string, resultingMode: string,
    preDigest: string, postDigest: string,
    oldEpoch: Option<int>, newEpoch: Option<int>,
    oldSentinel: string, newSentinel: string)

  datatype Proof = Proof(
    initialPredatesPatch: bool,
    retestFollowsPatch: bool,
    sameTarget: bool,
    sameScenario: bool,
    sameFinding: bool,
    stateChanged: bool,
    sentinelRotated: bool,
    receiptConsumed: bool)
  {
    predicate All() {
      && initialPredatesPatch && retestFollowsPatch && sameTarget && sameScenario
      && sameFinding && stateChanged && sentinelRotated && receiptConsumed
    }
  }

  type Reply = Result<(), LedgerError>

  function Settle(l: Records, r: Result<Records, LedgerError>): (Records, Reply) {
    match r
    case Ok(l') => (l', Ok(()))
    case Err(e) => (l, Err(e))
  }

  function Confirm(l: Records, f: Finding): (Records, Reply) {
    match PersistFinding(l, f)
    case Err(e) => (l, Err(e))
    case Ok(l1) => Settle(l1, TransitionTo(l1, f.loopId, InitialConfirmed))
  }

  /** The recommended id is recorded for the audit trail and never looked at. */
  function Recommend(l: Records, f: Finding, recommendedId: string): (Records, Reply) {
    Settle(l, TransitionTo(l, f.loopId, RemediationRecommended))
  }

  function Lease(f: Finding, authorizationId: string, now: int): Authorization {
    Authorization(authorizationId, f.loopId, f.id, now, now + LeaseLength)
  }

  function Authorize(l: Records, f: Finding, profileId: string, now: int, authorizationId: string)
    : (Records, Result<Authorization, LedgerError>)
  {
    var a := Lease(f, authorizationId, now);
    if profileId != UniformDetectionControl || f.targetRef != TargetRef || f.scenarioId != ScenarioId
       || f.id !in l.findings
    then (l, Err(Rejected))
    else
      match PersistAuthorization(l, a)
      case Err(e) => (l, Err(e))
      case Ok(l1) =>
        match TransitionTo(l1, f.loopId, PatchAuthorized)
        case Err(e) => (l1, Err(e))
        case Ok(l2) => (l2, Ok(a))
  }

  /** The range really moved from the vulnerable to the patched mode with a fresh sentinel. */
  predicate MutationAccepted(m: Mutation) {
    && m.previousMode == "vulnerable" && m.resultingMode == "patched"
    && m.preDigest != m.postDigest && m.oldSentinel != m.newSentinel
    && m.oldEpoch.Some? && m.newEpoch.Some?
    && IsDigest(m.preDigest) && IsDigest(m.postDigest) && IsDigest(m.oldSentinel) && IsDigest(m.newSentinel)
    && m.oldEpoch.value >= 0 && m.newEpoch.value >= 0
  }

  function MintReceipt(f: Finding, a: Authorization, m: Mutation, now: int, receiptId: string): Receipt
    requires MutationAccepted(m)
  {
    Receipt(receiptId, f.loopId, f.id, a.id, f.targetRef, f.scenarioId, m.preDigest, m.postDigest,
            m.oldEpoch.value, m.oldSentinel, m.newEpoch.value, m.newSentinel, now)
  }

  function ApplyPatch(l: Records, f: Finding, a: Authorization, m: Mutation, now: int, receiptId: string)
    : (Records, Result<Receipt, LedgerError>)
  {
    if !a.ValidAt(now) || a.findingId != f.id || !MutationAccepted(m) then (l, Err(Rejected))
    else
      var receipt := MintReceipt(f, a, m, now, receiptId);
      match PersistReceipt(l, receipt)
      case Err(e) => (l, Err(e))
      case Ok(l1) =>
        match TransitionTo(l1, f.loopId, PatchApplied)
        case Err(e) => (l1, Err(e))
        case Ok(l2) =>
          match TransitionTo(l2, f.loopId, RetestQueued)
          case Err(e) => (l2, Err(e))
          case Ok(l3) => (l3, Ok(receipt))
  }

  function Begin(l: Records, f: Finding, receipt: Receipt, jobId: string): (Records, Reply) {
    if receipt.findingId != f.id then (l, Err(Rejected))
    else
      match ConsumeReceipt(l, receipt.id)
      case Err(e) => (l, Err(e))
      case Ok(l1) =>
        match BindRetest(l1, jobId, Binding(f.loopId, f.id, receipt.id))
        case Err(e) => (l1, Err(e))
        case Ok(l2) => Settle(l2, TransitionTo(l2, f.loopId, RetestRunning))
  }

  /** What the retest looked at: its verifier status, evidence time and scope. */
  datatype RetestFacts = RetestFacts(status: string, initialAt: int, retestAt: int, targetRef: string,
                                     scenarioId: string)

  function ProveCausalBreak(l: Records, f: Finding, receipt: Receipt, facts: RetestFacts): Proof {
    Proof(
      facts.initialAt < receipt.appliedAt,
      facts.retestAt > receipt.appliedAt,
      facts.targetRef == f.targetRef == receipt.targetRef,
      facts.scenarioId == f.scenarioId == receipt.scenarioId,
      receipt.findingId == f.id,
      receipt.preDigest != receipt.postDigest,
      receipt.oldSentinel != receipt.newSentinel && receipt.newEpoch >= receipt.oldEpoch,
      receipt.id in l.receipts && l.receipts[receipt.id].consumed)
  }

  function Conclude(l: Records, f: Finding, receipt: Receipt, facts: RetestFacts)
    : (Records, Result<(State, Proof), LedgerError>)
  {
    var proof := ProveCausalBreak(l, f, receipt, facts);
    var final := if facts.status == "PASS" && proof.All() then RetestPass else RetestFail;
    match TransitionTo(l, f.loopId, final)
    case Err(e) => (l, Err(e))
    case Ok(l') => (l', Ok((final, proof)))
  }

  class Controller {
    const ledger: Ledger

    constructor (ledger: Ledger)
      ensures this.ledger == ledger
    {
      this.ledger := ledger;
    }

    method ConfirmInitialFinding(f: Finding) returns (r: Reply)
      modifies ledger
      ensures (ledger.View(), r) == Confirm(old(ledger.View()), f)
    {
      r := ledger.SaveFinding(f);
      if r.Ok? {
        r := ledger.Transition(f.loopId, InitialConfirmed);
      }
    }

    method RecordRecommendation(f: Finding, recommendedId: string) returns (r: Reply)
      modifies ledger
      ensures (ledger.View(), r) == Recommend(old(ledger.View()), f, recommendedId)
    {
      r := ledger.Transition(f.loopId, RemediationRecommended);
    }

    method AuthorizeRemediation(f: Finding, profileId: string, now: int, authorizationId: string)
      returns (r: Result<Authorization, LedgerError>)
      modifies ledger
      ensures (ledger.View(), r) == Authorize(old(ledger.View()), f, profileId, now, authorizationId)
    {
      if profileId != UniformDetectionControl || f.targetRef != TargetRef || f.scenarioId != ScenarioId
         || f.id !in ledger.findings {
        return Err(Rejected);
      }
      var a := Lease(f, authorizationId, now);
      var saved := ledger.SaveAuthorization(a);
      if saved.Err? {
        return Err(saved.error);
      }
      var moved := ledger.Transition(f.loopId, PatchAuthorized);
      if moved.Err? {
        return Err(moved.error);
      }
      return Ok(a);
    }

    method ApplyRemediation(f: Finding, a: Authorization, m: Mutation, now: int, receiptId: string)
      returns (r: Result<Receipt, LedgerError>)
      modifies ledger
      ensures (ledger.View(), r) == ApplyPatch(old(ledger.View()), f, a, m, now, receiptId)
    {
      if !a.ValidAt(now) || a.findingId != f.id || !MutationAccepted(m) {
        return Err(Rejected);
      }
      var receipt := MintReceipt(f, a, m, now, receiptId);
      var saved := ledger.SaveReceipt(receipt);
      if saved.Err? {
        return Err(saved.error);
      }
      var applied := ledger.Transition(f.loopId, PatchApplied);
      if applied.Err? {
        return Err(applied.error);
      }
      var queued := ledger.Transition(f.loopId, RetestQueued);
      if queued.Err? {
        return Err(queued.error);
      }
      return Ok(receipt);
    }

    method BeginRetest(f: Finding, receipt: Receipt, jobId: string) returns (r: Reply)
      modifies ledger
      ensures (ledger.View(), r) == Begin(old(ledger.View()), f, receipt, jobId)
    {
      if receipt.findingId != f.id {
        return Err(Rejected);
      }
      r := ledger.Consume(receipt.id);
      if r.Ok? {
        r := ledger.Bind(jobId, Binding(f.loopId, f.id, receipt.id));
        if r.Ok? {
          r := ledger.Transition(f.loopId, RetestRunning);
        }
      }
    }

    method ConcludeRetest(f: Finding, receipt: Receipt, facts: RetestFacts)
      returns (r: Result<(State, Proof), LedgerError>)
      modifies ledger
      ensures (ledger.View(), r) == Conclude(old(ledger.View()), f, receipt, facts)
    {
      var proof := ProveCausalBreak(ledger.View(), f, receipt, facts);
      var final := if facts.status == "PASS" && proof.All() then RetestPass else RetestFail;
      var moved := ledger.Transition(f.loopId, final);
      if moved.Err? {
        return Err(moved.error);
      }
      return Ok((final, proof));
    }
  }

  // ------------------------------------------------------------------ safety over every run

  /** A requested controller operation. Records are named by id and read back from the ledger, as
      the drivers do; everything else (times, mutation, verifier status, scope) is arbitrary. */
  datatype Op =
    | OpOpen(loopId: string)
    | OpConfirm(finding: Finding)
    | OpRecommend(findingId: string, recommendedId: string)
    | OpAuthorize(findingId: string, profileId: string, now: int, authorizationId: string)
    | OpApply(findingId: string, authorizationId: string, mutation: Mutation, now: int, receiptId: string)
    | OpBegin(findingId: string, receiptId: string, jobId: string)
    | OpConclude(findingId: string, receiptId: string, status: string, retestAt: int, targetRef: string,
                 scenarioId: string)
    | OpGiveUp(loopId: string, retestStarted: bool)
    | OpReplay(receiptId: string)
    | OpInvalidate(receiptId: string)

  /** The records an operation names exist; otherwise the driver has nothing to call it with. */
  predicate KnownRecords(l: Records, op: Op) {
    match op
    case OpRecommend(f, _) => f in l.findings
    case OpAuthorize(f, _, _, _) => f in l.findings
    case OpApply(f, a, _, _, _) => f in l.findings && a in l.authorizations
    case OpBegin(f, r, _) => f in l.findings && r in l.receipts
    case OpConclude(f, r, _, _, _, _) => f in l.findings && r in l.receipts
    case OpReplay(r) => ConsumeReceipt(l, r).Ok?
    case OpInvalidate(r) => r in l.receipts
    case _ => true
  }

  function Step(l: Records, op: Op): Records {
    if !KnownRecords(l, op) then l
    else
      match op
      case OpOpen(id) => Settle(l, OpenLoop(l, id)).0
      case OpConfirm(f) => Confirm(l, f).0
      case OpRecommend(f, rec) => Recommend(l, l.findings[f], rec).0
      case OpAuthorize(f, p, now, a) => Authorize(l, l.findings[f], p, now, a).0
      case OpApply(f, a, m, now, r) => ApplyPatch(l, l.findings[f], l.authorizations[a], m, now, r).0
      case OpBegin(f, r, job) => Begin(l, l.findings[f], l.receipts[r].receipt, job).0
      case OpConclude(f, r, status, at, target, scenario) =>
        var facts := RetestFacts(status, l.findings[f].evidenceAt, at, target, scenario);
        Conclude(l, l.findings[f], l.receipts[r].receipt, facts).0
      case OpGiveUp(id, started) => Settle(l, TransitionTo(l, id, if started then RetestFail else Incomplete)).0
      case OpReplay(r) => MarkConsumed(l, r)
      case OpInvalidate(r) => MarkConsumed(l, r)
  }

  function RunAll(l: Records, ops: seq<Op>): Records {
    if ops == [] then l else Step(RunAll(l, ops[..|ops| - 1]), ops[|ops| - 1])
  }

  /** Rows are filed under their own ids, and a receipt belongs to its finding's loop and records a
      real state change with a rotated sentinel. */
  ghost predicate Filed(findings: map<string, Finding>, receipts: map<string, ReceiptRow>) {
    && (forall f | f in findings :: findings[f].id == f)
    && (forall r | r in receipts :: ReceiptFiled(findings, receipts[r].receipt, r))
  }

  ghost predicate ReceiptFiled(findings: map<string, Finding>, receipt: Receipt, r: string) {
    && receipt.id == r
    && receipt.findingId in findings
    && findings[receipt.findingId].loopId == receipt.loopId
    && receipt.preDigest != receipt.postDigest
    && receipt.oldSentinel != receipt.newSentinel
  }

  /** Receipt `r` of loop `id` was consumed. */
  ghost predicate Spent(receipts: map<string, ReceiptRow>, id: string, r: string) {
    r in receipts && receipts[r].consumed && receipts[r].receipt.loopId == id
  }

  /** Receipt `r` proves that loop `id` was broken by its patch: it is spent, it changed the
      controller state, it rotated the sentinel to a later epoch, and the finding it belongs to
      was observed before the patch in the same scope. */
  ghost predicate ProvenBreak(findings: map<string, Finding>, receipts: map<string, ReceiptRow>, id: string,
                              r: string)
  {
    && Spent(receipts, id, r)
    && var receipt := receipts[r].receipt;
    && receipt.findingId in findings
    && var f := findings[receipt.findingId];
    && f.loopId == id
    && f.evidenceAt < receipt.appliedAt
    && f.targetRef == receipt.targetRef && f.scenarioId == receipt.scenarioId
    && receipt.preDigest != receipt.postDigest
    && receipt.oldSentinel != receipt.newSentinel && receipt.newEpoch >= receipt.oldEpoch
  }

  ghost predicate SomeSpent(receipts: map<string, ReceiptRow>, id: string) {
    exists r :: Spent(receipts, id, r)
  }

  ghost predicate SomeProvenBreak(findings: map<string, Finding>, receipts: map<string, ReceiptRow>, id: string) {
    exists r :: ProvenBreak(findings, receipts, id, r)
  }

  /** A loop whose retest began has spent a receipt, and one that passed has proven the break. */
  ghost predicate Backed(loops: map<string, State>, findings: map<string, Finding>, receipts: map<string, ReceiptRow>) {
    forall id | id in loops ::
      && (loops[id] in {RetestRunning, RetestPass, RetestFail} ==> SomeSpent(receipts, id))
      && (loops[id].RetestPass? ==> SomeProvenBreak(findings, receipts, id))
  }

  ghost predicate Safe(l: Records) {
    TrailsLegal(l) && Filed(l.findings, l.receipts) && Backed(l.loops, l.findings, l.receipts)
  }

  /** Findings and receipts are kept as they are; a spent receipt stays spent. */
  ghost predicate Retained(l: Records, l': Records) {
    && (forall f | f in l.findings :: f in l'.findings && l'.findings[f] == l.findings[f])
    && (forall r | r in l.receipts ::
          && r in l'.receipts && l'.receipts[r].receipt == l.receipts[r].receipt
          && (l.receipts[r].consumed ==> l'.receipts[r].consumed))
  }

  lemma RetainedIsTransitive(a: Records, b: Records, c: Records)
    requires Retained(a, b) && Retained(b, c)
    ensures Retained(a, c)
  {
  }

  lemma RetainedKeepsBacking(l: Records, l': Records, id: string)
    requires Retained(l, l')
    ensures SomeSpent(l.receipts, id) ==> SomeSpent(l'.receipts, id)
    ensures SomeProvenBreak(l.findings, l.receipts, id) ==> SomeProvenBreak(l'.findings, l'.receipts, id)
  {
    if SomeSpent(l.receipts, id) {
      var r :| Spent(l.receipts, id, r);
      assert Spent(l'.receipts, id, r);
    }
    if SomeProvenBreak(l.findings, l.receipts, id) {
      var r :| ProvenBreak(l.findings, l.receipts, id, r);
      assert ProvenBreak(l'.findings, l'.receipts, id, r);
    }
  }

  lemma BackedUpdate(loops: map<string, State>, findings: map<string, Finding>, receipts: map<string, ReceiptRow>,
                     id: string, s: State)
    requires Backed(loops, findings, receipts)
    requires s in {RetestRunning, RetestPass, RetestFail} ==> SomeSpent(receipts, id)
    requires s.RetestPass? ==> SomeProvenBreak(findings, receipts, id)
    ensures Backed(loops[id := s], findings, receipts)
  {
  }

  lemma OnlyARunningRetestFails(s: State)
    requires RetestFail in ValidTransitions(s)
    ensures s == RetestRunning
  {
  }

  /** A transition into a state that needs no receipt, or that has one, is safe. */
  lemma TransitionSafe(l: Records, id: string, s: State)
    requires Safe(l)
    requires s in {RetestRunning, RetestPass} ==> SomeSpent(l.receipts, id)
    requires s.RetestPass? ==> SomeProvenBreak(l.findings, l.receipts, id)
    ensures var l' := Settle(l, TransitionTo(l, id, s)).0; Safe(l') && Retained(l, l')
  {
    var r := TransitionTo(l, id, s);
    if r.Ok? {
      if s.RetestFail? {
        OnlyARunningRetestFails(l.loops[id]);
      }
      BackedUpdate(l.loops, l.findings, l.receipts, id, s);
      TransitionKeepsTrails(l, id, s);
      assert r.value.findings == l.findings && r.value.receipts == l.receipts && r.value.loops == l.loops[id := s];
    }
  }

  /** Changing records without touching the loops is safe if they stay well filed. */
  lemma RecordsSafe(l: Records, l': Records)
    requires Safe(l) && Retained(l, l') && Filed(l'.findings, l'.receipts)
    requires l'.loops == l.loops && l'.trail == l.trail
    ensures Safe(l')
  {
    forall id | id in l.loops {
      RetainedKeepsBacking(l, l', id);
    }
  }

  lemma ConsumeSafe(l: Records, r: string)
    requires Safe(l) && r in l.receipts
    ensures Retained(l, MarkConsumed(l, r)) && Safe(MarkConsumed(l, r))
  {
    RecordsSafe(l, MarkConsumed(l, r));
  }

  lemma ConfirmSafe(l: Records, f: Finding)
    requires Safe(l)
    ensures Safe(Confirm(l, f).0) && Retained(l, Confirm(l, f).0)
  {
    if PersistFinding(l, f).Ok? {
      var l1 := PersistFinding(l, f).value;
      RecordsSafe(l, l1);
      TransitionSafe(l1, f.loopId, InitialConfirmed);
    }
  }

  lemma AuthorizeSafe(l: Records, f: Finding, profileId: string, now: int, id: string)
    requires Safe(l)
    ensures var l' := Authorize(l, f, profileId, now, id).0; Safe(l') && Retained(l, l')
  {
    var saved := PersistAuthorization(l, Lease(f, id, now));
    if saved.Ok? {
      RecordsSafe(l, saved.value);
      TransitionSafe(saved.value, f.loopId, PatchAuthorized);
    }
  }

  lemma PersistReceiptSafe(l: Records, receipt: Receipt)
    requires Safe(l)
    requires receipt.preDigest != receipt.postDigest && receipt.oldSentinel != receipt.newSentinel
    ensures var r := PersistReceipt(l, receipt); r.Ok? ==> Safe(r.value) && Retained(l, r.value)
  {
    var r := PersistReceipt(l, receipt);
    if r.Ok? {
      RecordsSafe(l, r.value);
    }
  }

  lemma ApplySafe(l: Records, f: Finding, a: Authorization, m: Mutation, now: int, receiptId: string)
    requires Safe(l)
    ensures var l' := ApplyPatch(l, f, a, m, now, receiptId).0; Safe(l') && Retained(l, l')
  {
    if MutationAccepted(m) {
      var receipt := MintReceipt(f, a, m, now, receiptId);
      PersistReceiptSafe(l, receipt);
      var saved := PersistReceipt(l, receipt);
      if saved.Ok? {
        TransitionSafe(saved.value, f.loopId, PatchApplied);
        var l2 := Settle(saved.value, TransitionTo(saved.value, f.loopId, PatchApplied)).0;
        TransitionSafe(l2, f.loopId, RetestQueued);
        var l3 := Settle(l2, TransitionTo(l2, f.loopId, RetestQueued)).0;
        RetainedIsTransitive(l, saved.value, l2);
        RetainedIsTransitive(l, l2, l3);
      }
    }
  }

  lemma BeginSafe(l: Records, f: Finding, r: string, jobId: string)
    requires Safe(l) && f.id in l.findings && l.findings[f.id] == f && r in l.receipts
    ensures var l' := Begin(l, f, l.receipts[r].receipt, jobId).0; Safe(l') && Retained(l, l')
  {
    assert ReceiptFiled(l.findings, l.receipts[r].receipt, r);
    if l.receipts[r].receipt.findingId == f.id && ConsumeReceipt(l, r).Ok? {
      ConsumeSafe(l, r);
      var l1 := MarkConsumed(l, r);
      var bound := BindRetest(l1, jobId, Binding(f.loopId, f.id, r));
      if bound.Ok? {
        RecordsSafe(l1, bound.value);
        assert Spent(bound.value.receipts, f.loopId, r);
        TransitionSafe(bound.value, f.loopId, RetestRunning);
      }
    }
  }

  lemma ConcludeSafe(l: Records, f: Finding, r: string, facts: RetestFacts)
    requires Safe(l) && f.id in l.findings && l.findings[f.id] == f && r in l.receipts
    requires facts.initialAt == f.evidenceAt
    ensures var l' := Conclude(l, f, l.receipts[r].receipt, facts).0; Safe(l') && Retained(l, l')
  {
    assert ReceiptFiled(l.findings, l.receipts[r].receipt, r);
    if facts.status == "PASS" && ProveCausalBreak(l, f, l.receipts[r].receipt, facts).All() {
      assert ProvenBreak(l.findings, l.receipts, f.loopId, r) && Spent(l.receipts, f.loopId, r);
      TransitionSafe(l, f.loopId, RetestPass);
    } else {
      TransitionSafe(l, f.loopId, RetestFail);
    }
  }

  lemma OpenSafe(l: Records, id: string)
    requires Safe(l)
    ensures var l' := Settle(l, OpenLoop(l, id)).0; Safe(l') && Retained(l, l')
  {
    OpenKeepsTrails(l, id);
  }

  lemma FindingsFiled(l: Records, f: string)
    requires Safe(l) && f in l.findings
    ensures l.findings[f].id == f
  {
  }

  /** One operation, however it ends, keeps the ledger safe, keeps every record, and never takes a
      consumed mark back. */
  lemma StepSafe(l: Records, op: Op)
    requires Safe(l)
    ensures Safe(Step(l, op)) && Retained(l, Step(l, op))
  {
    if !KnownRecords(l, op) {
      return;
    }
    match op {
      case OpOpen(id) => OpenSafe(l, id);
      case OpConfirm(f) => ConfirmSafe(l, f);
      case OpRecommend(f, _) => TransitionSafe(l, l.findings[f].loopId, RemediationRecommended);
      case OpAuthorize(f, p, now, a) => AuthorizeSafe(l, l.findings[f], p, now, a);
      case OpApply(f, a, m, now, r) => ApplySafe(l, l.findings[f], l.authorizations[a], m, now, r);
      case OpBegin(f, r, job) =>
        FindingsFiled(l, f);
        BeginSafe(l, l.findings[f], r, job);
      case OpConclude(f, r, status, at, target, scenario) =>
        FindingsFiled(l, f);
        ConcludeSafe(l, l.findings[f], r, RetestFacts(status, l.findings[f].evidenceAt, at, target, scenario));
      case OpGiveUp(id, started) =>
        TransitionSafe(l, id, if started then RetestFail else Incomplete);
      case OpReplay(r) => ConsumeSafe(l, r);
      case OpInvalidate(r) => ConsumeSafe(l, r);
    }
  }

  /** Over every run of controller operations, failed ones included: no retest runs without a spent
      receipt of its own loop, no loop passes without a proven break, and every loop that is not in
      a fallback state got there through the whole happy path. */
  lemma {:induction false} SafeOverEveryRun(ops: seq<Op>)
    ensures Safe(RunAll(EmptyRecords, ops))
  {
    if ops != [] {
      SafeOverEveryRun(ops[..|ops| - 1]);
      StepSafe(RunAll(EmptyRecords, ops[..|ops| - 1]), ops[|ops| - 1]);
    }
  }

  lemma {:induction false} RetainedOverEveryRun(l: Records, ops: seq<Op>)
    requires Safe(l)
    ensures Safe(RunAll(l, ops)) && Retained(l, RunAll(l, ops))
  {
    if ops != [] {
      RetainedOverEveryRun(l, ops[..|ops| - 1]);
      StepSafe(RunAll(l, ops[..|ops| - 1]), ops[|ops| - 1]);
      RetainedIsTransitive(l, RunAll(l, ops[..|ops| - 1]), RunAll(l, ops));
    }
  }

  /** A receipt is consumed at most once over every run: once spent, consuming it again and
      beginning a retest with it are refused for ever. */
  lemma SpentForEver(l: Records, ops: seq<Op>, r: string, f: Finding, jobId: string)
    requires Safe(l) && r in l.receipts && l.receipts[r].consumed
    ensures ConsumeReceipt(RunAll(l, ops), r) == Err(ReceiptAlreadyConsumed)
    ensures Begin(RunAll(l, ops), f, l.receipts[r].receipt, jobId).1.Err?
  {
    RetainedOverEveryRun(l, ops);
    assert ReceiptFiled(l.findings, l.receipts[r].receipt, r);
  }

  /** The model's recommendation has no influence on the controller: runs that differ only in
      recommended ids end in the same ledger. */
  ghost predicate SameButForRecommendations(a: seq<Op>, b: seq<Op>) {
    |a| == |b| && forall i | 0 <= i < |a| ::
      a[i] == b[i] || (a[i].OpRecommend? && b[i].OpRecommend? && a[i].findingId == b[i].findingId)
  }

  lemma {:induction false} RecommendationsDoNotMatter(l: Records, a: seq<Op>, b: seq<Op>)
    requires SameButForRecommendations(a, b)
    ensures RunAll(l, a) == RunAll(l, b)
  {
    if a != [] {
      RecommendationsDoNotMatter(l, a[..|a| - 1], b[..|b| - 1]);
      var i := |a| - 1;
      assert a[i] == b[i] || (a[i].OpRecommend? && b[i].OpRecommend? && a[i].findingId == b[i].findingId);
    }
  }
}
