/** The remediation loop's controller-owned state machine and its durable ledger: loops, findings,
    authorizations, single-use patch receipts and retest bindings. */
module RemediationLedger {
  import opened Wrappers
  import opened Trails

  // ------------------------------------------------------------------ the state machine

  datatype State =
    | InitialExecutionPending
    | InitialConfirmed
    | RemediationRecommended
    | PatchAuthorized
    | PatchApplied
    | RetestQueued
    | RetestRunning
    | RetestPass
    | RetestFail
    | Incomplete
    | CleanupFailed

  const Fallbacks := {Incomplete, CleanupFailed}

  function HappyNext(s: State): set<State> {
    match s
    case InitialExecutionPending => {InitialConfirmed}
    case InitialConfirmed => {RemediationRecommended}
    case RemediationRecommended => {PatchAuthorized}
    case PatchAuthorized => {PatchApplied}
    case PatchApplied => {RetestQueued}
    case RetestQueued => {RetestRunning}
    case RetestRunning => {RetestPass, RetestFail}
    case _ => {}
  }

  function ValidTransitions(s: State): set<State> {
    if s in {RetestPass, RetestFail, CleanupFailed} then {}
    else if s.Incomplete? then {CleanupFailed}
    else HappyNext(s) + Fallbacks
  }

  /** A non-empty sequence of states that starts where every loop starts and takes legal steps. */
  ghost predicate LegalPath(p: seq<State>) {
    && p != []
    && p[0] == InitialExecutionPending
    && forall i | 0 < i < |p| :: p[i] in ValidTransitions(p[i - 1])
  }

  /** The one progression that leads to `s`, for the states that are not fallbacks. */
  function HappyPrefix(s: State): seq<State>
    requires s !in Fallbacks
  {
    match s
    case InitialExecutionPending => [s]
    case InitialConfirmed => [InitialExecutionPending, s]
    case RemediationRecommended => [InitialExecutionPending, InitialConfirmed, s]
    case PatchAuthorized => [InitialExecutionPending, InitialConfirmed, RemediationRecommended, s]
    case PatchApplied => [InitialExecutionPending, InitialConfirmed, RemediationRecommended, PatchAuthorized, s]
    case RetestQueued =>
      [InitialExecutionPending, InitialConfirmed, RemediationRecommended, PatchAuthorized, PatchApplied, s]
    case RetestRunning =>
      [InitialExecutionPending, InitialConfirmed, RemediationRecommended, PatchAuthorized, PatchApplied,
       RetestQueued, s]
    case _ =>
      [InitialExecutionPending, InitialConfirmed, RemediationRecommended, PatchAuthorized, PatchApplied,
       RetestQueued, RetestRunning, s]
  }

  /** No step can be skipped or repeated: whatever legal steps a loop takes, if it stands in a
      state that is not a fallback it came there by the whole happy path, each state once. */
  lemma {:induction false} HappyPathForced(p: seq<State>)
    requires LegalPath(p) && p[|p| - 1] !in Fallbacks
    ensures p == HappyPrefix(p[|p| - 1])
    decreases |p|
  {
    if |p| > 1 {
      var q := p[..|p| - 1];
      assert p[|p| - 1] in ValidTransitions(p[|p| - 2]);
      assert q[|q| - 1] == p[|p| - 2];
      HappyPathForced(q);
      assert p == q + [p[|p| - 1]];
    }
  }

  // ------------------------------------------------------------------ persisted records

  datatype Finding = Finding(id: string, loopId: string, targetRef: string, scenarioId: string, evidenceAt: int)

  datatype Authorization = Authorization(
    id: string, loopId: string, findingId: string, issuedAt: int, expiresAt: int)
  {
    predicate ValidAt(moment: int) {
      issuedAt <= moment < expiresAt
    }
  }

  datatype Receipt = Receipt(
    id: string, loopId: string, findingId: string, authorizationId: string,
    targetRef: string, scenarioId: string,
    preDigest: string, postDigest: string,
    oldEpoch: int, oldSentinel: string, newEpoch: int, newSentinel: string,
    appliedAt: int)

  /** The stored receipt never changes; only its single-use flag does. */
  datatype ReceiptRow = ReceiptRow(receipt: Receipt, consumed: bool)

  datatype Binding = Binding(loopId: string, findingId: string, receiptId: string)

  datatype Records = Records(
    loops: map<string, State>,
    trail: seq<Move<State>>,
    findings: map<string, Finding>,
    authorizations: map<string, Authorization>,
    receipts: map<string, ReceiptRow>,
    bindings: map<string, Binding>)

  const EmptyRecords := Records(map[], [], map[], map[], map[], map[])

  datatype LedgerError =
    | LoopAlreadyOpen
    | LoopNotFound
    | IllegalStateTransition
    | AlreadyPersisted
    | FindingInvalid
    | AuthorizationInvalid
    | ReceiptNotFound
    | ReceiptAlreadyConsumed
    | Rejected

  function OpenLoop(l: Records, loopId: string): Result<Records, LedgerError> {
    if loopId in l.loops then Err(LoopAlreadyOpen)
    else Ok(l.(loops := l.loops[loopId := InitialExecutionPending],
               trail := l.trail + [Move(loopId, None, InitialExecutionPending)]))
  }

  function TransitionTo(l: Records, loopId: string, s: State): Result<Records, LedgerError> {
    if loopId !in l.loops then Err(LoopNotFound)
    else if s !in ValidTransitions(l.loops[loopId]) then Err(IllegalStateTransition)
    else Ok(l.(loops := l.loops[loopId := s],
               trail := l.trail + [Move(loopId, Some(l.loops[loopId]), s)]))
  }

  function PersistFinding(l: Records, f: Finding): Result<Records, LedgerError> {
    if f.id in l.findings then Err(AlreadyPersisted)
    else Ok(l.(findings := l.findings[f.id := f]))
  }

  function PersistAuthorization(l: Records, a: Authorization): Result<Records, LedgerError> {
    if a.findingId !in l.findings || l.findings[a.findingId].loopId != a.loopId then Err(FindingInvalid)
    else if a.id in l.authorizations then Err(AlreadyPersisted)
    else Ok(l.(authorizations := l.authorizations[a.id := a]))
  }

  function PersistReceipt(l: Records, r: Receipt): Result<Records, LedgerError> {
    if r.findingId !in l.findings || l.findings[r.findingId].loopId != r.loopId then Err(FindingInvalid)
    else if r.authorizationId !in l.authorizations || l.authorizations[r.authorizationId].loopId != r.loopId
    then Err(AuthorizationInvalid)
    else if r.id in l.receipts then Err(AlreadyPersisted)
    else Ok(l.(receipts := l.receipts[r.id := ReceiptRow(r, false)]))
  }

  function ConsumeReceipt(l: Records, receiptId: string): Result<Records, LedgerError> {
    if receiptId !in l.receipts then Err(ReceiptNotFound)
    else if l.receipts[receiptId].consumed then Err(ReceiptAlreadyConsumed)
    else Ok(MarkConsumed(l, receiptId))
  }

  function MarkConsumed(l: Records, receiptId: string): Records
    requires receiptId in l.receipts
  {
    l.(receipts := l.receipts[receiptId := l.receipts[receiptId].(consumed := true)])
  }

  function BindRetest(l: Records, jobId: string, b: Binding): Result<Records, LedgerError> {
    if jobId in l.bindings then Err(AlreadyPersisted)
    else Ok(l.(bindings := l.bindings[jobId := b]))
  }

  class Ledger {
    var loops: map<string, State>
    var trail: seq<Move<State>>
    var findings: map<string, Finding>
    var authorizations: map<string, Authorization>
    var receipts: map<string, ReceiptRow>
    var bindings: map<string, Binding>

    constructor ()
      ensures View() == EmptyRecords
    {
      loops, trail, findings, authorizations, receipts, bindings := map[], [], map[], map[], map[], map[];
    }

    function View(): Records
      reads this
    {
      Records(loops, trail, findings, authorizations, receipts, bindings)
    }

    /** A call did what the operation on the records says, or failed and changed nothing. */
    ghost predicate Did(outcome: Result<Records, LedgerError>, before: Records, r: Result<(), LedgerError>)
      reads this
    {
      match outcome
      case Ok(l) => r == Ok(()) && View() == l
      case Err(e) => r == Err(e) && View() == before
    }

    method Open(loopId: string) returns (r: Result<(), LedgerError>)
      modifies this
      ensures Did(OpenLoop(old(View()), loopId), old(View()), r)
    {
      if loopId in loops {
        return Err(LoopAlreadyOpen);
      }
      loops := loops[loopId := InitialExecutionPending];
      trail := trail + [Move(loopId, None, InitialExecutionPending)];
      return Ok(());
    }

    method Transition(loopId: string, s: State) returns (r: Result<(), LedgerError>)
      modifies this
      ensures Did(TransitionTo(old(View()), loopId, s), old(View()), r)
    {
      if loopId !in loops {
        return Err(LoopNotFound);
      }
      var current := loops[loopId];
      if s !in ValidTransitions(current) {
        return Err(IllegalStateTransition);
      }
      loops := loops[loopId := s];
      trail := trail + [Move(loopId, Some(current), s)];
      return Ok(());
    }

    method SaveFinding(f: Finding) returns (r: Result<(), LedgerError>)
      modifies this
      ensures Did(PersistFinding(old(View()), f), old(View()), r)
    {
      if f.id in findings {
        return Err(AlreadyPersisted);
      }
      findings := findings[f.id := f];
      return Ok(());
    }

    method SaveAuthorization(a: Authorization) returns (r: Result<(), LedgerError>)
      modifies this
      ensures Did(PersistAuthorization(old(View()), a), old(View()), r)
    {
      if a.findingId !in findings || findings[a.findingId].loopId != a.loopId {
        return Err(FindingInvalid);
      }
      if a.id in authorizations {
        return Err(AlreadyPersisted);
      }
      authorizations := authorizations[a.id := a];
      return Ok(());
    }

    method SaveReceipt(receipt: Receipt) returns (r: Result<(), LedgerError>)
      modifies this
      ensures Did(PersistReceipt(old(View()), receipt), old(View()), r)
    {
      if receipt.findingId !in findings || findings[receipt.findingId].loopId != receipt.loopId {
        return Err(FindingInvalid);
      }
      if receipt.authorizationId !in authorizations
         || authorizations[receipt.authorizationId].loopId != receipt.loopId {
        return Err(AuthorizationInvalid);
      }
      if receipt.id in receipts {
        return Err(AlreadyPersisted);
      }
      receipts := receipts[receipt.id := ReceiptRow(receipt, false)];
      return Ok(());
    }

    method Consume(receiptId: string) returns (r: Result<(), LedgerError>)
      modifies this
      ensures Did(ConsumeReceipt(old(View()), receiptId), old(View()), r)
    {
      if receiptId !in receipts {
        return Err(ReceiptNotFound);
      }
      if receipts[receiptId].consumed {
        return Err(ReceiptAlreadyConsumed);
      }
      receipts := receipts[receiptId := receipts[receiptId].(consumed := true)];
      return Ok(());
    }

    method Bind(jobId: string, b: Binding) returns (r: Result<(), LedgerError>)
      modifies this
      ensures Did(BindRetest(old(View()), jobId, b), old(View()), r)
    {
      if jobId in bindings {
        return Err(AlreadyPersisted);
      }
      bindings := bindings[jobId := b];
      return Ok(());
    }
  }

  // ------------------------------------------------------------------ what every ledger keeps

  ghost predicate TrailsLegal(l: Records) {
    && (forall id | id in l.loops :: TrailLegal(l, id))
    && (forall m | m in l.trail :: m.id in l.loops)
  }

  ghost predicate TrailLegal(l: Records, id: string)
    requires id in l.loops
  {
    var p := StatesOf(l.trail, id);
    LegalPath(p) && p[|p| - 1] == l.loops[id]
  }

  lemma OneMoreState(p: seq<State>, s: State)
    requires LegalPath(p) && s in ValidTransitions(p[|p| - 1])
    ensures LegalPath(p + [s])
  {
  }

  lemma OpenKeepsTrails(l: Records, loopId: string)
    requires TrailsLegal(l)
    ensures OpenLoop(l, loopId).Ok? ==> TrailsLegal(OpenLoop(l, loopId).value)
  {
    var r := OpenLoop(l, loopId);
    if r.Ok? {
      NoMovesNoStates(l.trail, loopId);
      forall id | id in r.value.loops
        ensures TrailLegal(r.value, id)
      {
        StatesAfter(l.trail, Move(loopId, None, InitialExecutionPending), id);
        assert id in l.loops ==> TrailLegal(l, id);
      }
    }
  }

  lemma TransitionKeepsTrails(l: Records, loopId: string, s: State)
    requires TrailsLegal(l)
    ensures TransitionTo(l, loopId, s).Ok? ==> TrailsLegal(TransitionTo(l, loopId, s).value)
  {
    var r := TransitionTo(l, loopId, s);
    if r.Ok? {
      assert TrailLegal(l, loopId);
      OneMoreState(StatesOf(l.trail, loopId), s);
      forall id | id in l.loops
        ensures TrailLegal(r.value, id)
      {
        StatesAfter(l.trail, Move(loopId, Some(l.loops[loopId]), s), id);
        assert TrailLegal(l, id);
      }
    }
  }

  /** A loop of a legal ledger that passed its retest went through every happy-path state once. */
  lemma PassedLoopWentTheWholeWay(l: Records, id: string)
    requires TrailsLegal(l) && id in l.loops && l.loops[id] !in Fallbacks
    ensures StatesOf(l.trail, id) == HappyPrefix(l.loops[id])
  {
    assert TrailLegal(l, id);
    HappyPathForced(StatesOf(l.trail, id));
  }
}
