/** The failure matrix: one row per fail-closed rejection, with the state the orchestrator was in.
    Written independently of the comparison script's tally, whose classifier it shares. */
module FailureMatrix {
  import opened Wrappers
  import opened RejectionClassifier

  datatype StateLabel = PostVerification | RetestConfirmatory | DiscoveryGenerative

  datatype RowEvent = Planner | Safety | Budget | CoverageShortfall

  datatype Row = Row(
    phase: Phase, state: StateLabel, event: RowEvent, category: string, code: string,
    structural: bool, invalidReference: bool, safeIfValid: bool)

  const UnsafeCategories: set<string> :=
    {ScopeOrSafetyRejection, UnsupportedAction, UnknownEndpoint, SecretLeakageBlocked}

  predicate IsFinal(status: Option<string>) {
    status == Some("CONFIRMED") || status == Some("PASS")
  }

  function LabelOf(phase: Phase, status: Option<string>): StateLabel {
    if IsFinal(status) then PostVerification
    else if phase.Retest? then RetestConfirmatory
    else DiscoveryGenerative
  }

  function RowFor(phase: Phase, status: Option<string>, event: RowEvent, category: string, code: string): Row {
    Row(phase, LabelOf(phase, status), event, category, code,
        category == PydanticStructuralFailure, category == EvidenceReferenceFailure,
        category !in UnsafeCategories)
  }

  // ------------------------------------------------------------------ one report

  /** The event sets the tracked verification status: every verifier result does, possibly to null,
      and a planner request does only if it carries one. */
  predicate SetsStatus(e: Event) {
    e.VerifierResult? || (e.PlannerRequest? && e.carried.Some?)
  }

  function StatusSet(e: Event): Option<string>
    requires SetsStatus(e)
  {
    if e.VerifierResult? then e.status else e.carried.value
  }

  /** The status in force before event `i`, looking back. */
  function StatusBefore(events: seq<Event>, i: nat): Option<string>
    requires i <= |events|
  {
    if i == 0 then None
    else if SetsStatus(events[i - 1]) then StatusSet(events[i - 1])
    else StatusBefore(events, i - 1)
  }

  /** The row of a rejection met while `status` is in force; no row for any other event. */
  function RowsFor(phase: Phase, status: Option<string>, e: Event): seq<Row> {
    match e
    case PlannerRejected(reason) => [RowFor(phase, status, Planner, PlannerCategory(reason), reason)]
    case SafetyRejected(reason) => [RowFor(phase, status, Safety, SafetyCategory(reason), reason)]
    case BudgetExhausted(reason) => [RowFor(phase, status, Budget, BudgetRejection, reason)]
    case VerifierResult(_) => []
    case PlannerRequest(_) => []
    case OtherEvent => []
  }

  function RowAt(phase: Phase, events: seq<Event>, i: nat): seq<Row>
    requires i < |events|
  {
    RowsFor(phase, StatusBefore(events, i), events[i])
  }

  /** What `rows` gives for each of the first `n` events and the status in force before it, in order. */
  function Collected(rows: (Option<string>, Event) -> seq<Row>, events: seq<Event>, n: nat): seq<Row>
    requires n <= |events|
  {
    if n == 0 then []
    else Collected(rows, events, n - 1) + rows(StatusBefore(events, n - 1), events[n - 1])
  }

  function RowsIn(phase: Phase): (Option<string>, Event) -> seq<Row> {
    (status, e) => RowsFor(phase, status, e)
  }

  /** The rows of the first `n` events of a report. */
  function RowsUpTo(phase: Phase, events: seq<Event>, n: nat): seq<Row>
    requires n <= |events|
  {
    Collected(RowsIn(phase), events, n)
  }

  /** One pass over a report with the status carried along. */
  method RowsForReport(phase: Phase, events: seq<Event>) returns (rows: seq<Row>)
    ensures rows == RowsUpTo(phase, events, |events|)
  {
    rows := [];
    var status: Option<string> := None;
    for i := 0 to |events|
      invariant status == StatusBefore(events, i)
      invariant rows == RowsUpTo(phase, events, i)
    {
      match events[i] {
        case VerifierResult(s) => status := s;
        case PlannerRequest(carried) => status := if carried.Some? then carried.value else status;
        case PlannerRejected(_) => rows := rows + RowsFor(phase, status, events[i]);
        case SafetyRejected(_) => rows := rows + RowsFor(phase, status, events[i]);
        case BudgetExhausted(_) => rows := rows + RowsFor(phase, status, events[i]);
        case OtherEvent =>
      }
    }
  }

  // ------------------------------------------------------------------ all trials

  function RowsOfReport(phase: Phase, report: Option<seq<Event>>): seq<Row> {
    if report.None? then [] else RowsUpTo(phase, report.value, |report.value|)
  }

  function ShortfallRow(t: Trial): seq<Row> {
    if t.confirmed && t.retestStatus.Some? && t.retestStatus != Some("PASS")
    then [Row(Retest, RetestConfirmatory, CoverageShortfall, EvidenceReferenceFailure,
              "retest_status=" + t.retestStatus.value, false, true, true)]
    else []
  }

  function RowsOfTrial(t: Trial): seq<Row> {
    RowsOfReport(Discovery, t.initial) + RowsOfReport(Retest, t.retest) + ShortfallRow(t)
  }

  function RowsOfTrials(trials: seq<Trial>): seq<Row> {
    if trials == [] then [] else RowsOfTrials(trials[..|trials| - 1]) + RowsOfTrial(trials[|trials| - 1])
  }

  method RowsForTrial(t: Trial) returns (rows: seq<Row>)
    ensures rows == RowsOfTrial(t)
  {
    rows := [];
    if t.initial.Some? {
      rows := RowsForReport(Discovery, t.initial.value);
    }
    if t.retest.Some? {
      var more := RowsForReport(Retest, t.retest.value);
      rows := rows + more;
    }
    if t.confirmed && t.retestStatus.Some? && t.retestStatus != Some("PASS") {
      rows := rows + [Row(Retest, RetestConfirmatory, CoverageShortfall, EvidenceReferenceFailure,
                          "retest_status=" + t.retestStatus.value, false, true, true)];
    }
  }

  method BuildMatrix(trials: seq<Trial>) returns (rows: seq<Row>)
    ensures rows == RowsOfTrials(trials)
  {
    rows := [];
    for i := 0 to |trials|
      invariant rows == RowsOfTrials(trials[..i])
    {
      assert trials[..i + 1][..i] == trials[..i];
      var more := RowsForTrial(trials[i]);
      rows := rows + more;
    }
    assert trials[..|trials|] == trials;
  }

  // ------------------------------------------------------------------ the two scripts agree

  function Triple(r: Row): Rejection {
    Rejection(r.phase, r.category, r.code)
  }

  function Triples(rows: seq<Row>): (rs: seq<Rejection>)
    ensures |rs| == |rows| && forall i | 0 <= i < |rows| :: rs[i] == Triple(rows[i])
  {
    seq(|rows|, i requires 0 <= i < |rows| => Triple(rows[i]))
  }

  lemma TriplesOfConcat(a: seq<Row>, b: seq<Row>)
    ensures Triples(a + b) == Triples(a) + Triples(b)
  {
  }

  lemma {:induction false} ReportsAgree(phase: Phase, events: seq<Event>, n: nat)
    requires n <= |events|
    ensures Triples(RowsUpTo(phase, events, n)) == InReport(phase, events[..n])
  {
    if n > 0 {
      ReportsAgree(phase, events, n - 1);
      assert events[..n][..n - 1] == events[..n - 1];
      TriplesOfConcat(RowsUpTo(phase, events, n - 1), RowAt(phase, events, n - 1));
    }
  }

  lemma RowsOfReportAgree(phase: Phase, report: Option<seq<Event>>)
    ensures Triples(RowsOfReport(phase, report)) == if report.None? then [] else InReport(phase, report.value)
  {
    if report.Some? {
      ReportsAgree(phase, report.value, |report.value|);
      assert report.value[..|report.value|] == report.value;
    }
  }

  lemma InReportsOfTrial(t: Trial)
    ensures InReports(ReportsOf(t))
         == (if t.initial.None? then [] else InReport(Discovery, t.initial.value))
            + (if t.retest.None? then [] else InReport(Retest, t.retest.value))
  {
    var reports := ReportsOf(t);
    if t.initial.Some? && t.retest.Some? {
      var first := (Discovery, t.initial.value);
      assert reports[..1] == [first] && [first][..0] == [];
      assert InReports([first]) == InReport(Discovery, t.initial.value);
    } else if reports != [] {
      assert reports[..0] == [];
    }
  }

  lemma TrialsAgree(t: Trial)
    ensures Triples(RowsOfTrial(t)) == InTrial(t)
  {
    RowsOfReportAgree(Discovery, t.initial);
    RowsOfReportAgree(Retest, t.retest);
    InReportsOfTrial(t);
    TriplesOfConcat(RowsOfReport(Discovery, t.initial), RowsOfReport(Retest, t.retest));
    TriplesOfConcat(RowsOfReport(Discovery, t.initial) + RowsOfReport(Retest, t.retest), ShortfallRow(t));
  }

  /** For any evidence, the phases, categories and codes of the matrix rows are, in order, the
      rejections the comparison script lists trial by trial, coverage shortfalls included. */
  lemma {:induction false} MatrixAgreesWithTally(trials: seq<Trial>)
    ensures Triples(RowsOfTrials(trials)) == Flatten(PerTrial(trials))
  {
    if trials != [] {
      var front, last := trials[..|trials| - 1], trials[|trials| - 1];
      MatrixAgreesWithTally(front);
      TrialsAgree(last);
      assert PerTrial(trials)[..|trials| - 1] == PerTrial(front);
      TriplesOfConcat(RowsOfTrials(front), RowsOfTrial(last));
    }
  }

  // ------------------------------------------------------------------ the state of a row

  /** The event sets the status to `status`: a verifier result with it, or a request that carries it. */
  predicate Sets(e: Event, status: Option<string>) {
    (e.VerifierResult? && e.status == status) || (e.PlannerRequest? && e.carried == Some(status))
  }

  /** Event `j` sets the status to `status`, and no verifier result and no request that carries a status
      lies between it and event `i`. */
  ghost predicate LastSetter(events: seq<Event>, i: nat, j: nat, status: Option<string>)
    requires i <= |events|
  {
    && j < i && Sets(events[j], status)
    && forall k | j < k < i :: !events[k].VerifierResult? && (events[k].PlannerRequest? ==> events[k].carried.None?)
  }

  lemma {:induction false} StatusIsMostRecent(events: seq<Event>, i: nat, j: nat, status: Option<string>)
    requires i <= |events| && LastSetter(events, i, j, status)
    ensures StatusBefore(events, i) == status
  {
    if j < i - 1 {
      StatusIsMostRecent(events, i - 1, j, status);
    }
  }

  lemma {:induction false} StatusHasSetter(events: seq<Event>, i: nat)
    requires i <= |events| && StatusBefore(events, i).Some?
    ensures exists j: nat :: LastSetter(events, i, j, StatusBefore(events, i))
  {
    if SetsStatus(events[i - 1]) {
      assert LastSetter(events, i, i - 1, StatusBefore(events, i));
    } else {
      StatusHasSetter(events, i - 1);
      var j: nat :| LastSetter(events, i - 1, j, StatusBefore(events, i - 1));
      assert LastSetter(events, i, j, StatusBefore(events, i));
    }
  }

  /** A rejection's row is labelled post-verification exactly if the most recent event before it
      that set the status set it to CONFIRMED or PASS; otherwise the phase decides. A verifier result
      without a status takes the label away again, a planner request without one does not. */
  lemma RowStateIff(phase: Phase, events: seq<Event>, i: nat)
    requires i < |events| && (events[i].PlannerRejected? || events[i].SafetyRejected? || events[i].BudgetExhausted?)
    ensures |RowAt(phase, events, i)| == 1
    ensures var state := RowAt(phase, events, i)[0].state;
      && (state.PostVerification? <==>
            exists j: nat :: LastSetter(events, i, j, Some("CONFIRMED")) || LastSetter(events, i, j, Some("PASS")))
      && (!state.PostVerification? ==> state == if phase.Retest? then RetestConfirmatory else DiscoveryGenerative)
  {
    if j: nat :| LastSetter(events, i, j, Some("CONFIRMED")) {
      StatusIsMostRecent(events, i, j, Some("CONFIRMED"));
    }
    if j: nat :| LastSetter(events, i, j, Some("PASS")) {
      StatusIsMostRecent(events, i, j, Some("PASS"));
    }
    if StatusBefore(events, i).Some? {
      StatusHasSetter(events, i);
      var j: nat :| LastSetter(events, i, j, StatusBefore(events, i));
      assert LastSetter(events, i, j, StatusBefore(events, i));
    }
  }

  // ------------------------------------------------------------------ the flags of a row

  /** The reference flag marks exactly the coverage shortfalls, whose rows are retest rows and safe; only
      planner rejections are structural;
      and a rejected decision is called unsafe only if the planner or the safety check rejected it: a
      planner rejection for an unknown endpoint or a blocked secret, a safety rejection always unless
      it was about uniqueness or budget. */
  predicate FlagsAgree(row: Row) {
    && (row.invalidReference <==> row.event.CoverageShortfall?)
    && (row.event.CoverageShortfall? ==> row.state.RetestConfirmatory? && row.safeIfValid)
    && (row.structural ==> row.event.Planner?)
    && (!row.safeIfValid ==> row.event.Planner? || row.event.Safety?)
    && (row.event.Planner? ==> (row.safeIfValid <==> row.category !in {UnknownEndpoint, SecretLeakageBlocked}))
    && (row.event.Safety? ==> (row.safeIfValid <==> row.category in {SemanticInconsistency, BudgetRejection}))
  }

  ghost predicate AllAgree(rows: seq<Row>) {
    forall row | row in rows :: FlagsAgree(row)
  }

  lemma AllAgreeConcat(a: seq<Row>, b: seq<Row>)
    requires AllAgree(a) && AllAgree(b)
    ensures AllAgree(a + b)
  {
  }

  lemma PlannerFlags(phase: Phase, status: Option<string>, category: string, code: string)
    requires category in PlannerCategories
    ensures FlagsAgree(RowFor(phase, status, Planner, category, code))
  {
  }

  lemma SafetyFlags(phase: Phase, status: Option<string>, category: string, code: string)
    requires category in SafetyCategories
    ensures FlagsAgree(RowFor(phase, status, Safety, category, code))
  {
  }

  lemma BudgetFlags(phase: Phase, status: Option<string>, code: string)
    ensures FlagsAgree(RowFor(phase, status, Budget, BudgetRejection, code))
  {
  }

  lemma RowsForFlags(phase: Phase, status: Option<string>, e: Event)
    ensures AllAgree(RowsFor(phase, status, e))
  {
    match e {
      case PlannerRejected(reason) => PlannerFlags(phase, status, PlannerCategory(reason), reason);
      case SafetyRejected(reason) => SafetyFlags(phase, status, SafetyCategory(reason), reason);
      case BudgetExhausted(reason) => BudgetFlags(phase, status, reason);
      case VerifierResult(_) =>
      case PlannerRequest(_) =>
      case OtherEvent =>
    }
  }

  lemma {:induction false} CollectedAgree(rows: (Option<string>, Event) -> seq<Row>, events: seq<Event>, n: nat)
    requires n <= |events| && forall status, e :: AllAgree(rows(status, e))
    ensures AllAgree(Collected(rows, events, n))
  {
    if n > 0 {
      CollectedAgree(rows, events, n - 1);
      AllAgreeConcat(Collected(rows, events, n - 1), rows(StatusBefore(events, n - 1), events[n - 1]));
    }
  }

  lemma RowsUpToFlags(phase: Phase, events: seq<Event>)
    ensures AllAgree(RowsUpTo(phase, events, |events|))
  {
    forall status, e
      ensures AllAgree(RowsIn(phase)(status, e))
    {
      RowsForFlags(phase, status, e);
    }
    CollectedAgree(RowsIn(phase), events, |events|);
  }

  lemma TrialFlags(t: Trial)
    ensures AllAgree(RowsOfTrial(t))
  {
    if t.initial.Some? {
      RowsUpToFlags(Discovery, t.initial.value);
    }
    if t.retest.Some? {
      RowsUpToFlags(Retest, t.retest.value);
    }
    AllAgreeConcat(RowsOfReport(Discovery, t.initial), RowsOfReport(Retest, t.retest));
    AllAgreeConcat(RowsOfReport(Discovery, t.initial) + RowsOfReport(Retest, t.retest), ShortfallRow(t));
  }

  /** Over the whole matrix. */
  lemma {:induction false} MatrixFlags(trials: seq<Trial>)
    ensures forall row | row in RowsOfTrials(trials) :: FlagsAgree(row)
  {
    if trials != [] {
      MatrixFlags(trials[..|trials| - 1]);
      TrialFlags(trials[|trials| - 1]);
    }
  }
}
