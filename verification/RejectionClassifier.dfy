/** The fail-closed rejections of acceptance trials: how a safe diagnostic code is put into a
    category, and the comparison script's tally over all trials. */
module RejectionClassifier {
  import opened Wrappers

  /** An audit event, as far as the two scripts read it. `carried` is the verification status a
      planner request carries: None if it carries none, and the status itself may be null. */
  datatype Event =
    | VerifierResult(status: Option<string>)
    | PlannerRequest(carried: Option<Option<string>>)
    | PlannerRejected(reason: string)
    | SafetyRejected(reason: string)
    | BudgetExhausted(reason: string)
    | OtherEvent

  datatype Phase = Discovery | Retest

  datatype Trial = Trial(
    initial: Option<seq<Event>>, retest: Option<seq<Event>>, confirmed: bool, retestStatus: Option<string>)

  datatype Rejection = Rejection(phase: Phase, category: string, code: string)

  const InvalidJson := "invalid_json"
  const JsonSchemaFailure := "json_schema_failure"
  const PydanticStructuralFailure := "pydantic_structural_failure"
  const SemanticInconsistency := "semantic_inconsistency"
  const UnknownEndpoint := "unknown_endpoint"
  const UnsupportedAction := "unsupported_action"
  const InvalidPrincipalObjectDirection := "invalid_principal_object_direction"
  const EvidenceReferenceFailure := "evidence_reference_failure"
  const ScopeOrSafetyRejection := "scope_or_safety_rejection"
  const BudgetRejection := "budget_rejection"
  const IncompleteTruncatedOutput := "incomplete_truncated_output"
  const ModelTransportMismatch := "model_transport_mismatch"
  const SecretLeakageBlocked := "secret_leakage_blocked"
  const GatewayTransportError := "gateway_transport_error"
  const Other := "other"

  const Categories: seq<string> := [
    InvalidJson, JsonSchemaFailure, PydanticStructuralFailure, SemanticInconsistency, UnknownEndpoint,
    UnsupportedAction, InvalidPrincipalObjectDirection, EvidenceReferenceFailure, ScopeOrSafetyRejection,
    BudgetRejection, IncompleteTruncatedOutput, ModelTransportMismatch, SecretLeakageBlocked,
    GatewayTransportError, Other]

  // ------------------------------------------------------------------ the two classifiers

  function UpperChar(c: char): char {
    if 'a' <= c <= 'z' then (c as int - 32) as char else c
  }

  function LowerChar(c: char): char {
    if 'A' <= c <= 'Z' then (c as int + 32) as char else c
  }

  function Upper(s: string): string {
    seq(|s|, i requires 0 <= i < |s| => UpperChar(s[i]))
  }

  function Lower(s: string): string {
    seq(|s|, i requires 0 <= i < |s| => LowerChar(s[i]))
  }

  predicate ReportsBadUsage(c: string) {
    Contains(c, "USAGE_EXCEEDED") || (Contains(c, "USAGE") && Contains(c, "INVALID"))
  }

  /** The categories the planner classifier can give, and those the safety classifier can give. */
  const PlannerCategories: seq<string> := [
    InvalidJson, PydanticStructuralFailure, UnknownEndpoint, BudgetRejection, IncompleteTruncatedOutput,
    ModelTransportMismatch, SecretLeakageBlocked, GatewayTransportError, Other]
  const SafetyCategories: seq<string> := [
    SemanticInconsistency, UnknownEndpoint, UnsupportedAction, ScopeOrSafetyRejection, BudgetRejection]

  function PlannerCategory(code: string): (category: string)
    ensures category in Categories && category in PlannerCategories
  {
    UpperCategory(Upper(code))
  }

  /** The planner's case distinction, on a code in upper case. */
  function UpperCategory(c: string): string {
    if "MODEL_RESPONSE_REJECTED_JSONDECODEERROR" <= c || c == "MISSING_MODEL_OUTPUT" then InvalidJson
    else if "MODEL_RESPONSE_REJECTED_VALIDATIONERROR" <= c then PydanticStructuralFailure
    else if "MODEL_RESPONSE_REJECTED_" <= c then PydanticStructuralFailure
    else if "INCOMPLETE_MODEL_OUTPUT" <= c then IncompleteTruncatedOutput
    else if c == "PROVIDER_MODEL_MISMATCH" then ModelTransportMismatch
    else if ReportsBadUsage(c) then BudgetRejection
    else if c in {"UNEXPECTED_ENDPOINT", "ENDPOINT_ORIGIN_MISMATCH"} then UnknownEndpoint
    else if c in {"UNEXPECTED_CONTENT_TYPE", "PROVIDER_REDIRECT"} then ModelTransportMismatch
    else if c == "SECRET_IN_PLANNER_OUTPUT" then SecretLeakageBlocked
    else if "GATEWAY" <= c then GatewayTransportError
    else Other
  }

  function SafetyCategory(reason: string): (category: string)
    ensures category in Categories && category in SafetyCategories
  {
    var r := Lower(reason);
    if Contains(r, "state-changing") || Contains(r, "method") then UnsupportedAction
    else if Contains(r, "outside the authorized synthetic object surface") || Contains(r, "not present in the imported")
    then UnknownEndpoint
    else if Contains(r, "unique") then SemanticInconsistency
    else if Contains(r, "budget") then BudgetRejection
    else ScopeOrSafetyRejection
  }

  // ------------------------------------------------------------------ what the tally should be

  predicate IsRejection(e: Event) {
    e.PlannerRejected? || e.SafetyRejected? || e.BudgetExhausted?
  }

  /** The rejection an event stands for, if it is one. */
  function RejectionOf(phase: Phase, e: Event): Option<Rejection> {
    match e
    case PlannerRejected(reason) => Some(Rejection(phase, PlannerCategory(reason), reason))
    case SafetyRejected(reason) => Some(Rejection(phase, SafetyCategory(reason), reason))
    case BudgetExhausted(reason) => Some(Rejection(phase, BudgetRejection, reason))
    case _ => None
  }

  function InReport(phase: Phase, events: seq<Event>): seq<Rejection> {
    if events == [] then []
    else
      var last := RejectionOf(phase, events[|events| - 1]);
      InReport(phase, events[..|events| - 1]) + (if last.Some? then [last.value] else [])
  }

  /** A confirmed trial whose retest ran and did not pass is a rejection of its own. */
  function Shortfall(t: Trial): (missed: seq<Rejection>)
    ensures |missed| <= 1
  {
    if t.confirmed && t.retestStatus.Some? && t.retestStatus != Some("PASS")
    then [Rejection(Retest, EvidenceReferenceFailure, "retest_status=" + t.retestStatus.value)]
    else []
  }

  function ReportsOf(t: Trial): seq<(Phase, seq<Event>)> {
    (if t.initial.Some? then [(Discovery, t.initial.value)] else [])
    + (if t.retest.Some? then [(Retest, t.retest.value)] else [])
  }

  function InReports(reports: seq<(Phase, seq<Event>)>): seq<Rejection> {
    if reports == [] then []
    else InReports(reports[..|reports| - 1]) + InReport(reports[|reports| - 1].0, reports[|reports| - 1].1)
  }

  function InTrial(t: Trial): seq<Rejection> {
    InReports(ReportsOf(t)) + Shortfall(t)
  }

  function PerTrial(trials: seq<Trial>): seq<seq<Rejection>> {
    seq(|trials|, i requires 0 <= i < |trials| => InTrial(trials[i]))
  }

  function Flatten<T>(parts: seq<seq<T>>): seq<T> {
    if parts == [] then [] else Flatten(parts[..|parts| - 1]) + parts[|parts| - 1]
  }

  function CountIn(rs: seq<Rejection>, category: string): nat {
    if rs == [] then 0
    else CountIn(rs[..|rs| - 1], category) + (if rs[|rs| - 1].category == category then 1 else 0)
  }

  /** The code of the first rejection of a category. */
  function FirstCode(rs: seq<Rejection>, category: string): Option<string> {
    if rs == [] then None
    else if rs[0].category == category then Some(rs[0].code)
    else FirstCode(rs[1..], category)
  }

  // ------------------------------------------------------------------ the tally as it runs

  type Counts = map<string, nat>
  type Examples = map<string, string>

  /** The counter and the examples agree with the rejections seen so far. */
  ghost predicate Tallied(counts: Counts, examples: Examples, rs: seq<Rejection>) {
    && (forall c | c in counts :: counts[c] == CountIn(rs, c))
    && (forall c | c !in counts :: CountIn(rs, c) == 0)
    && (forall c | c in examples :: FirstCode(rs, c) == Some(examples[c]))
    && (forall c | c !in examples :: FirstCode(rs, c) == None)
  }

  function Bump(counts: Counts, category: string): Counts {
    counts[category := (if category in counts then counts[category] else 0) + 1]
  }

  function SetDefault(examples: Examples, category: string, code: string): Examples {
    if category in examples then examples else examples[category := code]
  }

  lemma {:induction false} FirstCodeOfConcat(rs: seq<Rejection>, r: Rejection, c: string)
    ensures FirstCode(rs + [r], c)
         == if FirstCode(rs, c).Some? then FirstCode(rs, c) else if r.category == c then Some(r.code) else None
  {
    if rs == [] {
      assert [r][1..] == [];
    } else {
      assert (rs + [r])[1..] == rs[1..] + [r];
      FirstCodeOfConcat(rs[1..], r, c);
    }
  }

  lemma TalliedAfter(counts: Counts, examples: Examples, rs: seq<Rejection>, r: Rejection)
    requires Tallied(counts, examples, rs)
    ensures Tallied(Bump(counts, r.category), SetDefault(examples, r.category, r.code), rs + [r])
  {
    assert (rs + [r])[..|rs|] == rs;
    forall c: string
      ensures FirstCode(rs + [r], c)
           == if FirstCode(rs, c).Some? then FirstCode(rs, c) else if r.category == c then Some(r.code) else None
    {
      FirstCodeOfConcat(rs, r, c);
    }
  }

  /** One report's events: count them, keep first examples and list them. */
  method TallyReport(phase: Phase, events: seq<Event>, counts: Counts, examples: Examples, ghost seen: seq<Rejection>)
      returns (counts': Counts, examples': Examples, found: seq<Rejection>)
    requires Tallied(counts, examples, seen)
    ensures found == InReport(phase, events)
    ensures Tallied(counts', examples', seen + found)
  {
    counts', examples', found := counts, examples, [];
    assert seen + [] == seen;
    for i := 0 to |events|
      invariant found == InReport(phase, events[..i])
      invariant Tallied(counts', examples', seen + found)
    {
      assert events[..i + 1][..i] == events[..i];
      var r := RejectionOf(phase, events[i]);
      if r.Some? {
        TalliedAfter(counts', examples', seen + found, r.value);
        assert seen + found + [r.value] == seen + (found + [r.value]);
        counts' := Bump(counts', r.value.category);
        examples' := SetDefault(examples', r.value.category, r.value.code);
        found := found + [r.value];
      }
    }
    assert events[..|events|] == events;
  }

  /** One trial: its reports in order, then the coverage shortfall. */
  method TallyTrial(t: Trial, counts: Counts, examples: Examples, ghost seen: seq<Rejection>)
      returns (counts': Counts, examples': Examples, found: seq<Rejection>)
    requires Tallied(counts, examples, seen)
    ensures found == InTrial(t)
    ensures Tallied(counts', examples', seen + found)
  {
    counts', examples', found := counts, examples, [];
    assert seen + [] == seen;
    var reports := ReportsOf(t);
    for i := 0 to |reports|
      invariant found == InReports(reports[..i])
      invariant Tallied(counts', examples', seen + found)
    {
      assert reports[..i + 1][..i] == reports[..i];
      ghost var before := found;
      var more;
      counts', examples', more := TallyReport(reports[i].0, reports[i].1, counts', examples', seen + found);
      found := found + more;
      assert seen + before + more == seen + found;
    }
    assert reports[..|reports|] == reports;
    var missed := Shortfall(t);
    counts', examples' := TallyShortfall(missed, counts', examples', seen + found);
    assert seen + found + missed == seen + (found + missed);
    found := found + missed;
  }

  method TallyShortfall(missed: seq<Rejection>, counts: Counts, examples: Examples, ghost seen: seq<Rejection>)
      returns (counts': Counts, examples': Examples)
    requires Tallied(counts, examples, seen) && |missed| <= 1
    ensures Tallied(counts', examples', seen + missed)
  {
    if missed == [] {
      assert seen + missed == seen;
      return counts, examples;
    }
    TalliedAfter(counts, examples, seen, missed[0]);
    assert [missed[0]] == missed;
    return Bump(counts, missed[0].category), SetDefault(examples, missed[0].category, missed[0].code);
  }

  datatype Tally = Tally(categoryCounts: seq<nat>, categoryExamples: Examples, perTrial: seq<seq<Rejection>>)

  /** Every listed category with its count, zero if it never occurred, and its first example. */
  method Summarize(counts: Counts, examples: Examples, perTrial: seq<seq<Rejection>>) returns (tally: Tally)
    requires Tallied(counts, examples, Flatten(perTrial))
    ensures tally.perTrial == perTrial
    ensures var all := Flatten(perTrial);
      && tally.categoryCounts == CountsOf(all, Categories)
      && (forall c :: c in tally.categoryExamples <==> c in Categories && FirstCode(all, c).Some?)
      && (forall c | c in tally.categoryExamples :: FirstCode(all, c) == Some(tally.categoryExamples[c]))
  {
    var ordered := seq(|Categories|,
      k requires 0 <= k < |Categories| => if Categories[k] in counts then counts[Categories[k]] else 0);
    tally := Tally(ordered, map c | c in examples && c in Categories :: examples[c], perTrial);
  }

  lemma NextTrial(trials: seq<Trial>, i: nat)
    requires i < |trials|
    ensures PerTrial(trials[..i + 1]) == PerTrial(trials[..i]) + [InTrial(trials[i])]
    ensures Flatten(PerTrial(trials[..i + 1])) == Flatten(PerTrial(trials[..i])) + InTrial(trials[i])
  {
    var before := PerTrial(trials[..i]);
    assert (before + [InTrial(trials[i])])[..i] == before;
  }

  method TallyTrials(trials: seq<Trial>) returns (counts: Counts, examples: Examples, perTrial: seq<seq<Rejection>>)
    ensures perTrial == PerTrial(trials)
    ensures Tallied(counts, examples, Flatten(PerTrial(trials)))
  {
    counts, examples, perTrial := map[], map[], [];
    for i := 0 to |trials|
      invariant perTrial == PerTrial(trials[..i])
      invariant Tallied(counts, examples, Flatten(PerTrial(trials[..i])))
    {
      NextTrial(trials, i);
      var found;
      counts, examples, found := TallyTrial(trials[i], counts, examples, Flatten(PerTrial(trials[..i])));
      perTrial := perTrial + [found];
    }
    assert trials[..|trials|] == trials;
  }

  /** The comparison script's classification of all trials: the count of every listed category, in
      the list's order, the first code of every category that occurs, and each trial's rejections. */
  method ClassifyTrials(trials: seq<Trial>) returns (tally: Tally)
    ensures tally.perTrial == PerTrial(trials)
    ensures var all := Flatten(PerTrial(trials));
      && tally.categoryCounts == CountsOf(all, Categories)
      && (forall c :: c in tally.categoryExamples <==> c in Categories && FirstCode(all, c).Some?)
      && (forall c | c in tally.categoryExamples :: FirstCode(all, c) == Some(tally.categoryExamples[c]))
  {
    var counts, examples, perTrial := TallyTrials(trials);
    tally := Summarize(counts, examples, perTrial);
  }

  // ------------------------------------------------------------------ conservation

  lemma {:induction false} ReportIsCategorized(phase: Phase, events: seq<Event>)
    ensures forall r | r in InReport(phase, events) :: r.category in Categories && r.phase == phase
  {
    if events != [] {
      ReportIsCategorized(phase, events[..|events| - 1]);
      assert BudgetRejection in Categories;
    }
  }

  lemma {:induction false} ReportsAreCategorized(reports: seq<(Phase, seq<Event>)>)
    ensures forall r | r in InReports(reports) :: r.category in Categories
  {
    if reports != [] {
      ReportsAreCategorized(reports[..|reports| - 1]);
      ReportIsCategorized(reports[|reports| - 1].0, reports[|reports| - 1].1);
    }
  }

  /** No classifier result falls outside the listed categories. */
  lemma {:induction false} EveryRejectionIsCategorized(trials: seq<Trial>)
    ensures forall r | r in Flatten(PerTrial(trials)) :: r.category in Categories
  {
    if trials != [] {
      var front, last := trials[..|trials| - 1], trials[|trials| - 1];
      EveryRejectionIsCategorized(front);
      assert PerTrial(trials)[..|trials| - 1] == PerTrial(front);
      ReportsAreCategorized(ReportsOf(last));
      assert EvidenceReferenceFailure in Categories;
    }
  }

  function Total(counts: seq<nat>): nat {
    if counts == [] then 0 else Total(counts[..|counts| - 1]) + counts[|counts| - 1]
  }

  function CountsOf(rs: seq<Rejection>, categories: seq<string>): seq<nat> {
    seq(|categories|, k requires 0 <= k < |categories| => CountIn(rs, categories[k]))
  }

  ghost predicate Distinct(xs: seq<string>) {
    forall i, j | 0 <= i < j < |xs| :: xs[i] != xs[j]
  }

  lemma {:induction false} OneMore(rs: seq<Rejection>, r: Rejection, categories: seq<string>)
    requires Distinct(categories)
    ensures Total(CountsOf(rs + [r], categories)) == Total(CountsOf(rs, categories))
            + (if r.category in categories then 1 else 0)
  {
    if categories != [] {
      var front, last := categories[..|categories| - 1], categories[|categories| - 1];
      OneMore(rs, r, front);
      assert (rs + [r])[..|rs|] == rs;
      assert CountsOf(rs + [r], categories)[..|front|] == CountsOf(rs + [r], front);
      assert CountsOf(rs, categories)[..|front|] == CountsOf(rs, front);
      assert categories == front + [last];
    }
  }

  lemma {:induction false} CountsAddUp(rs: seq<Rejection>, categories: seq<string>)
    requires Distinct(categories) && forall r | r in rs :: r.category in categories
    ensures Total(CountsOf(rs, categories)) == |rs|
  {
    if rs == [] {
      ZeroTotal(CountsOf([], categories));
    } else {
      var front, last := rs[..|rs| - 1], rs[|rs| - 1];
      assert rs == front + [last];
      CountsAddUp(front, categories);
      OneMore(front, last, categories);
      assert last in rs;
    }
  }

  lemma {:induction false} ZeroTotal(counts: seq<nat>)
    requires forall k | 0 <= k < |counts| :: counts[k] == 0
    ensures Total(counts) == 0
  {
    if counts != [] {
      ZeroTotal(counts[..|counts| - 1]);
    }
  }

  /** Nothing is lost: the counts over the listed categories add up to the number of rejections of
      all trials, and a category has an example exactly if its count is positive. */
  lemma ClassificationConserves(trials: seq<Trial>)
    ensures var all := Flatten(PerTrial(trials));
      && Total(CountsOf(all, Categories)) == |all|
      && (forall c: string :: FirstCode(all, c).Some? <==> CountIn(all, c) > 0)
  {
    var all := Flatten(PerTrial(trials));
    EveryRejectionIsCategorized(trials);
    CategoriesAreDistinct();
    CountsAddUp(all, Categories);
    forall c: string
      ensures FirstCode(all, c).Some? <==> CountIn(all, c) > 0
    {
      ExampleIffCounted(all, c);
    }
  }

  lemma CategoriesAreDistinct()
    ensures Distinct(Categories)
  {
  }

  lemma {:induction false} ExampleIffCounted(rs: seq<Rejection>, c: string)
    ensures FirstCode(rs, c).Some? <==> CountIn(rs, c) > 0
  {
    if rs != [] {
      var front, last := rs[..|rs| - 1], rs[|rs| - 1];
      assert rs == front + [last];
      ExampleIffCounted(front, c);
      FirstCodeOfConcat(front, last, c);
    }
  }

  /** What `FirstCode` means: the code of a rejection of that category with none of it before. */
  lemma {:induction false} FirstCodeIsFirst(rs: seq<Rejection>, c: string, code: string)
    ensures FirstCode(rs, c) == Some(code)
       <==> exists i | 0 <= i < |rs| ::
              rs[i] == Rejection(rs[i].phase, c, code) && forall j | 0 <= j < i :: rs[j].category != c
  {
    if rs != [] {
      FirstCodeIsFirst(rs[1..], c, code);
      if rs[0].category != c {
        if FirstCode(rs[1..], c) == Some(code) {
          var i :| 0 <= i < |rs[1..]| && rs[1..][i] == Rejection(rs[1..][i].phase, c, code)
                   && forall j | 0 <= j < i :: rs[1..][j].category != c;
          assert rs[i + 1] == Rejection(rs[i + 1].phase, c, code);
          assert forall j | 0 <= j < i + 1 :: rs[j].category != c by {
            forall j | 0 <= j < i + 1 ensures rs[j].category != c {
              if j > 0 {
                assert rs[j] == rs[1..][j - 1];
              }
            }
          }
        }
        if i :| 0 <= i < |rs| && rs[i] == Rejection(rs[i].phase, c, code)
                && forall j | 0 <= j < i :: rs[j].category != c {
          assert rs[1..][i - 1] == rs[i];
          assert forall j | 0 <= j < i - 1 :: rs[1..][j].category != c;
        }
      } else {
        assert rs[0].code == code ==> rs[0] == Rejection(rs[0].phase, c, code);
      }
    }
  }

  // ------------------------------------------------------------------ what the categories mean

  /** Precedence among overlapping codes: a rejected model response is a structural failure unless it
      was not JSON at all, and a gateway code that reports invalid or exceeded usage is a budget
      rejection, not a transport error. */
  lemma PlannerPrecedence(code: string)
    ensures var c := Upper(code);
      && ("MODEL_RESPONSE_REJECTED_" <= c ==>
            PlannerCategory(code)
            == if "MODEL_RESPONSE_REJECTED_JSONDECODEERROR" <= c then InvalidJson else PydanticStructuralFailure)
      && ("GATEWAY" <= c ==>
            PlannerCategory(code) == if ReportsBadUsage(c) then BudgetRejection else GatewayTransportError)
  {
    var c := Upper(code);
    if "MODEL_RESPONSE_REJECTED_" <= c {
      RejectedPrecedence(c);
    }
    if "GATEWAY" <= c {
      GatewayPrecedence(c);
    }
  }

  /** Case mapping moves exactly the ASCII letters, and lower case undoes upper case on small letters. */
  lemma CaseMapping(c: char)
    ensures 'a' <= c <= 'z' ==> 'A' <= UpperChar(c) <= 'Z' && LowerChar(UpperChar(c)) == c && LowerChar(c) == c
    ensures 'A' <= c <= 'Z' ==> 'a' <= LowerChar(c) <= 'z' && UpperChar(LowerChar(c)) == c && UpperChar(c) == c
    ensures !('a' <= c <= 'z') && !('A' <= c <= 'Z') ==> UpperChar(c) == c && LowerChar(c) == c
  {
  }

  /** The code reports that usage figures were exceeded or invalid. */
  predicate BadUsage(c: string) {
    Contains(c, "USAGE_EXCEEDED") || (Contains(c, "USAGE") && Contains(c, "INVALID"))
  }

  /** Which planner codes get which category: for every category that one classifier can give but
      "other", the codes in upper case, exactly. */
  ghost predicate GivenExactly(category: string, c: string) {
    && (category == "invalid_json" <==>
          "MODEL_RESPONSE_REJECTED_JSONDECODEERROR" <= c || c == "MISSING_MODEL_OUTPUT")
    && (category == "pydantic_structural_failure" <==>
          "MODEL_RESPONSE_REJECTED_" <= c && !("MODEL_RESPONSE_REJECTED_JSONDECODEERROR" <= c))
    && (category == "incomplete_truncated_output" <==> "INCOMPLETE_MODEL_OUTPUT" <= c)
    && (category == "model_transport_mismatch" <==>
          c == "PROVIDER_MODEL_MISMATCH" || c == "UNEXPECTED_CONTENT_TYPE" || c == "PROVIDER_REDIRECT")
    && (category == "budget_rejection" <==>
          BadUsage(c) && !("MODEL_RESPONSE_REJECTED_" <= c) && !("INCOMPLETE_MODEL_OUTPUT" <= c))
    && (category == "unknown_endpoint" <==> c == "UNEXPECTED_ENDPOINT" || c == "ENDPOINT_ORIGIN_MISMATCH")
    && (category == "secret_leakage_blocked" <==> c == "SECRET_IN_PLANNER_OUTPUT")
    && (category == "gateway_transport_error" <==> "GATEWAY" <= c && !BadUsage(c))
  }

  lemma PlannerCategoryIff(code: string)
    ensures GivenExactly(PlannerCategory(code), Upper(code))
  {
    UpperCategoryIff(Upper(code));
  }

  lemma UpperCategoryIff(c: string)
    ensures GivenExactly(UpperCategory(c), c)
  {
    if "MODEL_RESPONSE_REJECTED_" <= c {
      RejectedGiven(c);
    } else if "INCOMPLETE_MODEL_OUTPUT" <= c {
      IncompleteGiven(c);
    } else if "GATEWAY" <= c {
      GatewayGiven(c);
    } else if BadUsage(c) {
      FixedCodesReportNoUsage();
      UsageGiven(c);
    } else if c in FixedCodes {
      FixedCodeGiven(c);
    } else {
      OtherGiven(c);
    }
  }

  const FixedCodes: set<string> := {
    "MISSING_MODEL_OUTPUT", "PROVIDER_MODEL_MISMATCH", "UNEXPECTED_ENDPOINT", "ENDPOINT_ORIGIN_MISMATCH",
    "UNEXPECTED_CONTENT_TYPE", "PROVIDER_REDIRECT", "SECRET_IN_PLANNER_OUTPUT"}

  lemma UsageGiven(c: string)
    requires !("MODEL_RESPONSE_REJECTED_" <= c) && !("INCOMPLETE_MODEL_OUTPUT" <= c) && !("GATEWAY" <= c)
    requires BadUsage(c) && c !in FixedCodes
    ensures GivenExactly(UpperCategory(c), c)
  {
    UsageCategory(c);
    BudgetGiven("budget_rejection", c);
  }

  lemma UsageCategory(c: string)
    requires !("MODEL_RESPONSE_REJECTED_" <= c) && !("INCOMPLETE_MODEL_OUTPUT" <= c)
    requires BadUsage(c) && c !in FixedCodes
    ensures UpperCategory(c) == "budget_rejection"
  {
  }

  lemma BudgetGiven(category: string, c: string)
    requires category == "budget_rejection"
    requires !("MODEL_RESPONSE_REJECTED_" <= c) && !("INCOMPLETE_MODEL_OUTPUT" <= c)
    requires BadUsage(c) && c !in FixedCodes
    ensures GivenExactly(category, c)
  {
  }

  lemma FixedCodeGiven(c: string)
    requires !("MODEL_RESPONSE_REJECTED_" <= c) && !("INCOMPLETE_MODEL_OUTPUT" <= c) && !("GATEWAY" <= c)
    requires !BadUsage(c) && c in FixedCodes
    ensures GivenExactly(UpperCategory(c), c)
  {
  }

  lemma OtherGiven(c: string)
    requires !("MODEL_RESPONSE_REJECTED_" <= c) && !("INCOMPLETE_MODEL_OUTPUT" <= c) && !("GATEWAY" <= c)
    requires !BadUsage(c) && c !in FixedCodes
    ensures GivenExactly(UpperCategory(c), c)
  {
    assert UpperCategory(c) == "other";
  }

  /** Which safety reasons get which category, for every reason. */
  lemma SafetyCategoryIff(reason: string)
    ensures var r, category := Lower(reason), SafetyCategory(reason);
      var changing := Contains(r, "state-changing") || Contains(r, "method");
      var outside := || Contains(r, "outside the authorized synthetic object surface")
                     || Contains(r, "not present in the imported");
      && (category == "unsupported_action" <==> changing)
      && (category == "unknown_endpoint" <==> outside && !changing)
      && (category == "semantic_inconsistency" <==> Contains(r, "unique") && !outside && !changing)
      && (category == "budget_rejection" <==>
            Contains(r, "budget") && !Contains(r, "unique") && !outside && !changing)
      && (category == "scope_or_safety_rejection" <==>
            !Contains(r, "budget") && !Contains(r, "unique") && !outside && !changing)
  {
  }

  lemma RejectedGiven(c: string)
    requires "MODEL_RESPONSE_REJECTED_" <= c
    ensures GivenExactly(UpperCategory(c), c)
  {
    assert c[0] == 'M' && c[1] == 'O';
  }

  lemma IncompleteGiven(c: string)
    requires "INCOMPLETE_MODEL_OUTPUT" <= c
    ensures GivenExactly(UpperCategory(c), c)
  {
    assert c[0] == 'I';
  }

  lemma GatewayGiven(c: string)
    requires "GATEWAY" <= c
    ensures GivenExactly(UpperCategory(c), c)
  {
    assert c[0] == 'G';
  }

  lemma NoUsage(c: string)
    requires forall i | 0 <= i < |c| - 1 :: c[i] == 'U' ==> c[i + 1] != 'S'
    ensures !BadUsage(c)
  {
    forall i | 0 <= i <= |c|
      ensures !OccursAt(c, "USAGE", i) && !OccursAt(c, "USAGE_EXCEEDED", i)
    {
      if i + 5 <= |c| {
        assert c[i..i + 5][0] == c[i] && c[i..i + 5][1] == c[i + 1];
      }
      if i + 14 <= |c| {
        assert c[i..i + 14][0] == c[i] && c[i..i + 14][1] == c[i + 1];
      }
    }
  }

  lemma FixedCodesReportNoUsage()
    ensures !BadUsage("MISSING_MODEL_OUTPUT") && !BadUsage("PROVIDER_MODEL_MISMATCH")
    ensures !BadUsage("UNEXPECTED_ENDPOINT") && !BadUsage("ENDPOINT_ORIGIN_MISMATCH")
    ensures !BadUsage("UNEXPECTED_CONTENT_TYPE") && !BadUsage("PROVIDER_REDIRECT")
    ensures !BadUsage("SECRET_IN_PLANNER_OUTPUT")
  {
    NoUsage("MISSING_MODEL_OUTPUT");
    NoUsage("PROVIDER_MODEL_MISMATCH");
    NoUsage("UNEXPECTED_ENDPOINT");
    NoUsage("ENDPOINT_ORIGIN_MISMATCH");
    NoUsage("UNEXPECTED_CONTENT_TYPE");
    NoUsage("PROVIDER_REDIRECT");
    NoUsage("SECRET_IN_PLANNER_OUTPUT");
  }

  lemma RejectedPrecedence(c: string)
    requires "MODEL_RESPONSE_REJECTED_" <= c
    ensures UpperCategory(c)
         == if "MODEL_RESPONSE_REJECTED_JSONDECODEERROR" <= c then InvalidJson else PydanticStructuralFailure
  {
    assert c[1] == 'O';
  }

  lemma GatewayPrecedence(c: string)
    requires "GATEWAY" <= c
    ensures UpperCategory(c) == if ReportsBadUsage(c) then BudgetRejection else GatewayTransportError
  {
    assert c[0] == 'G';
  }

  predicate FromReports(category: string) {
    category in PlannerCategories || category in SafetyCategories
  }

  /** Three categories are given by no report event. */
  lemma NotGiven()
    ensures !FromReports(EvidenceReferenceFailure) && !FromReports(JsonSchemaFailure)
    ensures !FromReports(InvalidPrincipalObjectDirection)
  {
  }

  lemma {:induction false} ReportCategories(phase: Phase, events: seq<Event>)
    ensures forall r | r in InReport(phase, events) :: FromReports(r.category)
  {
    if events != [] {
      ReportCategories(phase, events[..|events| - 1]);
      assert FromReports(BudgetRejection);
    }
  }

  lemma {:induction false} ReportsCategories(reports: seq<(Phase, seq<Event>)>)
    ensures forall r | r in InReports(reports) :: FromReports(r.category)
  {
    if reports != [] {
      ReportsCategories(reports[..|reports| - 1]);
      ReportCategories(reports[|reports| - 1].0, reports[|reports| - 1].1);
    }
  }

  /** A category that no report event gives is not counted among the rejections of the reports. */
  lemma NotFromReports(reports: seq<(Phase, seq<Event>)>, category: string)
    requires !FromReports(category)
    ensures CountIn(InReports(reports), category) == 0
  {
    ReportsCategories(reports);
    CountInNone(InReports(reports), category);
  }

  lemma {:induction false} CountInConcat(a: seq<Rejection>, b: seq<Rejection>, c: string)
    ensures CountIn(a + b, c) == CountIn(a, c) + CountIn(b, c)
  {
    if b == [] {
      assert a + b == a;
    } else {
      assert (a + b)[..|a + b| - 1] == a + b[..|b| - 1];
      CountInConcat(a, b[..|b| - 1], c);
    }
  }

  lemma {:induction false} CountInNone(rs: seq<Rejection>, c: string)
    requires forall r | r in rs :: r.category != c
    ensures CountIn(rs, c) == 0
  {
    if rs != [] {
      CountInNone(rs[..|rs| - 1], c);
    }
  }

  function Shortfalls(trials: seq<Trial>): nat {
    if trials == [] then 0 else Shortfalls(trials[..|trials| - 1]) + |Shortfall(trials[|trials| - 1])|
  }

  lemma TrialCounts(t: Trial, category: string)
    requires !FromReports(category)
    ensures CountIn(InTrial(t), category) == if category == EvidenceReferenceFailure then |Shortfall(t)| else 0
  {
    NotFromReports(ReportsOf(t), category);
    CountInConcat(InReports(ReportsOf(t)), Shortfall(t), category);
    assert Shortfall(t) != [] ==> Shortfall(t)[..0] == [] && Shortfall(t)[0].category == EvidenceReferenceFailure;
  }

  lemma {:induction false} NotGivenCounts(trials: seq<Trial>, category: string)
    requires !FromReports(category)
    ensures CountIn(Flatten(PerTrial(trials)), category)
         == if category == EvidenceReferenceFailure then Shortfalls(trials) else 0
  {
    if trials != [] {
      var n := |trials| - 1;
      NotGivenCounts(trials[..n], category);
      NextTrial(trials, n);
      assert trials[..n + 1] == trials;
      TrialCounts(trials[n], category);
      CountInConcat(Flatten(PerTrial(trials[..n])), InTrial(trials[n]), category);
    }
  }

  /** Every evidence-reference failure in the counts is a confirmed trial whose retest did not pass,
      and two of the listed categories are never counted at all. */
  lemma EvidenceFailuresAreShortfalls(trials: seq<Trial>)
    ensures var all := Flatten(PerTrial(trials));
      && CountIn(all, "evidence_reference_failure") == Shortfalls(trials)
      && CountIn(all, "json_schema_failure") == CountIn(all, "invalid_principal_object_direction") == 0
  {
    NotGiven();
    NotGivenCounts(trials, EvidenceReferenceFailure);
    NotGivenCounts(trials, JsonSchemaFailure);
    NotGivenCounts(trials, InvalidPrincipalObjectDirection);
  }
}
