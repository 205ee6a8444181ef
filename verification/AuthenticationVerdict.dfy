/** The worker-sufficiency part of the authentication verdict, over arbitrary evidence and over every
    run of the bounded login probe. */
module AuthenticationVerdict {
  import opened Wrappers
  import opened ProviderUsage
  import opened LoginProbe

  /** What the broker entry of an arm's record says. */
  datatype Broker = Broker(ceiling: int, effective: int, rendered: int, total: int, concurrency: int)

  datatype VerifierFacts = VerifierFacts(status: Option<string>, invalidNever: Option<bool>,
                                         positiveStatus: Option<int>)

  /** The evidence of an arm whose worker ran. */
  datatype Arm = Arm(broker: Broker, attempts: seq<Attempt>, captured: bool, facts: VerifierFacts)

  // ------------------------------------------------------------------ predicates on the evidence

  function Invalid(attempts: seq<Attempt>): seq<Attempt> {
    if attempts == [] then []
    else (if attempts[0].kind.InvalidAttempt? then [attempts[0]] else []) + Invalid(attempts[1..])
  }

  /** The first post-burst control. */
  function Post(attempts: seq<Attempt>): Option<Attempt> {
    if attempts == [] then None
    else if attempts[0].kind.PostControl? then Some(attempts[0])
    else Post(attempts[1..])
  }

  predicate WorkerExecuted(attempts: seq<Attempt>) {
    exists a | a in attempts :: a.kind.PositiveControl? && a.statusCode == 200
  }

  predicate InvalidNeverAuthenticated(attempts: seq<Attempt>) {
    forall a | a in attempts :: !(a.kind.InvalidAttempt? && a.authenticated)
  }

  predicate ExecutedSufficient(arm: Arm, s: int) {
    && WorkerExecuted(arm.attempts)
    && |Invalid(arm.attempts)| >= s && arm.broker.effective == s && |Invalid(arm.attempts)| == arm.broker.effective
    && Post(arm.attempts).Some?
  }

  predicate CrossedThreshold(arm: Arm, s: int) {
    |Invalid(arm.attempts)| >= s
  }

  predicate Throttles(a: Attempt) {
    a.lockedOut || a.statusCode == 429
  }

  predicate NoThrottle(attempts: seq<Attempt>) {
    && Invalid(attempts) != []
    && (forall a | a in Invalid(attempts) :: !a.lockedOut) && (forall a | a in Invalid(attempts) :: a.statusCode != 429)
    && Post(attempts).Some? && Post(attempts).value.statusCode == 200
  }

  predicate ThrottleOrLockout(attempts: seq<Attempt>) {
    && Invalid(attempts) != []
    && ((exists a | a in Invalid(attempts) :: Throttles(a))
        || (Post(attempts).Some? && Post(attempts).value.statusCode == 429))
  }

  predicate HintNotAuthoritative(arm: Arm, s: int) {
    arm.broker.effective == s && arm.broker.rendered == s
  }

  predicate BudgetEnforced(arm: Arm, s: int) {
    && arm.broker.total <= 12 && arm.broker.effective == s
    && arm.broker.total == s + 2 && arm.broker.concurrency == 1
  }

  predicate CeilingEnforced(arm: Arm) {
    arm.broker.total <= arm.broker.ceiling && arm.broker.total <= 12
  }

  // ------------------------------------------------------------------ the verdict

  datatype Checks = Checks(
    ceiling: Check, concurrency: Check, vulnerableExecuted: Check, patchedExecuted: Check,
    sufficient: Check, crossed: Check, noThrottle: Check, throttled: Check, hint: Check, budget: Check,
    adjudicated: Check, notSubstituted: Check, invalidNever: Check, positiveUsable: Check,
    confirmed: Check, passed: Check, revoked: Check,
    others: seq<Check>)
  {
    predicate AllHold() {
      && ceiling.Holds? && concurrency.Holds? && vulnerableExecuted.Holds? && patchedExecuted.Holds?
      && sufficient.Holds? && crossed.Holds? && noThrottle.Holds? && throttled.Holds? && hint.Holds? && budget.Holds?
      && adjudicated.Holds? && notSubstituted.Holds? && invalidNever.Holds? && positiveUsable.Holds?
      && confirmed.Holds? && passed.Holds? && revoked.Holds?
      && (forall c | c in others :: c.Holds?)
    }
  }

  /** The checks over two arms' evidence; an arm that did not reach its worker is not evaluated.
      `others` are the verdict's checks over evidence the worker does not produce. */
  function ChecksOf(v: Option<Arm>, p: Option<Arm>, s: int, others: seq<Check>): Checks {
    if v.None? || p.None? then
      var n := NotChecked;
      Checks(n, n, if v.Some? then Bool(WorkerExecuted(v.value.attempts)) else n,
             if p.Some? then Bool(WorkerExecuted(p.value.attempts)) else n,
             n, n, n, n, n, n, n, n, n, n, n, n, n, others)
    else
      var (v, p) := (v.value, p.value);
      var adjudicated := v.facts.status.Some? && p.facts.status.Some?;
      var verifierClean := v.facts.invalidNever != Some(false) && p.facts.invalidNever != Some(false);
      Checks(
        ceiling := Bool(CeilingEnforced(v) && CeilingEnforced(p)),
        concurrency := Bool(v.broker.concurrency == 1 && p.broker.concurrency == 1),
        vulnerableExecuted := Bool(WorkerExecuted(v.attempts)),
        patchedExecuted := Bool(WorkerExecuted(p.attempts)),
        sufficient := Bool(ExecutedSufficient(v, s) && ExecutedSufficient(p, s)),
        crossed := Bool(CrossedThreshold(v, s) && CrossedThreshold(p, s)),
        noThrottle := Bool(NoThrottle(v.attempts)),
        throttled := Bool(ThrottleOrLockout(p.attempts)),
        hint := Bool(HintNotAuthoritative(v, s) && HintNotAuthoritative(p, s)),
        budget := Bool(BudgetEnforced(v, s) && BudgetEnforced(p, s)),
        adjudicated := if !adjudicated then NotChecked else
          Bool({v.facts.status.value, p.facts.status.value} <= {"CONFIRMED", "PASS"} && verifierClean),
        notSubstituted := Bool(ExecutedSufficient(v, s) && CrossedThreshold(v, s) && ExecutedSufficient(p, s)
                               && CrossedThreshold(p, s)),
        invalidNever := Bool(InvalidNeverAuthenticated(v.attempts) && InvalidNeverAuthenticated(p.attempts)
                             && verifierClean),
        positiveUsable := if v.facts.positiveStatus.None? || p.facts.positiveStatus.None? then NotChecked else
          Bool(v.facts.positiveStatus == Some(200) && p.facts.positiveStatus == Some(200)),
        confirmed := if v.facts.status.None? then NotChecked else Bool(v.facts.status == Some("CONFIRMED")),
        passed := if p.facts.status.None? then NotChecked else Bool(p.facts.status == Some("PASS")),
        revoked := Bool(v.captured && p.captured),
        others := others)
  }

  predicate Passes(v: Option<Arm>, p: Option<Arm>, s: int, others: seq<Check>) {
    ChecksOf(v, p, s, others).AllHold()
  }

  predicate CleanFacts(f: VerifierFacts, status: string) {
    f.status == Some(status) && f.invalidNever != Some(false) && f.positiveStatus == Some(200)
  }

  /** What the verdict asks of an arm, apart from its throttling. */
  predicate ArmGood(arm: Arm, s: int, status: string) {
    && ExecutedSufficient(arm, s) && HintNotAuthoritative(arm, s) && BudgetEnforced(arm, s) && CeilingEnforced(arm)
    && InvalidNeverAuthenticated(arm.attempts) && arm.captured && CleanFacts(arm.facts, status)
  }

  /** The verdict, arm by arm. */
  lemma PassesIffArmsGood(v: Arm, p: Arm, s: int, others: seq<Check>)
    ensures Passes(Some(v), Some(p), s, others) <==>
      && ArmGood(v, s, "CONFIRMED") && NoThrottle(v.attempts)
      && ArmGood(p, s, "PASS") && ThrottleOrLockout(p.attempts)
      && (forall c | c in others :: c.Holds?)
  {
  }

  // ------------------------------------------------------------------ what a passing verdict means

  /** No evidence is both unthrottled and throttled, so the two arms' evidence must differ. */
  lemma NoEvidenceIsBoth(attempts: seq<Attempt>)
    ensures !(NoThrottle(attempts) && ThrottleOrLockout(attempts))
  {
    if ThrottleOrLockout(attempts) && exists a | a in Invalid(attempts) :: Throttles(a) {
      var a :| a in Invalid(attempts) && Throttles(a);
      assert a.lockedOut || a.statusCode == 429;
    }
  }

  /** It may be neither: exactly if there is no burst, or an unthrottled one whose post-burst control
      is missing or answered with a status other than 200 and 429. */
  lemma EvidenceIsNeitherIff(attempts: seq<Attempt>)
    ensures !NoThrottle(attempts) && !ThrottleOrLockout(attempts)
       <==> Invalid(attempts) == []
            || ((forall a | a in Invalid(attempts) :: !Throttles(a))
                && (Post(attempts).None? || Post(attempts).value.statusCode !in {200, 429}))
  {
    assert (forall a | a in Invalid(attempts) :: !Throttles(a))
      <==> (forall a | a in Invalid(attempts) :: !a.lockedOut)
           && (forall a | a in Invalid(attempts) :: a.statusCode != 429);
  }

  lemma {:induction false} InvalidAreListed(attempts: seq<Attempt>)
    ensures forall a | a in Invalid(attempts) :: a in attempts && a.kind.InvalidAttempt?
  {
    if attempts != [] {
      InvalidAreListed(attempts[1..]);
    }
  }

  /** A passing verdict, for any evidence and any sufficient length: the length is between 1 and 10,
      both workers made exactly that many invalid attempts, none of which authenticated, inside a
      budget of two more at concurrency one, and the two arms' evidence differs. */
  lemma PassingEvidence(v: Option<Arm>, p: Option<Arm>, s: int, others: seq<Check>)
    requires Passes(v, p, s, others)
    ensures v.Some? && p.Some? && 1 <= s <= 10
    ensures forall arm | arm in {v.value, p.value} ::
      && |Invalid(arm.attempts)| == s && (forall a | a in Invalid(arm.attempts) :: !a.authenticated)
      && arm.broker.total == s + 2 && arm.broker.concurrency == 1 && WorkerExecuted(arm.attempts)
    ensures v.value.attempts != p.value.attempts
    ensures v.value.facts.status == Some("CONFIRMED") && p.value.facts.status == Some("PASS")
  {
    InvalidAreListed(v.value.attempts);
    InvalidAreListed(p.value.attempts);
    NoEvidenceIsBoth(v.value.attempts);
  }

  // ------------------------------------------------------------------ order is not checked

  predicate OnePost(attempts: seq<Attempt>) {
    forall i, j | 0 <= i < j < |attempts| :: !(attempts[i].kind.PostControl? && attempts[j].kind.PostControl?)
  }

  lemma {:induction false} InvalidMultiset(attempts: seq<Attempt>, a: Attempt)
    ensures multiset(Invalid(attempts))[a] == if a.kind.InvalidAttempt? then multiset(attempts)[a] else 0
  {
    if attempts != [] {
      assert attempts == [attempts[0]] + attempts[1..];
      InvalidMultiset(attempts[1..], a);
    }
  }

  lemma {:induction false} PostIsListed(attempts: seq<Attempt>)
    ensures Post(attempts).Some? ==> Post(attempts).value in attempts && Post(attempts).value.kind.PostControl?
    ensures Post(attempts).None? ==> forall a | a in attempts :: !a.kind.PostControl?
  {
    if attempts != [] {
      PostIsListed(attempts[1..]);
    }
  }

  lemma SamePost(a: seq<Attempt>, b: seq<Attempt>)
    requires multiset(a) == multiset(b) && OnePost(a)
    ensures Post(a) == Post(b)
  {
    PostIsListed(a);
    PostIsListed(b);
    assert forall x :: x in a <==> x in multiset(a);
    assert forall x :: x in b <==> x in multiset(b);
  }

  /** Nothing in the worker checks looks at the order of the attempts, except for which post-burst
      control comes first: both arms' evidence may be shuffled, the control moved before the burst, and
      passes as before. Where there is one control it cannot but come first. */
  lemma OrderIsNotChecked(v: Arm, p: Arm, s: int, others: seq<Check>, shuffledV: seq<Attempt>, shuffledP: seq<Attempt>)
    requires multiset(v.attempts) == multiset(shuffledV) && (OnePost(v.attempts) || Post(v.attempts) == Post(shuffledV))
    requires multiset(p.attempts) == multiset(shuffledP) && (OnePost(p.attempts) || Post(p.attempts) == Post(shuffledP))
    ensures Passes(Some(v.(attempts := shuffledV)), Some(p.(attempts := shuffledP)), s, others)
         == Passes(Some(v), Some(p), s, others)
  {
    var w, q := v.(attempts := shuffledV), p.(attempts := shuffledP);
    PassesIffArmsGood(v, p, s, others);
    PassesIffArmsGood(w, q, s, others);
    SameEvidence(v.attempts, shuffledV);
    SameEvidence(p.attempts, shuffledP);
    SameArm(v, shuffledV, s, "CONFIRMED");
    SameArm(p, shuffledP, s, "PASS");
  }

  lemma SameArm(arm: Arm, shuffled: seq<Attempt>, s: int, status: string)
    requires |Invalid(arm.attempts)| == |Invalid(shuffled)| && Post(arm.attempts) == Post(shuffled)
    requires WorkerExecuted(arm.attempts) == WorkerExecuted(shuffled)
    requires InvalidNeverAuthenticated(arm.attempts) == InvalidNeverAuthenticated(shuffled)
    ensures ArmGood(arm.(attempts := shuffled), s, status) == ArmGood(arm, s, status)
  {
  }

  lemma SameInvalid(a: seq<Attempt>, b: seq<Attempt>)
    requires multiset(a) == multiset(b)
    ensures multiset(Invalid(a)) == multiset(Invalid(b))
  {
    forall x: Attempt
      ensures multiset(Invalid(a))[x] == multiset(Invalid(b))[x]
    {
      InvalidMultiset(a, x);
      InvalidMultiset(b, x);
    }
  }

  lemma SameElements(a: seq<Attempt>, b: seq<Attempt>)
    requires multiset(a) == multiset(b)
    ensures |a| == |b| && forall x :: x in a <==> x in b
  {
    assert |multiset(a)| == |a| && |multiset(b)| == |b|;
    assert forall x :: x in a <==> x in multiset(a);
    assert forall x :: x in b <==> x in multiset(b);
  }

  lemma SameEvidence(a: seq<Attempt>, b: seq<Attempt>)
    requires multiset(a) == multiset(b) && (OnePost(a) || Post(a) == Post(b))
    ensures |Invalid(a)| == |Invalid(b)| && Post(a) == Post(b)
    ensures WorkerExecuted(a) == WorkerExecuted(b) && InvalidNeverAuthenticated(a) == InvalidNeverAuthenticated(b)
    ensures NoThrottle(a) == NoThrottle(b) && ThrottleOrLockout(a) == ThrottleOrLockout(b)
  {
    if OnePost(a) {
      SamePost(a, b);
    }
    SameElements(a, b);
    SameInvalid(a, b);
    SameElements(Invalid(a), Invalid(b));
  }

  // ------------------------------------------------------------------ what the verdict and its checks say

  /** Attempt `i` is the first post-burst control. */
  predicate FirstPost(attempts: seq<Attempt>, i: nat) {
    i < |attempts| && attempts[i].kind.PostControl? && forall k | 0 <= k < i :: !attempts[k].kind.PostControl?
  }

  predicate PostAnswered(attempts: seq<Attempt>, statusCode: int) {
    exists i | 0 <= i < |attempts| :: FirstPost(attempts, i) && attempts[i].statusCode == statusCode
  }

  lemma {:induction false} PostIsFirst(attempts: seq<Attempt>)
    ensures Post(attempts).Some? ==>
      exists i | 0 <= i < |attempts| :: FirstPost(attempts, i) && attempts[i] == Post(attempts).value
  {
    if attempts != [] && !attempts[0].kind.PostControl? {
      PostIsFirst(attempts[1..]);
      if Post(attempts).Some? {
        var i :| 0 <= i < |attempts[1..]| && FirstPost(attempts[1..], i) && attempts[1..][i] == Post(attempts).value;
        assert forall k | 1 <= k < i + 1 :: attempts[k] == attempts[1..][k - 1];
        assert FirstPost(attempts, i + 1);
      }
    } else if attempts != [] {
      assert FirstPost(attempts, 0);
    }
  }

  lemma PostAnsweredIff(attempts: seq<Attempt>, statusCode: int)
    ensures PostAnswered(attempts, statusCode)
       <==> Post(attempts).Some? && Post(attempts).value.statusCode == statusCode
  {
    PostIsFirst(attempts);
    PostIsListed(attempts);
    if Post(attempts).Some? {
      var i :| 0 <= i < |attempts| && FirstPost(attempts, i) && attempts[i] == Post(attempts).value;
      assert forall k | 0 <= k < |attempts| && FirstPost(attempts, k) :: k == i;
    } else if i :| 0 <= i < |attempts| && FirstPost(attempts, i) {
      assert attempts[i] in attempts;
    }
  }

  lemma ListedAreInvalid(attempts: seq<Attempt>)
    ensures forall a :: a in Invalid(attempts) <==> a in attempts && a.kind.InvalidAttempt?
  {
    InvalidAreListed(attempts);
    forall a | a in attempts && a.kind.InvalidAttempt?
      ensures a in Invalid(attempts)
    {
      InvalidMultiset(attempts, a);
      assert a in multiset(attempts);
      assert a in multiset(Invalid(attempts));
    }
  }

  /** The control logged in, exactly `s` invalid attempts and a post-burst control followed. */
  predicate RanInFull(arm: Arm, s: int) {
    && (exists a | a in arm.attempts :: a.kind.PositiveControl? && a.statusCode == 200)
    && |Invalid(arm.attempts)| == s && arm.broker.effective == s
    && (exists a | a in arm.attempts :: a.kind.PostControl?)
  }

  predicate NoneLetIn(attempts: seq<Attempt>) {
    forall a | a in attempts :: a.kind.InvalidAttempt? ==> !a.authenticated
  }

  /** The burst was neither locked out nor answered 429, and the control after it logged in. */
  predicate Unthrottled(attempts: seq<Attempt>) {
    && (exists a | a in attempts :: a.kind.InvalidAttempt?)
    && (forall a | a in attempts :: a.kind.InvalidAttempt? ==> !a.lockedOut && a.statusCode != 429)
    && PostAnswered(attempts, 200)
  }

  /** Some attempt of the burst was locked out or answered 429, or the control after it was answered 429. */
  predicate Throttled(attempts: seq<Attempt>) {
    && (exists a | a in attempts :: a.kind.InvalidAttempt?)
    && ((exists a | a in attempts :: a.kind.InvalidAttempt? && (a.lockedOut || a.statusCode == 429))
        || PostAnswered(attempts, 429))
  }

  lemma ThrottlingIff(attempts: seq<Attempt>)
    ensures NoThrottle(attempts) <==> Unthrottled(attempts)
    ensures ThrottleOrLockout(attempts) <==> Throttled(attempts)
    ensures InvalidNeverAuthenticated(attempts) <==> NoneLetIn(attempts)
  {
    ListedAreInvalid(attempts);
    PostAnsweredIff(attempts, 200);
    PostAnsweredIff(attempts, 429);
    assert Invalid(attempts) != [] ==> Invalid(attempts)[0] in Invalid(attempts);
    assert forall a | a in Invalid(attempts) :: Throttles(a) <==> a.lockedOut || a.statusCode == 429;
  }

  lemma RanInFullIff(arm: Arm, s: int)
    ensures ExecutedSufficient(arm, s) <==> RanInFull(arm, s)
  {
    PostIsListed(arm.attempts);
  }

  /** What the verdict asks of one arm's evidence. */
  predicate SoundArm(arm: Arm, s: int, status: string) {
    && RanInFull(arm, s) && arm.broker.rendered == s
    && arm.broker.total == s + 2 && s + 2 <= 12 && s + 2 <= arm.broker.ceiling && arm.broker.concurrency == 1
    && NoneLetIn(arm.attempts) && arm.captured
    && arm.facts.status == Some(status) && arm.facts.invalidNever != Some(false)
    && arm.facts.positiveStatus == Some(200)
  }

  /** Any evidence passes, whatever wrote it, exactly if both arms are there and sound, the vulnerable one
      unthrottled and confirmed, the patched one throttled and passed, and every other check holds. */
  lemma EvidencePassesIff(v: Option<Arm>, p: Option<Arm>, s: int, others: seq<Check>)
    ensures Passes(v, p, s, others) <==>
      && v.Some? && SoundArm(v.value, s, "CONFIRMED") && Unthrottled(v.value.attempts)
      && p.Some? && SoundArm(p.value, s, "PASS") && Throttled(p.value.attempts)
      && (forall c | c in others :: c == Holds)
  {
    if v.Some? && p.Some? {
      PassesIffArmsGood(v.value, p.value, s, others);
      ThrottlingIff(v.value.attempts);
      ThrottlingIff(p.value.attempts);
      RanInFullIff(v.value, s);
      RanInFullIff(p.value, s);
    }
  }

  /** Without both arms' evidence nothing but the executions of the one that is there is checked. */
  lemma MissingArmsAreUnchecked(v: Option<Arm>, p: Option<Arm>, s: int, others: seq<Check>)
    requires v.None? || p.None?
    ensures var c, n := ChecksOf(v, p, s, others), NotChecked;
      && c.others == others
      && c.vulnerableExecuted == (if v.None? then n else
           Bool(exists a | a in v.value.attempts :: a.kind.PositiveControl? && a.statusCode == 200))
      && c.patchedExecuted == (if p.None? then n else
           Bool(exists a | a in p.value.attempts :: a.kind.PositiveControl? && a.statusCode == 200))
      && n == c.ceiling == c.concurrency == c.sufficient == c.crossed == c.noThrottle == c.throttled == c.hint
      && n == c.budget == c.adjudicated == c.notSubstituted == c.invalidNever == c.positiveUsable
      && n == c.confirmed == c.passed == c.revoked
  {
  }

  /** The checks over the brokers and the workers. */
  lemma WorkerChecksMean(v: Arm, p: Arm, s: int, others: seq<Check>)
    ensures var c, b, d := ChecksOf(Some(v), Some(p), s, others), v.broker, p.broker;
      && c.others == others
      && c.ceiling == Bool(b.total <= b.ceiling && b.total <= 12 && d.total <= d.ceiling && d.total <= 12)
      && c.concurrency == Bool(b.concurrency == d.concurrency == 1)
      && c.vulnerableExecuted == Bool(exists a | a in v.attempts :: a.kind.PositiveControl? && a.statusCode == 200)
      && c.patchedExecuted == Bool(exists a | a in p.attempts :: a.kind.PositiveControl? && a.statusCode == 200)
      && c.hint == Bool(b.effective == b.rendered == d.effective == d.rendered == s)
      && c.budget == Bool(&& b.total == s + 2 <= 12 && b.effective == s && b.concurrency == 1
                          && d.total == s + 2 <= 12 && d.effective == s && d.concurrency == 1)
      && c.crossed == Bool(|Invalid(v.attempts)| >= s && |Invalid(p.attempts)| >= s)
      && c.sufficient == c.notSubstituted == Bool(RanInFull(v, s) && RanInFull(p, s))
      && c.revoked == Bool(v.captured && p.captured)
  {
    RanInFullIff(v, s);
    RanInFullIff(p, s);
  }

  /** The checks over the burst and over what the verifiers said. */
  lemma VerifierChecksMean(v: Arm, p: Arm, s: int, others: seq<Check>)
    ensures var c, f, g := ChecksOf(Some(v), Some(p), s, others), v.facts, p.facts;
      var clean := f.invalidNever != Some(false) && g.invalidNever != Some(false);
      && c.noThrottle == Bool(Unthrottled(v.attempts)) && c.throttled == Bool(Throttled(p.attempts))
      && c.invalidNever == Bool(NoneLetIn(v.attempts) && NoneLetIn(p.attempts) && clean)
      && c.confirmed == (if f.status.None? then NotChecked else Bool(f.status.value == "CONFIRMED"))
      && c.passed == (if g.status.None? then NotChecked else Bool(g.status.value == "PASS"))
      && c.positiveUsable == (if f.positiveStatus.None? || g.positiveStatus.None? then NotChecked else
           Bool(f.positiveStatus.value == g.positiveStatus.value == 200))
      && c.adjudicated == (if f.status.None? || g.status.None? then NotChecked else
           Bool(&& (f.status.value == "CONFIRMED" || f.status.value == "PASS")
                && (g.status.value == "CONFIRMED" || g.status.value == "PASS") && clean))
  {
    ThrottlingIff(v.attempts);
    ThrottlingIff(p.attempts);
  }

  // ------------------------------------------------------------------ every run of the probe

  function BrokerOf(x: Rendering): Broker {
    Broker(AttemptCeiling, x.effective, x.rendered, x.total, x.concurrency)
  }

  function AnswersTo(kinds: seq<Kind>, replies: nat -> Reply): (answers: seq<Reply>)
    ensures |answers| == |kinds| && forall i | 0 <= i < |answers| :: answers[i] == replies(i)
  {
    seq(|kinds|, i requires 0 <= i => replies(i))
  }

  /** The evidence of a rendered sequence that was run against the given answers of the target. */
  function AnsweredArm(x: Rendering, replies: nat -> Reply, facts: VerifierFacts): Arm {
    Arm(BrokerOf(x), Facts(x.attempts, AnswersTo(x.attempts, replies)), Captures(PositiveControl, replies(0)), facts)
  }

  /** The evidence of an arm: None if the broker rejected the plan. `target` is None if the worker's
      output does not parse, which leaves an arm without attempts. */
  function ArmOf(hint: int, profile: Profile, candidates: nat, target: Option<nat -> Reply>,
                 facts: VerifierFacts): Option<Arm> {
    match Render(hint, profile, candidates)
    case Err(_) => None
    case Ok(x) => Some(if target.Some? then AnsweredArm(x, target.value, facts) else Arm(BrokerOf(x), [], false, facts))
  }

  /** Render, run the worker and file its evidence. */
  method ProbeArm(hint: int, profile: Profile, candidates: nat, target: Option<nat -> Reply>, facts: VerifierFacts)
      returns (arm: Option<Arm>)
    ensures arm == ArmOf(hint, profile, candidates, target, facts)
  {
    var r := Render(hint, profile, candidates);
    if r.Err? {
      return None;
    }
    var x := r.value;
    if target.None? {
      return Some(Arm(BrokerOf(x), [], false, facts));
    }
    var answers := AnswersTo(x.attempts, target.value);
    var output := RunAttempts(x.attempts, answers);
    assert x.attempts[0].PositiveControl? && forall i | 1 <= i < |x.attempts| :: !x.attempts[i].PositiveControl?;
    assert output.captured == Captures(PositiveControl, target.value(0));
    return Some(Arm(BrokerOf(x), output.attempts, output.captured, facts));
  }

  /** What an arm's evidence is: nothing if the broker rejected the plan, no attempts and no session if the
      worker's output does not parse, and otherwise one attempt per rendered one, under the ceiling of 12. */
  lemma ArmEntries(hint: int, profile: Profile, candidates: nat, target: Option<nat -> Reply>, facts: VerifierFacts)
    ensures var arm, x := ArmOf(hint, profile, candidates, target, facts), Render(hint, profile, candidates);
      && (arm.None? <==> x.Err?)
      && (arm.Some? ==>
            && arm.value.facts == facts && arm.value.broker.ceiling == 12
            && arm.value.broker.rendered == arm.value.broker.effective == x.value.rendered
            && arm.value.broker.total == |x.value.attempts| && arm.value.broker.concurrency == 1
            && (target.None? ==> arm.value.attempts == [] && !arm.value.captured)
            && (target.Some? ==> |arm.value.attempts| == |x.value.attempts|
                                 && (arm.value.captured <==> Captures(PositiveControl, target.value(0)))))
  {
  }

  /** The sequence really run, attempt by attempt. */
  lemma RunShape(hint: int, profile: Profile, candidates: nat, replies: nat -> Reply, facts: VerifierFacts)
    requires Render(hint, profile, candidates).Ok?
    ensures var n := Render(hint, profile, candidates).value.rendered;
      var a := AnsweredArm(Render(hint, profile, candidates).value, replies, facts).attempts;
      && n >= 1 && |a| == n + 2
      && a[0] == Sanitize(PositiveControl, replies(0)) && a[n + 1] == Sanitize(PostControl, replies(n + 1))
      && (forall i | 1 <= i <= n :: a[i] == Sanitize(InvalidAttempt, replies(i)))
  {
  }

  lemma {:induction false} InvalidOfBurst(burst: seq<Attempt>, post: Attempt)
    requires forall i | 0 <= i < |burst| :: burst[i].kind.InvalidAttempt?
    requires post.kind.PostControl?
    ensures Invalid(burst + [post]) == burst && Post(burst + [post]) == Some(post)
  {
    if burst == [] {
      assert burst + [post] == [post] && [post][1..] == [];
    } else {
      assert (burst + [post])[1..] == burst[1..] + [post];
      InvalidOfBurst(burst[1..], post);
    }
  }

  lemma EvidenceOfRun(a: seq<Attempt>, n: nat)
    requires n >= 1 && |a| == n + 2 && a[0].kind.PositiveControl? && a[n + 1].kind.PostControl?
    requires forall i | 1 <= i <= n :: a[i].kind.InvalidAttempt?
    ensures Invalid(a) == a[1..n + 1] && Post(a) == Some(a[n + 1])
    ensures WorkerExecuted(a) <==> a[0].statusCode == 200
    ensures InvalidNeverAuthenticated(a) <==> forall i | 1 <= i <= n :: !a[i].authenticated
  {
    InvalidOfBurst(a[1..n + 1], a[n + 1]);
    assert a[1..] == a[1..n + 1] + [a[n + 1]];
    if WorkerExecuted(a) {
      var x :| x in a && x.kind.PositiveControl? && x.statusCode == 200;
    }
    assert forall x | x in a :: x.kind.InvalidAttempt? ==> exists i | 1 <= i <= n :: a[i] == x;
  }

  predicate Authenticates(r: Reply) {
    r.Reply? && r.statusCode == 200 && (r.token || r.accessToken)
  }

  predicate Status(r: Reply, statusCode: int) {
    r.Reply? && r.statusCode == statusCode
  }

  /** The target answered the positive control with a captured session, and no invalid attempt with
      one. */
  ghost predicate SoundTarget(replies: nat -> Reply, s: int) {
    && Captures(PositiveControl, replies(0))
    && forall i: nat | 1 <= i <= s :: !Authenticates(replies(i))
  }

  ghost predicate NeverThrottled(replies: nat -> Reply, s: nat) {
    (forall i: nat | 1 <= i <= s :: !Status(replies(i), 429)) && Status(replies(s + 1), 200)
  }

  ghost predicate OnceThrottled(replies: nat -> Reply, s: nat) {
    exists i: nat | 1 <= i <= s + 1 :: Status(replies(i), 429)
  }

  lemma ArmEvidence(hint: int, profile: Profile, candidates: nat, replies: nat -> Reply, facts: VerifierFacts)
    requires Render(hint, profile, candidates).Ok?
    ensures var n := Render(hint, profile, candidates).value.rendered;
      var a := AnsweredArm(Render(hint, profile, candidates).value, replies, facts).attempts;
      && n >= 1 && |Invalid(a)| == n && Post(a).Some?
      && (WorkerExecuted(a) <==> Status(replies(0), 200))
      && (InvalidNeverAuthenticated(a) <==> forall i: nat | 1 <= i <= n :: !Authenticates(replies(i)))
      && (NoThrottle(a) <==> NeverThrottled(replies, n))
      && (ThrottleOrLockout(a) <==> OnceThrottled(replies, n))
  {
    RunShape(hint, profile, candidates, replies, facts);
    var n: nat := Render(hint, profile, candidates).value.rendered;
    var a := AnsweredArm(Render(hint, profile, candidates).value, replies, facts).attempts;
    EvidenceOfRun(a, n);
    BurstThrottles(a, n, replies);
    assert forall i: nat | 1 <= i <= n :: a[i].authenticated <==> Authenticates(replies(i));
  }

  lemma BurstThrottles(a: seq<Attempt>, n: nat, replies: nat -> Reply)
    requires n >= 1 && |a| == n + 2 && Invalid(a) == a[1..n + 1] && Post(a) == Some(a[n + 1])
    requires a[n + 1] == Sanitize(PostControl, replies(n + 1))
    requires forall i | 1 <= i <= n :: a[i] == Sanitize(InvalidAttempt, replies(i))
    ensures NoThrottle(a) <==> NeverThrottled(replies, n)
    ensures ThrottleOrLockout(a) <==> OnceThrottled(replies, n)
  {
    assert forall i | 1 <= i <= n :: a[1..n + 1][i - 1] == a[i];
    assert forall i: nat | 1 <= i <= n :: Throttles(a[i]) <==> Status(replies(i), 429);
    assert forall x | x in Invalid(a) :: exists i | 1 <= i <= n :: a[i] == x;
    assert forall i | 1 <= i <= n :: a[i] in Invalid(a);
  }

  /** What it takes for an arm that ran a rendered sequence. */
  lemma AnsweredArmGoodIff(hint: int, profile: Profile, candidates: nat, replies: nat -> Reply, facts: VerifierFacts,
                           s: nat, status: string)
    requires Render(hint, profile, candidates).Ok?
    ensures var x := Render(hint, profile, candidates).value;
      ArmGood(AnsweredArm(x, replies, facts), s, status)
      <==> x.rendered == s && SoundTarget(replies, s) && CleanFacts(facts, status)
  {
    ArmEvidence(hint, profile, candidates, replies, facts);
  }

  /** An arm without attempts passes nothing. */
  lemma EmptyArmNeverPasses(v: Option<Arm>, p: Option<Arm>, s: int, others: seq<Check>)
    requires v.None? || p.None? || v.value.attempts == [] || p.value.attempts == []
    ensures !Passes(v, p, s, others)
  {
  }

  /** The verdict over every run of the probe, exactly: whatever the model's hints are, it passes if
      and only if the profile's full sequence fits the ceilings and the candidate set, both workers'
      output parses, both targets behaved soundly, the vulnerable one never throttled, the patched one
      did, and the verifier and all other checks agree. */
  lemma RunPassesIff(hintV: int, hintP: int, profile: Profile, candidates: nat,
                     vulnerable: Option<nat -> Reply>, patched: Option<nat -> Reply>,
                     factsV: VerifierFacts, factsP: VerifierFacts, others: seq<Check>)
    ensures var s := profile.sufficient;
      Passes(ArmOf(hintV, profile, candidates, vulnerable, factsV),
             ArmOf(hintP, profile, candidates, patched, factsP), s, others) <==>
        && 1 <= s <= MaxInvalidAttempts && s <= candidates && s + 2 <= profile.maxAttempts
        && vulnerable.Some? && patched.Some?
        && SoundTarget(vulnerable.value, s) && SoundTarget(patched.value, s)
        && NeverThrottled(vulnerable.value, s) && OnceThrottled(patched.value, s)
        && CleanFacts(factsV, "CONFIRMED") && CleanFacts(factsP, "PASS")
        && (forall c | c in others :: c.Holds?)
  {
    RenderedWithinCeiling(hintV, profile, candidates);
    RenderedWithinCeiling(hintP, profile, candidates);
    var v := ArmOf(hintV, profile, candidates, vulnerable, factsV);
    var p := ArmOf(hintP, profile, candidates, patched, factsP);
    if v.None? || p.None? || vulnerable.None? || patched.None? || profile.sufficient < 1 {
      EmptyArmNeverPasses(v, p, profile.sufficient, others);
    } else {
      var s: nat := profile.sufficient;
      PassesIffArmsGood(v.value, p.value, s, others);
      AnsweredArmGoodIff(hintV, profile, candidates, vulnerable.value, factsV, s, "CONFIRMED");
      AnsweredArmGoodIff(hintP, profile, candidates, patched.value, factsP, s, "PASS");
      ArmEvidence(hintV, profile, candidates, vulnerable.value, factsV);
      ArmEvidence(hintP, profile, candidates, patched.value, factsP);
    }
  }

  /** The stop condition the worker does not act upon makes no difference to a run that passes. */
  lemma PassingRunNeverStops(hintV: int, hintP: int, profile: Profile, candidates: nat,
                             vulnerable: Option<nat -> Reply>, patched: Option<nat -> Reply>,
                             factsV: VerifierFacts, factsP: VerifierFacts, others: seq<Check>)
    requires Passes(ArmOf(hintV, profile, candidates, vulnerable, factsV),
                    ArmOf(hintP, profile, candidates, patched, factsP), profile.sufficient, others)
    ensures vulnerable.Some? && patched.Some? && Render(hintV, profile, candidates).Ok?
    ensures var kinds := Render(hintV, profile, candidates).value.attempts;
      && StoppingFacts(kinds, AnswersTo(kinds, vulnerable.value)) == Facts(kinds, AnswersTo(kinds, vulnerable.value))
      && StoppingFacts(kinds, AnswersTo(kinds, patched.value)) == Facts(kinds, AnswersTo(kinds, patched.value))
  {
    RunPassesIff(hintV, hintP, profile, candidates, vulnerable, patched, factsV, factsP, others);
    RenderedWithinCeiling(hintV, profile, candidates);
    var kinds := Render(hintV, profile, candidates).value.attempts;
    SoundRunNeverStops(kinds, vulnerable.value, profile.sufficient);
    SoundRunNeverStops(kinds, patched.value, profile.sufficient);
  }

  lemma SoundRunNeverStops(kinds: seq<Kind>, replies: nat -> Reply, s: nat)
    requires |kinds| == s + 2 && !kinds[0].InvalidAttempt? && SoundTarget(replies, s)
    ensures StoppingFacts(kinds, AnswersTo(kinds, replies)) == Facts(kinds, AnswersTo(kinds, replies))
  {
    StopConditionMattersIff(kinds, AnswersTo(kinds, replies));
    assert forall i: nat | 1 <= i <= s :: !Authenticates(replies(i));
  }

  // ------------------------------------------------------------------ a concrete run

  /** Answers 200 to the two controls and 401 to the burst; once locked, 429 from attempt `lock` on. */
  function LoginAnswer(lock: Option<nat>, i: nat): Reply {
    if lock.Some? && i >= lock.value then Reply(429, false, false)
    else if i == 0 || i == 7 then Reply(200, true, true)
    else Reply(401, false, false)
  }

  /** The registered profile of six invalid attempts passes, whatever the model's hints, against a target
      that never locks and one that locks at the last invalid attempt. */
  lemma ExamplePasses(hintV: int, hintP: int, candidates: nat, others: seq<Check>)
    requires candidates >= 6 && forall c | c in others :: c.Holds?
    ensures var profile := Profile(6, AttemptCeiling);
      Passes(ArmOf(hintV, profile, candidates, Some((i: nat) => LoginAnswer(None, i)),
                   VerifierFacts(Some("CONFIRMED"), Some(true), Some(200))),
             ArmOf(hintP, profile, candidates, Some((i: nat) => LoginAnswer(Some(6), i)),
                   VerifierFacts(Some("PASS"), Some(true), Some(200))),
             6, others)
  {
    var open := (i: nat) => LoginAnswer(None, i);
    var locked := (i: nat) => LoginAnswer(Some(6), i);
    assert SoundTarget(open, 6) && NeverThrottled(open, 6);
    assert Status(locked(6), 429);
    assert SoundTarget(locked, 6) && OnceThrottled(locked, 6);
    RunPassesIff(hintV, hintP, Profile(6, AttemptCeiling), candidates, Some(open), Some(locked),
                 VerifierFacts(Some("CONFIRMED"), Some(true), Some(200)),
                 VerifierFacts(Some("PASS"), Some(true), Some(200)),
                 others);
  }
}
