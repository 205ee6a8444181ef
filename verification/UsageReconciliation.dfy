/** The offline usage reconciliation: usage over several attempts, some of whose token usage is not
    known, and what may be concluded about the phase's token ceiling. */
module UsageReconciliation {
  import opened Wrappers
  import opened ProviderUsage

  datatype Attempt = Attempt(calls: int, tokens: Reported)

  datatype Aggregate = Aggregate(calls: int, knownTokens: int, unknownCalls: int)

  function CallsOf(attempts: seq<Attempt>): int {
    if attempts == [] then 0 else attempts[0].calls + CallsOf(attempts[1..])
  }

  /** The calls of the attempts whose usage is known, or of the others. */
  function CallsWhere(attempts: seq<Attempt>, known: bool): int {
    if attempts == [] then 0
    else (if attempts[0].tokens.Num? == known then attempts[0].calls else 0) + CallsWhere(attempts[1..], known)
  }

  function KnownTokens(attempts: seq<Attempt>): int {
    if attempts == [] then 0 else Figure(attempts[0].tokens) + KnownTokens(attempts[1..])
  }

  function AggregateOf(attempts: seq<Attempt>): Aggregate {
    Aggregate(CallsOf(attempts), KnownTokens(attempts), CallsWhere(attempts, false))
  }

  method AggregateUsage(attempts: seq<Attempt>) returns (a: Aggregate)
    ensures a == AggregateOf(attempts)
  {
    a := Aggregate(0, 0, 0);
    for i := 0 to |attempts|
      invariant a == AggregateOf(attempts[..i])
    {
      assert attempts[..i + 1] == attempts[..i] + [attempts[i]];
      AggregateOfConcat(attempts[..i], [attempts[i]]);
      assert [attempts[i]][1..] == [];
      var attempt := attempts[i];
      a := a.(calls := a.calls + attempt.calls);
      if attempt.tokens.Num? {
        a := a.(knownTokens := a.knownTokens + attempt.tokens.n);
      } else {
        a := a.(unknownCalls := a.unknownCalls + attempt.calls);
      }
    }
    assert attempts[..|attempts|] == attempts;
  }

  /** Aggregates of two groups of attempts add up. */
  lemma {:induction false} AggregateOfConcat(a: seq<Attempt>, b: seq<Attempt>)
    ensures var x, y, z := AggregateOf(a), AggregateOf(b), AggregateOf(a + b);
      z == Aggregate(x.calls + y.calls, x.knownTokens + y.knownTokens, x.unknownCalls + y.unknownCalls)
  {
    if a == [] {
      assert a + b == b;
    } else {
      assert (a + b)[1..] == a[1..] + b;
      AggregateOfConcat(a[1..], b);
    }
  }

  /** No call is lost: each is either one of known usage or counted as unknown. */
  lemma {:induction false} CallsAreConserved(attempts: seq<Attempt>)
    ensures AggregateOf(attempts).calls == CallsWhere(attempts, true) + AggregateOf(attempts).unknownCalls
  {
    if attempts != [] {
      CallsAreConserved(attempts[1..]);
    }
  }

  lemma AggregateWithout(attempts: seq<Attempt>, k: nat)
    requires k < |attempts|
    ensures AggregateOf(attempts) == AggregateOf([attempts[k]] + Without(attempts, k))
  {
    assert attempts == attempts[..k] + ([attempts[k]] + attempts[k + 1..]);
    AggregateOfConcat(attempts[..k], [attempts[k]] + attempts[k + 1..]);
    AggregateOfConcat([attempts[k]], attempts[k + 1..]);
    AggregateOfConcat(attempts[..k], attempts[k + 1..]);
    AggregateOfConcat([attempts[k]], Without(attempts, k));
  }

  /** Nothing depends on the order of the attempts. */
  lemma {:induction false} AggregateIsOrderFree(a: seq<Attempt>, b: seq<Attempt>)
    requires multiset(a) == multiset(b)
    ensures AggregateOf(a) == AggregateOf(b)
    decreases |a|
  {
    if a == [] {
      assert |multiset(b)| == 0;
    } else {
      var k := PermutationStep(a, b);
      AggregateIsOrderFree(a[1..], Without(b, k));
      AggregateWithout(b, k);
      AggregateOfConcat([a[0]], a[1..]);
      AggregateOfConcat([a[0]], Without(b, k));
      assert [a[0]] + a[1..] == a;
    }
  }

  /** The phase ceiling check. `bound` is an audited upper bound on the total, if one is supplied. */
  function WithinPhaseCeiling(attempts: seq<Attempt>, bound: Option<int>, maxTokens: int): Check {
    var a := AggregateOf(attempts);
    if a.unknownCalls == 0 then Bool(a.knownTokens <= maxTokens)
    else if bound.Some? then Bool(bound.value <= maxTokens)
    else CheckUnknown
  }

  // ------------------------------------------------------------------ what the check means

  function SumInts(xs: seq<int>): int {
    if xs == [] then 0 else xs[0] + SumInts(xs[1..])
  }

  /** What one attempt may really have used: its reported figure, nothing if it made no call, and
      any amount otherwise. */
  predicate Possible(attempt: Attempt, used: int) {
    if attempt.tokens.Num? then used == attempt.tokens.n
    else used >= 0 && (attempt.calls == 0 ==> used == 0)
  }

  /** A completion of the reports: what every attempt may really have used. */
  predicate Completes(attempts: seq<Attempt>, used: seq<int>) {
    |used| == |attempts| && forall i | 0 <= i < |used| :: Possible(attempts[i], used[i])
  }

  /** No call figure is below zero. */
  predicate CallsAreCounts(attempts: seq<Attempt>) {
    forall i | 0 <= i < |attempts| :: attempts[i].calls >= 0
  }

  /** Some attempt may really have used any amount: its usage is not known, and it made calls. */
  predicate Uncertain(attempts: seq<Attempt>) {
    exists i | 0 <= i < |attempts| :: !attempts[i].tokens.Num? && attempts[i].calls != 0
  }

  lemma UncertainTail(attempts: seq<Attempt>)
    requires attempts != []
    ensures Uncertain(attempts)
       <==> (!attempts[0].tokens.Num? && attempts[0].calls != 0) || Uncertain(attempts[1..])
  {
    if Uncertain(attempts[1..]) {
      var i :| 0 <= i < |attempts[1..]| && !attempts[1..][i].tokens.Num? && attempts[1..][i].calls != 0;
      assert !attempts[i + 1].tokens.Num? && attempts[i + 1].calls != 0;
    }
    if i :| 1 <= i < |attempts| && !attempts[i].tokens.Num? && attempts[i].calls != 0 {
      assert !attempts[1..][i - 1].tokens.Num? && attempts[1..][i - 1].calls != 0;
    }
  }

  lemma {:induction false} KnownIsLeast(attempts: seq<Attempt>, used: seq<int>)
    requires Completes(attempts, used)
    ensures SumInts(used) >= KnownTokens(attempts)
    ensures !Uncertain(attempts) ==> SumInts(used) == KnownTokens(attempts)
  {
    if attempts != [] {
      assert Possible(attempts[0], used[0]);
      assert forall i | 0 <= i < |used[1..]| :: used[1..][i] == used[i + 1] && attempts[1..][i] == attempts[i + 1];
      UncertainTail(attempts);
      KnownIsLeast(attempts[1..], used[1..]);
    }
  }

  /** A completion with `extra` tokens more than are known; there is one with nothing extra always,
      and one with any extra if some attempt is uncertain. */
  function CompletionWith(attempts: seq<Attempt>, extra: nat): seq<int> {
    if attempts == [] then []
    else if attempts[0].tokens.Num? then [attempts[0].tokens.n] + CompletionWith(attempts[1..], extra)
    else if attempts[0].calls != 0 then [extra] + CompletionWith(attempts[1..], 0)
    else [0] + CompletionWith(attempts[1..], extra)
  }

  lemma {:induction false} CompletionExists(attempts: seq<Attempt>, extra: nat)
    requires Uncertain(attempts) || extra == 0
    ensures Completes(attempts, CompletionWith(attempts, extra))
    ensures SumInts(CompletionWith(attempts, extra)) == KnownTokens(attempts) + extra
  {
    if attempts != [] {
      UncertainTail(attempts);
      var rest: nat := if !attempts[0].tokens.Num? && attempts[0].calls != 0 then 0 else extra;
      CompletionExists(attempts[1..], rest);
    }
  }

  ghost predicate EveryCompletionFits(attempts: seq<Attempt>, bound: Option<int>, maxTokens: int) {
    forall used | Completes(attempts, used) && (bound.Some? ==> SumInts(used) <= bound.value) ::
      SumInts(used) <= maxTokens
  }

  /** When every completion fits, for any figures: if there is none, because the bound is below what is
      known to have been used; if nothing is uncertain and the known usage fits; or if the bound fits. */
  lemma CompletionsFitIff(attempts: seq<Attempt>, bound: Option<int>, maxTokens: int)
    ensures EveryCompletionFits(attempts, bound, maxTokens) <==>
      || (bound.Some? && bound.value < KnownTokens(attempts))
      || (!Uncertain(attempts) && KnownTokens(attempts) <= maxTokens)
      || (bound.Some? && bound.value <= maxTokens)
  {
    var known := KnownTokens(attempts);
    if !(bound.Some? && bound.value < known) && !(bound.Some? && bound.value <= maxTokens)
       && (Uncertain(attempts) || known > maxTokens) {
      var extra: nat :=
        if !Uncertain(attempts) then 0
        else if bound.Some? then bound.value - known
        else if maxTokens >= known then maxTokens + 1 - known else 0;
      CompletionExists(attempts, extra);
      assert SumInts(CompletionWith(attempts, extra)) > maxTokens;
    } else {
      forall used | Completes(attempts, used) && (bound.Some? ==> SumInts(used) <= bound.value)
        ensures SumInts(used) <= maxTokens
      {
        KnownIsLeast(attempts, used);
      }
    }
  }

  /** A check that holds is sound exactly if nothing is uncertain, or the calls of unknown usage do not
      cancel out, or the bound fits. */
  lemma CheckIsSoundIff(attempts: seq<Attempt>, bound: Option<int>, maxTokens: int)
    requires WithinPhaseCeiling(attempts, bound, maxTokens).Holds?
    ensures EveryCompletionFits(attempts, bound, maxTokens)
       <==> !Uncertain(attempts) || AggregateOf(attempts).unknownCalls != 0 || (bound.Some? && bound.value <= maxTokens)
    ensures bound.None? ==> (EveryCompletionFits(attempts, bound, maxTokens) <==> !Uncertain(attempts))
  {
    CompletionsFitIff(attempts, bound, maxTokens);
    if !Uncertain(attempts) {
      CertainCallsAreKnown(attempts);
    }
  }

  lemma {:induction false} CertainCallsAreKnown(attempts: seq<Attempt>)
    requires !Uncertain(attempts)
    ensures CallsWhere(attempts, false) == 0
  {
    if attempts != [] {
      UncertainTail(attempts);
      CertainCallsAreKnown(attempts[1..]);
    }
  }

  /** With call figures that are counts, the calls of unknown usage cancel out only if there are none. */
  lemma {:induction false} CountsDoNotCancel(attempts: seq<Attempt>)
    requires CallsAreCounts(attempts)
    ensures CallsWhere(attempts, false) >= 0
    ensures Uncertain(attempts) <==> CallsWhere(attempts, false) != 0
  {
    if attempts != [] {
      UncertainTail(attempts);
      CountsDoNotCancel(attempts[1..]);
    }
  }

  /** The check holds exactly if every completion of the reports that respects the bound stays within
      the ceiling, for call figures that are counts and a bound not below the known usage. */
  lemma CheckHoldsIff(attempts: seq<Attempt>, bound: Option<int>, maxTokens: int)
    requires CallsAreCounts(attempts) && (bound.Some? ==> KnownTokens(attempts) <= bound.value)
    ensures WithinPhaseCeiling(attempts, bound, maxTokens).Holds? <==> EveryCompletionFits(attempts, bound, maxTokens)
  {
    CompletionsFitIff(attempts, bound, maxTokens);
    CountsDoNotCancel(attempts);
  }

  /** For any figures and any bound, check and meaning agree except in two situations: the bound is
      below the known usage and fails, or is not used and the known usage does not fit, while no
      completion respects it; or calls of unknown usage cancel out, the known usage fits, and no bound
      vouches for the rest. */
  lemma CheckAgreesIff(attempts: seq<Attempt>, bound: Option<int>, maxTokens: int)
    ensures var known, unknownCalls := KnownTokens(attempts), AggregateOf(attempts).unknownCalls;
      (WithinPhaseCeiling(attempts, bound, maxTokens).Holds? <==> EveryCompletionFits(attempts, bound, maxTokens)) <==>
        && !(bound.Some? && bound.value < known && (if unknownCalls == 0 then known else bound.value) > maxTokens)
        && !(Uncertain(attempts) && unknownCalls == 0 && known <= maxTokens
             && !(bound.Some? && bound.value <= maxTokens))
  {
    CompletionsFitIff(attempts, bound, maxTokens);
    if !Uncertain(attempts) {
      CertainCallsAreKnown(attempts);
    }
  }

  /** Soundness needs no assumption on the bound, only that it is one. */
  lemma CheckIsSound(attempts: seq<Attempt>, bound: Option<int>, maxTokens: int, used: seq<int>)
    requires CallsAreCounts(attempts) && WithinPhaseCeiling(attempts, bound, maxTokens).Holds?
    requires Completes(attempts, used) && (bound.Some? ==> SumInts(used) <= bound.value)
    ensures SumInts(used) <= maxTokens
  {
    KnownIsLeast(attempts, used);
    CountsDoNotCancel(attempts);
  }

  /** The result is UNKNOWN exactly if some call's usage is unknown, such calls do not cancel out, and
      no bound is supplied. With call figures that are counts they never cancel out: unknown usage is
      never taken for zero. */
  lemma UnknownIff(attempts: seq<Attempt>, bound: Option<int>, maxTokens: int)
    ensures WithinPhaseCeiling(attempts, bound, maxTokens).CheckUnknown?
       <==> bound.None? && Uncertain(attempts) && AggregateOf(attempts).unknownCalls != 0
    ensures CallsAreCounts(attempts) ==>
      (WithinPhaseCeiling(attempts, bound, maxTokens).CheckUnknown? <==> bound.None? && Uncertain(attempts))
  {
    if !Uncertain(attempts) {
      CertainCallsAreKnown(attempts);
    }
    if CallsAreCounts(attempts) {
      CountsDoNotCancel(attempts);
    }
  }

  /** Call figures below zero: unknown usage cancels out, and the check holds of attempts that may have
      used any amount. */
  lemma NegativeCallsHideUsage(maxTokens: nat)
    ensures var attempts := [Attempt(1, Unknown), Attempt(-1, Unknown)];
      && WithinPhaseCeiling(attempts, None, maxTokens).Holds?
      && Completes(attempts, [maxTokens + 1, 0]) && SumInts([maxTokens + 1, 0]) > maxTokens
  {
    var attempts := [Attempt(1, Unknown), Attempt(-1, Unknown)];
    assert attempts[1..] == [Attempt(-1, Unknown)] && attempts[1..][1..] == [];
    assert [maxTokens + 1, 0][1..] == [0] && [0][1..] == [];
  }

  /** A bound below the known usage is no bound: here no completion respects it, and the check fails. */
  lemma FalseBound(bound: nat)
    ensures var attempts := [Attempt(1, Num(bound + 1))];
      && !WithinPhaseCeiling(attempts, Some(bound), bound).Holds?
      && EveryCompletionFits(attempts, Some(bound), bound)
  {
    var attempts := [Attempt(1, Num(bound + 1))];
    assert attempts[1..] == [];
    assert KnownTokens(attempts) == Figure(attempts[0].tokens) + KnownTokens(attempts[1..]) == bound + 1;
    assert CallsWhere(attempts, false) == CallsWhere(attempts[1..], false) == 0;
    CompletionsFitIff(attempts, Some(bound), bound);
  }
}
