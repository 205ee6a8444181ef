/** The usage figures a provider call reports, the three-valued verdict of a check, and the fold
    that adds the token figures of several calls without ever turning "unknown" into zero. */
module ProviderUsage {
  import opened Wrappers

  /** A reported figure as the JSON evidence carries it: a plain integer, a boolean (which the
      scripts take care not to count as an integer), the text UNKNOWN, no such key, or any other
      value. */
  datatype Reported = Num(n: int) | Flag(b: bool) | Unknown | Absent | Junk

  /** The combined figure: an exact sum, or one of the two markers. */
  datatype Total = Known(sum: int) | UnknownTotal | NotEvaluated

  /** The value of one verdict check. A verdict passes only if every check `Holds`. */
  datatype Check = Holds | Fails | CheckUnknown | NotChecked

  function Bool(b: bool): Check {
    if b then Holds else Fails
  }

  /** NotEvaluated absorbs everything, UnknownTotal absorbs sums, sums add. */
  function Join(a: Total, b: Total): Total {
    if a.NotEvaluated? || b.NotEvaluated? then NotEvaluated
    else if a.UnknownTotal? || b.UnknownTotal? then UnknownTotal
    else Known(a.sum + b.sum)
  }

  function Figure(r: Reported): int {
    if r.Num? then r.n else 0
  }

  function Sum(rs: seq<Reported>): int {
    if rs == [] then 0 else Figure(rs[0]) + Sum(rs[1..])
  }

  predicate Tracked(r: Reported) {
    r.Num? || r.Unknown?
  }

  /** What the combined figure of `rs` means, whatever order the calls are visited in. */
  function TotalOf(rs: seq<Reported>): Total {
    if exists r | r in rs :: !Tracked(r) then NotEvaluated
    else if Unknown in rs then UnknownTotal
    else Known(Sum(rs))
  }

  lemma KnownTotal(rs: seq<Reported>)
    requires forall r | r in rs :: r.Num?
    ensures TotalOf(rs) == Known(Sum(rs))
  {
    assert forall r | r in rs :: Tracked(r);
  }

  /** The accumulation loop of the campaign scripts, with its early return. */
  method CombinedTokens(results: seq<Reported>) returns (total: Total)
    ensures total == TotalOf(results)
  {
    var sum := 0;
    var sawUnknown := false;
    for i := 0 to |results|
      invariant forall r | r in results[..i] :: Tracked(r)
      invariant sawUnknown <==> Unknown in results[..i]
      invariant sum == Sum(results[..i])
    {
      assert results[..i + 1] == results[..i] + [results[i]];
      SumOfConcat(results[..i], [results[i]]);
      match results[i] {
        case Num(n) => sum := sum + n;
        case Unknown => sawUnknown := true;
        case _ =>
          assert results[i] in results;
          return NotEvaluated;
      }
    }
    assert results[..|results|] == results;
    if sawUnknown {
      return UnknownTotal;
    }
    return Known(sum);
  }

  lemma {:induction false} SumOfConcat(a: seq<Reported>, b: seq<Reported>)
    ensures Sum(a + b) == Sum(a) + Sum(b)
  {
    if a == [] {
      assert a + b == b;
    } else {
      assert (a + b)[1..] == a[1..] + b;
      SumOfConcat(a[1..], b);
    }
  }

  /** The fold distributes over concatenation, in spite of the early return. */
  lemma TotalOfConcat(a: seq<Reported>, b: seq<Reported>)
    ensures TotalOf(a + b) == Join(TotalOf(a), TotalOf(b))
  {
    SumOfConcat(a, b);
    assert forall r :: r in a + b <==> r in a || r in b;
  }

  /** `Join` is a commutative monoid with unit `Known(0)`, so totals of totals need no order. */
  lemma JoinLaws(a: Total, b: Total, c: Total)
    ensures Join(Join(a, b), c) == Join(a, Join(b, c))
    ensures Join(a, b) == Join(b, a)
    ensures Join(a, TotalOf([])) == a
  {
    assert TotalOf([]) == Known(0);
  }

  lemma {:induction false} SumWithout(rs: seq<Reported>, k: nat)
    requires k < |rs|
    ensures Sum(rs) == Figure(rs[k]) + Sum(Without(rs, k))
  {
    var tail := rs[k + 1..];
    assert rs == rs[..k] + ([rs[k]] + tail);
    SumOfConcat(rs[..k], [rs[k]] + tail);
    assert ([rs[k]] + tail)[1..] == tail;
    SumOfConcat(rs[..k], tail);
    assert [rs[k]][1..] == [];
  }

  lemma {:induction false} SumIsOrderFree(a: seq<Reported>, b: seq<Reported>)
    requires multiset(a) == multiset(b)
    ensures Sum(a) == Sum(b)
    decreases |a|
  {
    if a == [] {
      assert |multiset(b)| == 0;
    } else {
      var k := PermutationStep(a, b);
      SumIsOrderFree(a[1..], Without(b, k));
      SumWithout(b, k);
    }
  }

  lemma TotalIsOrderFree(a: seq<Reported>, b: seq<Reported>)
    requires multiset(a) == multiset(b)
    ensures TotalOf(a) == TotalOf(b)
  {
    SumIsOrderFree(a, b);
    forall r ensures r in a <==> r in b {
      assert r in a <==> r in multiset(a);
      assert r in b <==> r in multiset(b);
    }
  }

  /** `int(provider_calls)`, with 0 for a missing key; None where the conversion raises. */
  function CallCount(r: Reported): Option<int> {
    match r
    case Num(n) => Some(n)
    case Flag(b) => Some(if b then 1 else 0)
    case Absent => Some(0)
    case _ => None
  }

  /** The total of the reported calls; None where one of them raises. */
  function CallTotal(rs: seq<Reported>): Option<int> {
    if rs == [] then Some(0)
    else
      match (CallCount(rs[0]), CallTotal(rs[1..]))
      case (Some(a), Some(b)) => Some(a + b)
      case _ => None
  }

  /** The call total distributes over concatenation. */
  lemma {:induction false} CallTotalOfConcat(a: seq<Reported>, b: seq<Reported>)
    ensures CallTotal(a + b)
         == if CallTotal(a).Some? && CallTotal(b).Some? then Some(CallTotal(a).value + CallTotal(b).value) else None
  {
    if a == [] {
      assert a + b == b;
    } else {
      assert (a + b)[1..] == a[1..] + b;
      CallTotalOfConcat(a[1..], b);
    }
  }

  /** The ceiling check of the verdicts: compare an exact sum, pass a marker through. */
  function WithinCeiling(rs: seq<Reported>, ceiling: int): Check {
    if rs == [] then NotChecked
    else
      match TotalOf(rs)
      case Known(sum) => Bool(sum <= ceiling)
      case UnknownTotal => CheckUnknown
      case NotEvaluated => NotChecked
  }

  /** The check holds exactly when some call ran, every usage is an exact integer and the sum
      fits: an unknown usage can never be read as "within the ceiling". */
  lemma WithinCeilingHoldsIff(rs: seq<Reported>, ceiling: int)
    ensures WithinCeiling(rs, ceiling).Holds?
       <==> rs != [] && (forall r | r in rs :: r.Num?) && Sum(rs) <= ceiling
  {
    if rs != [] && forall r | r in rs :: r.Num? {
      assert forall r | r in rs :: Tracked(r);
    } else if rs != [] {
      var r :| r in rs && !r.Num?;
      assert !Tracked(r) || r == Unknown;
    }
  }

  /** The other three answers: failed on an exact sum that does not fit, UNKNOWN on integers and UNKNOWN
      alone, and unchecked without calls or with a figure that is neither. */
  lemma WithinCeilingElse(rs: seq<Reported>, ceiling: int)
    ensures var c := WithinCeiling(rs, ceiling);
      && (c.Fails? <==> rs != [] && (forall r | r in rs :: r.Num?) && Sum(rs) > ceiling)
      && (c.CheckUnknown? <==> Unknown in rs && forall r | r in rs :: r.Num? || r.Unknown?)
      && (c.NotChecked? <==> rs == [] || exists r | r in rs :: !r.Num? && !r.Unknown?)
  {
    if rs != [] && forall r | r in rs :: r.Num? || r.Unknown? {
      assert forall r | r in rs :: Tracked(r);
      if Unknown !in rs {
        assert forall r | r in rs :: r.Num?;
      }
    }
    if r :| r in rs && !r.Num? && !r.Unknown? {
      assert !Tracked(r);
    }
  }

  /** The call total raises exactly on UNKNOWN and on what is no number at all; otherwise it adds the
      integers, and one for every true. */
  lemma {:induction false} CallTotalMeans(rs: seq<Reported>)
    ensures CallTotal(rs).None? <==> Unknown in rs || Junk in rs
    ensures CallTotal(rs).Some? ==> CallTotal(rs).value == Sum(rs) + multiset(rs)[Flag(true)]
  {
    if rs != [] {
      CallTotalMeans(rs[1..]);
      assert rs == [rs[0]] + rs[1..];
    }
  }

  lemma {:induction false} SumOfEqual(ts: seq<Reported>, n: int)
    requires forall i | 0 <= i < |ts| :: ts[i] == Num(n)
    ensures Sum(ts) == |ts| * n
  {
    if ts != [] {
      SumOfEqual(ts[1..], n);
    }
  }

  lemma {:induction false} CallsOfOne(cs: seq<Reported>)
    requires forall i | 0 <= i < |cs| :: cs[i] == Num(1)
    ensures CallTotal(cs) == Some(|cs|)
  {
    if cs != [] {
      CallsOfOne(cs[1..]);
    }
  }
}
