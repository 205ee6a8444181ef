/** The fail-closed campaign budget: a gate asked before every provider call and a tracker fed
    after it, with the bounds they give over whole runs. */
module CampaignBudget {
  import opened ProviderUsage

  datatype Usage = Usage(calls: Reported, tokens: Reported)

  datatype Gate = Allowed | CallCeiling | TokenCeiling

  /** The limits and counters as a value. */
  datatype Account = Account(maxCalls: int, maxTokens: int, ceiling: int, calls: int, tokens: int) {

    function CanStart(): Gate {
      if calls + 1 > maxCalls then CallCeiling
      else if tokens + ceiling > maxTokens then TokenCeiling
      else Allowed
    }

    /** Only plain integers are counted; a boolean or a marker leaves its counter alone. */
    function Record(u: Usage): Account {
      this.(calls := calls + Figure(u.calls), tokens := tokens + Figure(u.tokens))
    }
  }

  /** What the gate answers: no call left, less than the ceiling left, or allowed. */
  lemma GateMeans(a: Account)
    ensures a.CanStart().CallCeiling? <==> a.calls >= a.maxCalls
    ensures a.CanStart().TokenCeiling? <==> a.calls < a.maxCalls && a.maxTokens - a.tokens < a.ceiling
    ensures a.CanStart().Allowed? <==> a.calls < a.maxCalls && a.maxTokens - a.tokens >= a.ceiling
  {
  }

  function Opened(maxCalls: int, maxTokens: int, ceiling: int): Account {
    Account(maxCalls, maxTokens, ceiling, 0, 0)
  }

  class Budget {
    const maxCalls: int
    const maxTokens: int
    const perCallOutputCeiling: int
    var calls: int
    var tokens: int

    constructor (maxCalls: int, maxTokens: int, perCallOutputCeiling: int)
      ensures View() == Opened(maxCalls, maxTokens, perCallOutputCeiling)
    {
      this.maxCalls := maxCalls;
      this.maxTokens := maxTokens;
      this.perCallOutputCeiling := perCallOutputCeiling;
      this.calls := 0;
      this.tokens := 0;
    }

    function View(): Account
      reads this
    {
      Account(maxCalls, maxTokens, perCallOutputCeiling, calls, tokens)
    }

    method CanStart() returns (gate: Gate)
      ensures gate == View().CanStart()
    {
      if calls + 1 > maxCalls {
        return CallCeiling;
      }
      if tokens + perCallOutputCeiling > maxTokens {
        return TokenCeiling;
      }
      return Allowed;
    }

    method Record(callsReported: Reported, tokensReported: Reported)
      modifies this`calls, this`tokens
      ensures View() == old(View()).Record(Usage(callsReported, tokensReported))
    {
      if callsReported.Num? {
        calls := calls + callsReported.n;
      }
      if tokensReported.Num? {
        tokens := tokens + tokensReported.n;
      }
    }
  }

  // ---------------------------------------------------------------- whole runs

  function TokenFigures(us: seq<Usage>): int {
    if us == [] then 0 else Figure(us[0].tokens) + TokenFigures(us[1..])
  }

  function CallFigures(us: seq<Usage>): int {
    if us == [] then 0 else Figure(us[0].calls) + CallFigures(us[1..])
  }

  /** How many of the wanted calls a driver starts before the gate refuses one; the figures in
      `us` are what each call would report. */
  function Admitted(a: Account, us: seq<Usage>): (n: nat)
    ensures n <= |us|
    decreases |us|
  {
    if us == [] || !a.CanStart().Allowed? then 0
    else 1 + Admitted(a.Record(us[0]), us[1..])
  }

  /** The account after a gated run. */
  function Drive(a: Account, us: seq<Usage>): Account
    decreases |us|
  {
    if us == [] || !a.CanStart().Allowed? then a
    else Drive(a.Record(us[0]), us[1..])
  }

  /** The tracker is exact: it holds what it started with plus the figures of the admitted calls,
      and a run stops short only at a refusing gate. */
  lemma {:induction false} DriveIsExact(a: Account, us: seq<Usage>)
    ensures var n := Admitted(a, us);
      && Drive(a, us) == a.(calls := a.calls + CallFigures(us[..n]),
                            tokens := a.tokens + TokenFigures(us[..n]))
      && (n < |us| ==> !Drive(a, us).CanStart().Allowed?)
    decreases |us|
  {
    if us != [] && a.CanStart().Allowed? {
      var n := Admitted(a, us);
      DriveIsExact(a.Record(us[0]), us[1..]);
      assert us[..n][1..] == us[1..][..n - 1];
    }
  }

  /** Tokens at the end of any gated run: the ceiling reserved for the last call is replaced by
      what that call really used, so only the last call can overshoot. */
  lemma {:induction false} TokensBoundedByLastCall(a: Account, us: seq<Usage>)
    requires Admitted(a, us) > 0
    ensures Drive(a, us).tokens
         <= a.maxTokens - a.ceiling + Figure(us[Admitted(a, us) - 1].tokens)
    decreases |us|
  {
    var b := a.Record(us[0]);
    if Admitted(b, us[1..]) > 0 {
      TokensBoundedByLastCall(b, us[1..]);
    } else {
      assert Drive(a, us) == Drive(b, us[1..]) == b;
    }
  }

  /** If every admitted call stays within the reserved ceiling, no gated run passes the budget. */
  lemma TokensWithinBudget(a: Account, us: seq<Usage>)
    requires a.tokens <= a.maxTokens
    requires forall u | u in us :: Figure(u.tokens) <= a.ceiling
    ensures Drive(a, us).tokens <= a.maxTokens
  {
    if Admitted(a, us) > 0 {
      TokensBoundedByLastCall(a, us);
      assert us[Admitted(a, us) - 1] in us;
    } else {
      assert Drive(a, us) == a;
    }
  }

  lemma {:induction false} CallsWithinBudget(a: Account, us: seq<Usage>)
    requires a.calls <= a.maxCalls
    requires forall u | u in us :: Figure(u.calls) <= 1
    ensures Drive(a, us).calls <= a.maxCalls
    decreases |us|
  {
    if us != [] && a.CanStart().Allowed? {
      assert us[0] in us;
      CallsWithinBudget(a.Record(us[0]), us[1..]);
    }
  }

  /** No gated run whose last admitted call uses `u` tokens ends above the token budget. If `counted`,
      only runs are meant whose calls each report exactly one call. */
  ghost predicate NeverOvershootsWith(a: Account, u: int, counted: bool) {
    forall us: seq<Usage> ::
      Admitted(a, us) > 0 && Figure(us[Admitted(a, us) - 1].tokens) == u && (counted ==> AllCounted(us))
      ==> Drive(a, us).tokens <= a.maxTokens
  }

  predicate AllCounted(us: seq<Usage>) {
    forall v | v in us :: v.calls == Num(1)
  }

  /** The gate's promise ("no call is started that could breach the ceiling") holds for calls of usage
      `u` exactly if no call is ever started, or the whole usage of a call, input tokens included, fits
      into the reserved output ceiling. A call limit does not help: a call that does not report itself
      is not counted. */
  lemma GatePromiseHoldsIff(maxCalls: int, maxTokens: int, ceiling: int, u: int)
    ensures NeverOvershootsWith(Opened(maxCalls, maxTokens, ceiling), u, false)
       <==> maxCalls < 1 || ceiling > maxTokens || u <= ceiling
  {
    var a := Opened(maxCalls, maxTokens, ceiling);
    if maxCalls < 1 || ceiling > maxTokens || u <= ceiling {
      PromiseKept(a, u, false);
    } else {
      BreachingRun(maxCalls, maxTokens, ceiling, u, Absent);
    }
  }

  /** Where every call reports itself, a budget of one call need only fit that call into the whole token
      budget. */
  lemma CountedGatePromiseHoldsIff(maxCalls: int, maxTokens: int, ceiling: int, u: int)
    ensures NeverOvershootsWith(Opened(maxCalls, maxTokens, ceiling), u, true)
       <==> maxCalls < 1 || ceiling > maxTokens || u <= ceiling || (maxCalls == 1 && u <= maxTokens)
  {
    var a := Opened(maxCalls, maxTokens, ceiling);
    if maxCalls < 1 || ceiling > maxTokens || u <= ceiling {
      PromiseKept(a, u, true);
    } else if maxCalls == 1 {
      SingleCall(a, u);
    } else {
      BreachingRun(maxCalls, maxTokens, ceiling, u, Num(1));
      assert AllCounted([Usage(Num(1), Num(maxTokens - ceiling)), Usage(Num(1), Num(u))]);
    }
  }

  lemma PromiseKept(a: Account, u: int, counted: bool)
    requires !a.CanStart().Allowed? || u <= a.ceiling
    ensures NeverOvershootsWith(a, u, counted)
  {
    forall us: seq<Usage> | Admitted(a, us) > 0 && Figure(us[Admitted(a, us) - 1].tokens) == u
      ensures Drive(a, us).tokens <= a.maxTokens
    {
      TokensBoundedByLastCall(a, us);
    }
  }

  lemma SingleCall(a: Account, u: int)
    requires a.calls == 0 && a.maxCalls == 1 && a.tokens == 0 && a.CanStart().Allowed?
    ensures NeverOvershootsWith(a, u, true) <==> u <= a.maxTokens
  {
    forall us: seq<Usage> | Admitted(a, us) > 0 && AllCounted(us)
      ensures Admitted(a, us) == 1 && Drive(a, us).tokens == Figure(us[0].tokens)
    {
      assert us[0] in us;
      var b := a.Record(us[0]);
      assert !b.CanStart().Allowed?;
      assert Admitted(b, us[1..]) == 0 && Drive(b, us[1..]) == b;
    }
    var one := [Usage(Num(1), Num(u))];
    assert one[1..] == [] && AllCounted(one);
    assert Admitted(a, one) == 1 + Admitted(a.Record(one[0]), []);
  }

  /** A run that breaches the token budget although both of its calls passed the gate. */
  lemma BreachingRun(maxCalls: int, maxTokens: int, ceiling: int, u: int, calls: Reported)
    requires ceiling <= maxTokens && u > ceiling
    requires maxCalls >= 1 + Figure(calls) && maxCalls >= 1
    ensures var a := Opened(maxCalls, maxTokens, ceiling);
            var us := [Usage(calls, Num(maxTokens - ceiling)), Usage(calls, Num(u))];
      Admitted(a, us) == 2 && us[1].tokens.n == u && Drive(a, us).tokens > maxTokens
  {
    var a := Opened(maxCalls, maxTokens, ceiling);
    var first, last := Usage(calls, Num(maxTokens - ceiling)), Usage(calls, Num(u));
    var us := [first, last];
    var b := a.Record(first);
    assert us[1..] == [last] && [last][1..] == [];
    assert b.CanStart().Allowed?;
    assert Drive(b, [last]) == Drive(b.Record(last), []) == b.Record(last);
    assert Admitted(b, [last]) == 1 + Admitted(b.Record(last), []) == 1;
  }
}
