/** The bounded login probe: the broker that renders a plan into a fixed attempt sequence, and the
    disposable worker that runs it against the target. */
module LoginProbe {
  import opened Wrappers

  const AttemptCeiling := 12
  const MaxInvalidAttempts := 10

  datatype Kind = PositiveControl | InvalidAttempt | PostControl

  /** The controller-owned probe profile. */
  datatype Profile = Profile(sufficient: int, maxAttempts: int)

  datatype Rejection = SequenceUnrenderable | AttemptCeilingExceeded

  datatype Rendering = Rendering(modelHint: int, effective: int, rendered: int, total: int, concurrency: int,
                                 attempts: seq<Kind>)

  function Min(a: int, b: int): int {
    if a <= b then a else b
  }

  /** Render the profile's sequence, clamped by the ceiling and the size of the candidate set. */
  function Render(hint: int, profile: Profile, candidates: nat): Result<Rendering, Rejection> {
    var rendered := Min(Min(profile.sufficient, MaxInvalidAttempts), candidates);
    if rendered < 1 then Err(SequenceUnrenderable)
    else
      var attempts := [PositiveControl] + seq(rendered, i => InvalidAttempt) + [PostControl];
      if |attempts| > AttemptCeiling || |attempts| > profile.maxAttempts then Err(AttemptCeilingExceeded)
      else Ok(Rendering(hint, rendered, rendered, |attempts|, 1, attempts))
  }

  /** The model's hint is recorded and changes nothing else, not even whether there is a rendering. */
  lemma HintChangesNothing(hint: int, other: int, profile: Profile, candidates: nat)
    ensures Render(other, profile, candidates)
         == match Render(hint, profile, candidates) case Ok(r) => Ok(r.(modelHint := other)) case Err(e) => Err(e)
  {
  }

  /** A rendering exists exactly if there is something to render and it fits the profile; it never
      exceeds the ceiling, and it is the full sufficient sequence exactly if that fits the ceiling and
      the candidate set. */
  lemma RenderedWithinCeiling(hint: int, profile: Profile, candidates: nat)
    ensures var n := Min(Min(profile.sufficient, MaxInvalidAttempts), candidates);
      && (Render(hint, profile, candidates).Ok? <==> n >= 1 && n + 2 <= profile.maxAttempts)
      && (Render(hint, profile, candidates).Ok? ==>
            var r := Render(hint, profile, candidates).value;
            && 3 <= r.total <= AttemptCeiling && r.total == |r.attempts| == r.rendered + 2
            && (r.effective == profile.sufficient <==>
                  profile.sufficient <= MaxInvalidAttempts && profile.sufficient <= candidates))
  {
  }

  /** What is rendered: as many invalid attempts as the profile, the limit of ten and the candidate set
      allow, between the two controls; refused if there are none, or if the profile allows fewer attempts
      in all. */
  lemma RenderMeans(hint: int, profile: Profile, candidates: nat, n: int)
    requires n <= profile.sufficient && n <= 10 && n <= candidates
    requires n == profile.sufficient || n == 10 || n == candidates
    ensures var r := Render(hint, profile, candidates);
      && (n < 1 ==> r == Err(SequenceUnrenderable))
      && (n >= 1 && n + 2 > profile.maxAttempts ==> r == Err(AttemptCeilingExceeded))
      && (n >= 1 && n + 2 <= profile.maxAttempts ==>
            && r.Ok? && r.value == Rendering(modelHint := hint, effective := n, rendered := n, total := n + 2,
                                             concurrency := 1, attempts := r.value.attempts)
            && |r.value.attempts| == n + 2
            && r.value.attempts[0].PositiveControl? && r.value.attempts[n + 1].PostControl?
            && forall i | 1 <= i <= n :: r.value.attempts[i].InvalidAttempt?)
  {
  }

  // ------------------------------------------------------------------ the worker

  /** The target's answer to one attempt: a transport error, or a status with or without a
      token-shaped field, `accessToken` being the one that is captured. */
  datatype Reply = TransportError | Reply(statusCode: int, token: bool, accessToken: bool)

  /** The sanitized fact about one attempt. */
  datatype Attempt = Attempt(kind: Kind, statusCode: int, authenticated: bool, lockedOut: bool)

  datatype WorkerOutput = WorkerOutput(attempts: seq<Attempt>, captured: bool)

  function Sanitize(kind: Kind, reply: Reply): Attempt {
    match reply
    case TransportError => Attempt(kind, 0, false, false)
    case Reply(statusCode, token, accessToken) =>
      Attempt(kind, statusCode, statusCode == 200 && (token || accessToken), statusCode == 429)
  }

  function Facts(kinds: seq<Kind>, replies: seq<Reply>): (facts: seq<Attempt>)
    requires |replies| == |kinds|
    ensures |facts| == |kinds| && forall i | 0 <= i < |facts| :: facts[i] == Sanitize(kinds[i], replies[i])
  {
    seq(|kinds|, i requires 0 <= i < |kinds| => Sanitize(kinds[i], replies[i]))
  }

  predicate Captures(kind: Kind, reply: Reply) {
    kind.PositiveControl? && reply.Reply? && reply.statusCode == 200 && reply.accessToken
  }

  /** Run every attempt in order. The profile's stop condition on an authenticated invalid credential
      is not acted upon: the worker always runs the whole sequence. */
  method RunAttempts(kinds: seq<Kind>, replies: seq<Reply>) returns (output: WorkerOutput)
    requires |replies| == |kinds|
    ensures output.attempts == Facts(kinds, replies)
    ensures output.captured <==> exists i | 0 <= i < |kinds| :: Captures(kinds[i], replies[i])
  {
    var attempts, captured := [], false;
    for i := 0 to |kinds|
      invariant |attempts| == i && forall k | 0 <= k < i :: attempts[k] == Sanitize(kinds[k], replies[k])
      invariant captured <==> exists k | 0 <= k < i :: Captures(kinds[k], replies[k])
    {
      if Captures(kinds[i], replies[i]) {
        captured := true;
      }
      attempts := attempts + [Sanitize(kinds[i], replies[i])];
    }
    output := WorkerOutput(attempts, captured);
  }

  /** The sanitized fact: a transport error is status 0 and nothing else; an answer of 200 with a token of
      either shape is a login, and 429 a lockout. Only a control's login with an access token is captured. */
  lemma SanitizeMeans(kind: Kind, reply: Reply)
    ensures var fact := Sanitize(kind, reply);
      && fact.kind == kind
      && fact.statusCode == (if reply.TransportError? then 0 else reply.statusCode)
      && (fact.authenticated <==> reply.Reply? && reply.statusCode == 200 && (reply.token || reply.accessToken))
      && (fact.lockedOut <==> reply.Reply? && reply.statusCode == 429)
      && (Captures(kind, reply) <==>
            kind.PositiveControl? && fact.statusCode == 200 && reply.Reply? && reply.accessToken)
  {
  }

  // ------------------------------------------------------------------ the stop condition

  /** An invalid credential that authenticates, on which the profile says to stop. */
  predicate Stops(kind: Kind, reply: Reply) {
    kind.InvalidAttempt? && Sanitize(kind, reply).authenticated
  }

  /** The facts of a worker that does stop: it runs no attempt after the first one that stops it. */
  function StoppingFacts(kinds: seq<Kind>, replies: seq<Reply>): seq<Attempt>
    requires |replies| == |kinds|
  {
    if kinds == [] then []
    else [Sanitize(kinds[0], replies[0])]
         + (if Stops(kinds[0], replies[0]) then [] else StoppingFacts(kinds[1..], replies[1..]))
  }

  lemma FactsFromFirst(kinds: seq<Kind>, replies: seq<Reply>)
    requires |replies| == |kinds| && kinds != []
    ensures Facts(kinds, replies) == [Sanitize(kinds[0], replies[0])] + Facts(kinds[1..], replies[1..])
  {
  }

  /** The worker's facts are those of a stopping worker exactly if no attempt before the last one stops
      it. In every other run the worker goes on after an invalid credential has authenticated. */
  lemma {:induction false} StopConditionMattersIff(kinds: seq<Kind>, replies: seq<Reply>)
    requires |replies| == |kinds|
    ensures StoppingFacts(kinds, replies) == Facts(kinds, replies)
       <==> forall i | 0 <= i < |kinds| - 1 :: !Stops(kinds[i], replies[i])
    ensures |StoppingFacts(kinds, replies)| <= |kinds|
  {
    if kinds != [] {
      FactsFromFirst(kinds, replies);
      StopConditionMattersIff(kinds[1..], replies[1..]);
      var first := [Sanitize(kinds[0], replies[0])];
      if Stops(kinds[0], replies[0]) {
        assert StoppingFacts(kinds, replies) == first;
        assert |kinds| > 1 ==> |Facts(kinds, replies)| > 1;
      } else {
        assert StoppingFacts(kinds, replies) == first + StoppingFacts(kinds[1..], replies[1..]);
        assert (first + StoppingFacts(kinds[1..], replies[1..]))[1..] == StoppingFacts(kinds[1..], replies[1..]);
        assert (first + Facts(kinds[1..], replies[1..]))[1..] == Facts(kinds[1..], replies[1..]);
        assert forall i | 0 <= i < |kinds[1..]| :: kinds[1..][i] == kinds[i + 1] && replies[1..][i] == replies[i + 1];
        if forall i | 0 <= i < |kinds[1..]| - 1 :: !Stops(kinds[1..][i], replies[1..][i]) {
          forall i | 0 <= i < |kinds| - 1
            ensures !Stops(kinds[i], replies[i])
          {
            assert i > 0 ==> !Stops(kinds[1..][i - 1], replies[1..][i - 1]);
          }
        } else {
          var i :| 0 <= i < |kinds[1..]| - 1 && Stops(kinds[1..][i], replies[1..][i]);
          assert Stops(kinds[i + 1], replies[i + 1]);
        }
      }
    }
  }

  /** In a rendered sequence the last attempt is the post-burst control, so every authenticating invalid
      attempt tells the two workers apart. */
  lemma RenderedRunIgnoresStopIff(hint: int, profile: Profile, candidates: nat, replies: seq<Reply>)
    requires Render(hint, profile, candidates).Ok?
    requires |replies| == |Render(hint, profile, candidates).value.attempts|
    ensures var kinds := Render(hint, profile, candidates).value.attempts;
      StoppingFacts(kinds, replies) != Facts(kinds, replies)
      <==> exists i | 0 <= i < |kinds| :: Stops(kinds[i], replies[i])
  {
    var kinds := Render(hint, profile, candidates).value.attempts;
    StopConditionMattersIff(kinds, replies);
    assert !Stops(kinds[|kinds| - 1], replies[|kinds| - 1]);
  }

  /** A run on which the worker goes on: the first of two invalid credentials is let in, and the second
      one and the post-burst control are still sent. */
  lemma WorkerGoesOn()
    ensures var kinds := [PositiveControl, InvalidAttempt, InvalidAttempt, PostControl];
      var replies := [Reply(200, true, true), Reply(200, true, true), Reply(401, false, false), Reply(200, true, true)];
      && Render(1, Profile(2, 12), 2) == Ok(Rendering(1, 2, 2, 4, 1, kinds))
      && Facts(kinds, replies)[1].authenticated && |Facts(kinds, replies)| == 4
      && |StoppingFacts(kinds, replies)| == 2
  {
    var kinds := [PositiveControl, InvalidAttempt, InvalidAttempt, PostControl];
    var replies := [Reply(200, true, true), Reply(200, true, true), Reply(401, false, false), Reply(200, true, true)];
    assert seq(2, i => InvalidAttempt) == [InvalidAttempt, InvalidAttempt];
    assert [PositiveControl] + [InvalidAttempt, InvalidAttempt] + [PostControl] == kinds;
    assert StoppingFacts(kinds, replies)
        == [Sanitize(kinds[0], replies[0])] + StoppingFacts(kinds[1..], replies[1..]);
    assert Stops(kinds[1..][0], replies[1..][0]);
    assert StoppingFacts(kinds[1..], replies[1..]) == [Sanitize(kinds[1], replies[1])];
  }
}
