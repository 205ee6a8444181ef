/** The counter discipline of the scanner acceptance run: runner counters are read before and after
    every measured block, and the block deltas must account for the whole run. */
module CounterBlocks {

  datatype Counters = Counters(executions: int, rejections: int, forwarded: int, blocked: int)

  function Delta(before: Counters, after: Counters): Counters {
    Counters(after.executions - before.executions, after.rejections - before.rejections,
             after.forwarded - before.forwarded, after.blocked - before.blocked)
  }

  function Plus(a: Counters, b: Counters): Counters {
    Counters(a.executions + b.executions, a.rejections + b.rejections, a.forwarded + b.forwarded, a.blocked + b.blocked)
  }

  const Zero := Counters(0, 0, 0, 0)

  /** The counters read at the two ends of one measured block. */
  datatype Block = Block(before: Counters, after: Counters)

  /** The changes inside the blocks, and those between one block and the next. */
  function Inside(blocks: seq<Block>): Counters {
    if blocks == [] then Zero else Plus(Delta(blocks[0].before, blocks[0].after), Inside(blocks[1..]))
  }

  function Gaps(blocks: seq<Block>, final: Counters): Counters {
    if blocks == [] then Zero
    else
      var next := if |blocks| == 1 then final else blocks[1].before;
      Plus(Delta(blocks[0].after, next), Gaps(blocks[1..], final))
  }

  /** Block and gap deltas telescope to the delta of the whole run. */
  lemma {:induction false} BlocksTelescope(blocks: seq<Block>, final: Counters)
    requires blocks != []
    ensures Plus(Inside(blocks), Gaps(blocks, final)) == Delta(blocks[0].before, final)
  {
    if |blocks| > 1 {
      BlocksTelescope(blocks[1..], final);
    } else {
      assert blocks[1..] == [];
    }
  }

  /** The change of the execution counter between block `i` and the next reading. */
  function GapAfter(blocks: seq<Block>, final: Counters, i: nat): int
    requires i < |blocks|
  {
    (if i + 1 == |blocks| then final else blocks[i + 1].before).executions - blocks[i].after.executions
  }

  ghost predicate NeverDecreases(blocks: seq<Block>, final: Counters) {
    forall i | 0 <= i < |blocks| :: GapAfter(blocks, final, i) >= 0
  }

  lemma {:induction false} GapsAreZeroIff(blocks: seq<Block>, final: Counters)
    requires NeverDecreases(blocks, final)
    ensures Gaps(blocks, final).executions >= 0
    ensures Gaps(blocks, final).executions == 0 <==> forall i | 0 <= i < |blocks| :: GapAfter(blocks, final, i) == 0
  {
    if blocks != [] {
      assert forall i | 0 <= i < |blocks[1..]| :: GapAfter(blocks[1..], final, i) == GapAfter(blocks, final, i + 1);
      GapsAreZeroIff(blocks[1..], final);
      assert GapAfter(blocks, final, 0) >= 0;
      if forall i | 0 <= i < |blocks[1..]| :: GapAfter(blocks[1..], final, i) == 0 {
        forall i | 1 <= i < |blocks|
          ensures GapAfter(blocks, final, i) == 0
        {
          assert GapAfter(blocks[1..], final, i - 1) == 0;
        }
      }
    }
  }

  // ------------------------------------------------------------------ the acceptance run

  /** What a block must show: all counters still, executions and forwards still, or so many
      executions, the positive block blocking nothing. */
  datatype Kind = Positive(trials: int) | Projection | Injection | Runtime(trials: int)

  function Executions(k: Kind): int {
    match k
    case Positive(trials) => 2 * trials
    case Projection => 0
    case Injection => 0
    case Runtime(trials) => trials
  }

  predicate BlockPasses(k: Kind, b: Block) {
    var change := Delta(b.before, b.after);
    match k
    case Positive(trials) => change.executions == trials * 2 && change.blocked == 0
    case Projection => change == Zero
    case Injection => change.executions == 0 && change.forwarded == 0
    case Runtime(trials) => change.executions == trials
  }

  /** The blocks of the run in order: the positive matrix, three projection controls, the injection
      controls, three runtime controls. */
  function Plan(trials: int, n: int): seq<Kind> {
    [Positive(trials), Projection, Projection, Projection, Injection, Runtime(n), Runtime(n), Runtime(n)]
  }

  function Expected(kinds: seq<Kind>): int {
    if kinds == [] then 0 else Executions(kinds[0]) + Expected(kinds[1..])
  }

  predicate AllPass(kinds: seq<Kind>, blocks: seq<Block>) {
    |kinds| == |blocks| && forall i | 0 <= i < |kinds| :: BlockPasses(kinds[i], blocks[i])
  }

  /** The run's assertions over its counter readings, in order; false where one fails. */
  method CheckRun(trials: int, n: int, blocks: seq<Block>, final: Counters) returns (ok: bool)
    requires |blocks| == |Plan(trials, n)|
    ensures ok <==> AllPass(Plan(trials, n), blocks)
                    && Delta(blocks[0].before, final).executions == trials * 2 + n * 3
  {
    var kinds := Plan(trials, n);
    for i := 0 to |kinds|
      invariant forall k | 0 <= k < i :: BlockPasses(kinds[k], blocks[k])
    {
      if !BlockPasses(kinds[i], blocks[i]) {
        return false;
      }
    }
    return Delta(blocks[0].before, final).executions == trials * 2 + n * 3;
  }

  /** The run is accepted exactly if, in the counters as read: the positive matrix made two executions per
      trial and blocked nothing, no counter moved in the projection controls, nothing was executed or
      forwarded in the injection controls, each runtime control made its executions, and the whole run
      made as many as planned. */
  lemma AcceptedMeans(trials: int, n: int, b: seq<Block>, final: Counters)
    requires |b| == 8
    ensures AllPass(Plan(trials, n), b) && Delta(b[0].before, final).executions == trials * 2 + n * 3 <==>
      && b[0].after.executions == b[0].before.executions + 2 * trials && b[0].after.blocked == b[0].before.blocked
      && b[1].after == b[1].before && b[2].after == b[2].before && b[3].after == b[3].before
      && b[4].after.executions == b[4].before.executions && b[4].after.forwarded == b[4].before.forwarded
      && b[5].after.executions == b[5].before.executions + n
      && b[6].after.executions == b[6].before.executions + n
      && b[7].after.executions == b[7].before.executions + n
      && final.executions == b[0].before.executions + 2 * trials + 3 * n
  {
    var kinds := Plan(trials, n);
    assert AllPass(kinds, b) <==>
      && BlockPasses(kinds[0], b[0]) && BlockPasses(kinds[1], b[1]) && BlockPasses(kinds[2], b[2])
      && BlockPasses(kinds[3], b[3]) && BlockPasses(kinds[4], b[4]) && BlockPasses(kinds[5], b[5])
      && BlockPasses(kinds[6], b[6]) && BlockPasses(kinds[7], b[7]);
    StillIff(b[1]);
    StillIff(b[2]);
    StillIff(b[3]);
  }

  lemma StillIff(b: Block)
    ensures Delta(b.before, b.after) == Zero <==> b.after == b.before
  {
  }

  lemma {:induction false} PassingBlocksAddUp(kinds: seq<Kind>, blocks: seq<Block>)
    requires AllPass(kinds, blocks)
    ensures Inside(blocks).executions == Expected(kinds)
  {
    if kinds != [] {
      assert BlockPasses(kinds[0], blocks[0]);
      assert forall i | 0 <= i < |kinds[1..]| :: kinds[1..][i] == kinds[i + 1] && blocks[1..][i] == blocks[i + 1];
      PassingBlocksAddUp(kinds[1..], blocks[1..]);
    }
  }

  lemma {:induction false} ExpectedOfConcat(a: seq<Kind>, b: seq<Kind>)
    ensures Expected(a + b) == Expected(a) + Expected(b)
  {
    if a == [] {
      assert a + b == b;
    } else {
      assert (a + b)[1..] == a[1..] + b;
      ExpectedOfConcat(a[1..], b);
    }
  }

  lemma PlannedExecutions(trials: int, n: int)
    ensures Expected(Plan(trials, n)) == trials * 2 + n * 3
  {
    var positive, runtime := [Positive(trials)], [Runtime(n)];
    var still := [Projection, Projection, Projection, Injection];
    assert Plan(trials, n) == positive + (still + (runtime + (runtime + runtime)));
    ExpectedOfConcat(positive, still + (runtime + (runtime + runtime)));
    ExpectedOfConcat(still, runtime + (runtime + runtime));
    ExpectedOfConcat(runtime, runtime + runtime);
    ExpectedOfConcat(runtime, runtime);
    ExpectedOfConcat([Projection, Projection], [Projection, Injection]);
    ExpectedOfConcat([Projection], [Projection]);
    ExpectedOfConcat([Projection], [Injection]);
    assert still == [Projection, Projection] + [Projection, Injection];
    assert [Projection, Projection] == [Projection] + [Projection]
      && [Projection, Injection] == [Projection] + [Injection];
    assert forall k: Kind :: [k][1..] == [];
  }

  /** Once the block assertions hold, for any trial counts and any readings, the final assertion holds
      exactly if the changes of the execution counter between the blocks add up to zero. */
  lemma FinalAssertionIffGapsCancel(trials: int, n: int, blocks: seq<Block>, final: Counters)
    requires AllPass(Plan(trials, n), blocks)
    ensures Delta(blocks[0].before, final).executions == trials * 2 + n * 3 <==> Gaps(blocks, final).executions == 0
  {
    BlocksTelescope(blocks, final);
    PassingBlocksAddUp(Plan(trials, n), blocks);
    PlannedExecutions(trials, n);
  }

  /** No unmeasured executions: if the counter never decreases between blocks, that is exactly if it did
      not move in any gap. */
  lemma FinalAssertionIff(trials: int, n: int, blocks: seq<Block>, final: Counters)
    requires AllPass(Plan(trials, n), blocks) && NeverDecreases(blocks, final)
    ensures Delta(blocks[0].before, final).executions == trials * 2 + n * 3
       <==> forall i | 0 <= i < |blocks| :: GapAfter(blocks, final, i) == 0
  {
    FinalAssertionIffGapsCancel(trials, n, blocks, final);
    GapsAreZeroIff(blocks, final);
  }

  function OneMore(c: Counters): Counters {
    c.(executions := c.executions + 1)
  }

  /** Without the assumption it proves nothing of the kind: a runner that loses one count in one gap
      can execute once, unmeasured, in another. `still` is a run that passes. */
  lemma LostCountHidesExecution(trials: int, n: int, still: seq<Block>, final: Counters)
    requires AllPass(Plan(trials, n), still) && Delta(still[0].before, final).executions == trials * 2 + n * 3
    ensures var moved := OneMore(still[1].before);
      var moved' := OneMore(still[1].after);
      var blocks := still[1 := Block(moved, moved')];
      && AllPass(Plan(trials, n), blocks) && Delta(blocks[0].before, final).executions == trials * 2 + n * 3
      && GapAfter(blocks, final, 0) == GapAfter(still, final, 0) + 1
      && GapAfter(blocks, final, 1) == GapAfter(still, final, 1) - 1
  {
    assert BlockPasses(Plan(trials, n)[1], still[1]);
  }
}
