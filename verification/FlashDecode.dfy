/** The per-core table of the cost-balanced schedule, filled in place. */
module FlashDecode {
  import opened Cover
  import opened SplitParams
  import opened Workload
  import opened AutoSchedule
  import opened LoadBalance

  /** The ranges hang together: core i starts where core i - 1 stopped. */
  ghost predicate Chain(ctx: Context, cores: seq<CoreNode>, starts: seq<Block>)
    requires ctx.Valid()
  {
    && |starts| == |cores| + 1
    && starts[0] == Block(0, 0, 0, 0)
    && Tame(ShapeOf(ctx), starts[|cores|]) && starts[|cores|].b <= ctx.batchSize
    && (forall i :: 0 <= i < |cores| ==> LinkAt(ctx, cores, starts, i))
  }

  ghost predicate LinkAt(ctx: Context, cores: seq<CoreNode>, starts: seq<Block>, i: int)
    requires ctx.Valid() && |starts| == |cores| + 1 && 0 <= i < |cores|
  {
    && Tame(ShapeOf(ctx), starts[i]) && starts[i].b < ctx.batchSize
    && Link(ctx, cores[i], starts[i], starts[i + 1])
  }

  ghost predicate Link(ctx: Context, core: CoreNode, start: Block, next: Block)
    requires ctx.Valid()
  {
    && Start(core) == start
    && SameCut(ShapeOf(ctx), End(core), next)
    && NeatCore(ShapeOf(ctx), core)
    && !Before(next, start)
    && (next.b == ctx.batchSize ==> next == Block(next.b, 0, 0, 0))
  }

  lemma {:induction false} ChainCovers(ctx: Context, cores: seq<CoreNode>, starts: seq<Block>)
    requires ctx.Valid() && Chain(ctx, cores, starts)
    ensures PrefixCover(ShapeOf(ctx), cores, starts[|cores|])
  {
    var n := |cores|;
    if n > 0 {
      assert LinkAt(ctx, cores, starts, n - 1);
      ChainPrefix(ctx, cores, starts);
      ChainCovers(ctx, cores[..n - 1], starts[..n]);
      hide ShapeOf, PrefixCover, Chain;
      ExtendCover(ShapeOf(ctx), cores[..n - 1], cores[n - 1], starts[n - 1], starts[n]);
      assert cores[..n - 1] + [cores[n - 1]] == cores;
    }
  }

  lemma ChainPrefix(ctx: Context, cores: seq<CoreNode>, starts: seq<Block>)
    requires ctx.Valid() && Chain(ctx, cores, starts) && |cores| > 0
    ensures Chain(ctx, cores[..|cores| - 1], starts[..|cores|])
  {
    hide ShapeOf, Tame, Link;
    var n := |cores| - 1;
    assert LinkAt(ctx, cores, starts, n);
    var front, frontStarts := cores[..n], starts[..n + 1];
    forall i | 0 <= i < n
      ensures LinkAt(ctx, front, frontStarts, i)
    {
      assert LinkAt(ctx, cores, starts, i);
    }
  }

  lemma ChainExtends(ctx: Context, cores: seq<CoreNode>, starts: seq<Block>, core: CoreNode, next: Block)
    requires ctx.Valid() && Chain(ctx, cores, starts) && starts[|cores|].b < ctx.batchSize
    requires Link(ctx, core, starts[|cores|], next) && Tame(ShapeOf(ctx), next) && next.b <= ctx.batchSize
    ensures Chain(ctx, cores + [core], starts + [next])
  {
    hide ShapeOf, Tame, Link;
    forall i | 0 <= i <= |cores|
      ensures LinkAt(ctx, cores + [core], starts + [next], i)
    {
      if i < |cores| { assert LinkAt(ctx, cores, starts, i); }
    }
  }

  /** What core i gets between its start and the next one. */
  ghost predicate ReceivedAt(ctx: Context, starts: seq<Block>, budget: int, i: int)
    requires ctx.Valid() && 0 <= i < |starts| - 1
  {
    && 0 <= starts[i].b <= ctx.batchSize && 0 <= starts[i + 1].b <= ctx.batchSize
    && Received(ctx, starts[i], starts[i + 1], budget)
  }

  ghost predicate Shares(ctx: Context, starts: seq<Block>, budget: int)
    requires ctx.Valid()
  {
    forall i :: 0 <= i < |starts| - 1 ==> ReceivedAt(ctx, starts, budget, i)
  }

  lemma SharesExtend(ctx: Context, starts: seq<Block>, next: Block, budget: int)
    requires ctx.Valid() && |starts| >= 1 && Shares(ctx, starts, budget)
    requires 0 <= starts[|starts| - 1].b <= ctx.batchSize && 0 <= next.b <= ctx.batchSize
    requires Received(ctx, starts[|starts| - 1], next, budget)
    ensures Shares(ctx, starts + [next], budget)
  {
    hide Received;
    var more := starts + [next];
    forall i | 0 <= i < |more| - 1
      ensures ReceivedAt(ctx, more, budget, i)
    {
      if i < |starts| - 1 { assert ReceivedAt(ctx, starts, budget, i); }
    }
  }

  function CoreOf(start: Block, end: Block): CoreNode {
    CoreNode(start.b, start.n1, start.s1, start.s2, end.b, end.n1, end.s1, end.s2, 0, 0)
  }

  method ClearCores(coreInfo: array<CoreNode>, n: nat)
    requires n <= coreInfo.Length
    modifies coreInfo
    ensures forall c :: 0 <= c < coreInfo.Length ==> coreInfo[c] == if c < n then IDLE else old(coreInfo[c])
  {
    for c := 0 to n
      invariant forall i :: 0 <= i < coreInfo.Length ==> coreInfo[i] == if i < c then IDLE else old(coreInfo[i])
    {
      coreInfo[c] := IDLE;
    }
  }

  /** One round of the loop over cores; `now` runs over the whole space. */
  method RunCores(ctx: Context, coreInfo: array<CoreNode>, budget: int)
    returns (used: nat, done: bool, ghost starts: seq<Block>)
    requires ctx.Valid() && coreInfo.Length >= ctx.blockDim && Int32(budget)
    modifies coreInfo
    ensures 1 <= used <= ctx.blockDim
    ensures Chain(ctx, coreInfo[..used], starts)
    ensures done <==> starts[used].b == ctx.batchSize
    ensures !done ==> used == ctx.blockDim
    ensures budget > 0 ==> Shares(ctx, starts, budget)
    ensures forall c :: used <= c < coreInfo.Length ==> coreInfo[c] == old(coreInfo[c])
  {
    var now := Block(0, 0, 0, 0);
    starts := [now];
    used, done := 0, false;
    OriginIsTame(ctx);
    assert coreInfo[..0] == [];
    while used < ctx.blockDim && !done
      invariant used <= ctx.blockDim && (done ==> used >= 1)
      invariant Chain(ctx, coreInfo[..used], starts) && starts[used] == now
      invariant done <==> now.b == ctx.batchSize
      invariant budget > 0 ==> Shares(ctx, starts, budget)
      invariant forall c :: used <= c < coreInfo.Length ==> coreInfo[c] == old(coreInfo[c])
      decreases ctx.blockDim - used
    {
      ghost var cores := coreInfo[..used];
      var end, next := ScheduleCore(ctx, now, budget);
      var core := CoreOf(now, end);
      coreInfo[used] := core;
      assert Link(ctx, core, now, next);
      hide Tame, Received, ShapeOf, SameCut, Link, Chain, Shares;
      ChainExtends(ctx, cores, starts, core, next);
      assert coreInfo[..used + 1] == cores + [core];
      if budget > 0 { SharesExtend(ctx, starts, next, budget); }
      starts := starts + [next];
      now := next;
      used := used + 1;
      done := now.b == ctx.batchSize;
    }
  }

  lemma OriginIsTame(ctx: Context)
    requires ctx.Valid()
    ensures Tame(ShapeOf(ctx), Block(0, 0, 0, 0))
  {
  }

  /* Exact estimates: what the table gives each core. */

  /** Work of the blocks in a core's range, added block by block. */
  ghost function CoreWork(ctx: Context, core: CoreNode): int
    requires Exact(ctx) && Tame(ShapeOf(ctx), Start(core)) && core.startB <= ctx.batchSize
  {
    RangeWork(ctx, Start(core), End(core))
  }

  /** Every used core gets less than one KV block more than its share, and every used core
      but the last gets at least its share. */
  ghost predicate Balanced(ctx: Context, cores: seq<CoreNode>, share: int)
    requires Exact(ctx)
  {
    forall c :: 0 <= c < |cores| ==>
                  && Tame(ShapeOf(ctx), Start(cores[c])) && cores[c].startB <= ctx.batchSize
                  && CoreWork(ctx, cores[c]) < share + 128 * 512
                  && (c < |cores| - 1 ==> CoreWork(ctx, cores[c]) >= share)
  }

  lemma LinkWork(ctx: Context, cores: seq<CoreNode>, starts: seq<Block>, i: int)
    requires Exact(ctx) && Chain(ctx, cores, starts) && 0 <= i < |cores|
    ensures Tame(ShapeOf(ctx), starts[i]) && 0 <= starts[i].b < ctx.batchSize && Start(cores[i]) == starts[i]
    ensures 0 <= starts[i + 1].b <= ctx.batchSize && Tame(ShapeOf(ctx), starts[i + 1])
    ensures i < |cores| - 1 ==> starts[i + 1].b < ctx.batchSize
    ensures CoreWork(ctx, cores[i]) == Work(ctx, starts[i + 1]) - Work(ctx, starts[i])
  {
    assert LinkAt(ctx, cores, starts, i);
    if i < |cores| - 1 {
      assert LinkAt(ctx, cores, starts, i + 1);
    }
    hide Exact, RangeWork, Work;
    RangeByCut(ctx, starts[i], End(cores[i]), starts[i + 1]);
    RangeIsWork(ctx, starts[i], starts[i + 1]);
  }

  lemma ChainBalances(ctx: Context, cores: seq<CoreNode>, starts: seq<Block>, share: int)
    requires Exact(ctx) && Chain(ctx, cores, starts) && Shares(ctx, starts, share) && share > 0
    ensures Balanced(ctx, cores, share)
  {
    forall c | 0 <= c < |cores|
      ensures Tame(ShapeOf(ctx), Start(cores[c])) && cores[c].startB <= ctx.batchSize
      ensures CoreWork(ctx, cores[c]) < share + MAX_BLOCK_WORK
      ensures c < |cores| - 1 ==> CoreWork(ctx, cores[c]) >= share
    {
      LinkWork(ctx, cores, starts, c);
      assert ReceivedAt(ctx, starts, share, c);
      hide Tame, ShapeOf, CoreWork, Work;
    }
  }

  lemma {:induction false} WorkPassed(ctx: Context, cores: seq<CoreNode>, starts: seq<Block>, share: int, n: nat)
    requires Exact(ctx) && Chain(ctx, cores, starts) && Shares(ctx, starts, share)
    requires n <= |cores| && starts[|cores|].b < ctx.batchSize
    ensures 0 <= starts[n].b < ctx.batchSize && Work(ctx, starts[n]) >= n * share
  {
    if n == 0 {
      TileStartWork(ctx, 0, 0, 0);
      HeadCarry(ctx, 0, 0);
    } else {
      WorkPassed(ctx, cores, starts, share, n - 1);
      LinkWork(ctx, cores, starts, n - 1);
      assert ReceivedAt(ctx, starts, share, n - 1);
      hide *;
      assert n * share == (n - 1) * share + share;
    }
  }

  lemma {:induction false} RangeWorkSign(ctx: Context, x: Block, end: Block)
    requires Exact(ctx) && Tame(ShapeOf(ctx), x) && x.b <= ctx.batchSize
    ensures RangeWork(ctx, x, end) >= 0
    ensures x.b < ctx.batchSize && Before(x, end) ==> RangeWork(ctx, x, end) >= 1
    decreases ctx.batchSize - x.b,
              if x.b < ctx.batchSize then GetBatchParams(ctx, x.b).curQNBlockNum - x.n1 else 0,
              if x.b < ctx.batchSize then GetBatchParams(ctx, x.b).curQSBlockNum - x.s1 else 0,
              if x.b < ctx.batchSize then GetBatchParams(ctx, x.b).curKSBlockNum - x.s2 else 0
  {
    if x.b < ctx.batchSize {
      NextIsTame(ctx, x);
      StepWork(ctx, x);
      hide Work, BlockWork, Exact, Tame, ValidBlock, ShapeOf, Before, NextBlock;
      RangeWorkSign(ctx, NextBlock(ctx, x), end);
    }
  }

  /** With exact estimates and shares that add up to the total, the table is complete when
      the loop over cores ends. */
  lemma NoCatchAll(ctx: Context, cores: seq<CoreNode>, starts: seq<Block>, share: int)
    requires Exact(ctx) && Chain(ctx, cores, starts) && Shares(ctx, starts, share)
    requires |cores| == ctx.blockDim && ctx.blockDim * share >= WorkBefore(ctx, ctx.batchSize)
    ensures starts[|cores|].b == ctx.batchSize
  {
    var last := starts[|cores|];
    if last.b < ctx.batchSize {
      var limit := Block(ctx.batchSize, 0, 0, 0);
      WorkPassed(ctx, cores, starts, share, |cores|);
      RangeWorkSign(ctx, last, limit);
      RangeIsWork(ctx, last, limit);
      assert false;
    }
  }

  /** Fill the per-core table for the given share of work per core. */
  method FillCoreInfoForFlashDecode(ctx: Context, coreInfo: array<CoreNode>, perCoreTaskNum: nat)
    returns (needCoreNum: nat, ghost complete: bool)
    requires ctx.Valid() && coreInfo.Length >= ctx.blockDim
    modifies coreInfo
    ensures 1 <= needCoreNum <= ctx.blockDim
    ensures InOrderCover(ShapeOf(ctx), coreInfo[..ctx.blockDim])
    ensures forall c :: 0 <= c < needCoreNum ==> NeatCore(ShapeOf(ctx), coreInfo[c])
    ensures forall c :: needCoreNum <= c < ctx.blockDim ==> coreInfo[c] == IDLE
    ensures forall c :: ctx.blockDim <= c < coreInfo.Length ==> coreInfo[c] == old(coreInfo[c])
    ensures Exact(ctx) && 0 < perCoreTaskNum < TWO_31
            && ctx.blockDim * perCoreTaskNum >= WorkBefore(ctx, ctx.batchSize) ==>
              complete && Balanced(ctx, coreInfo[..needCoreNum], perCoreTaskNum)
  {
    ClearCores(coreInfo, ctx.blockDim);
    var budget := ToI32(perCoreTaskNum);
    Wrapped(perCoreTaskNum);
    var used, done;
    ghost var starts;
    used, done, starts := RunCores(ctx, coreInfo, budget);
    needCoreNum, complete := used, done;
    ghost var cores := coreInfo[..used];
    BalancedAndComplete(ctx, cores, starts, perCoreTaskNum, budget);
    ChainNeat(ctx, cores, starts);
    hide Exact, ToI32, Int32, Chain, ShapeOf, NeatCore, Balanced, Shares, SameCut;
    if done {
      DoneCover(ctx, cores, starts, coreInfo[used..ctx.blockDim]);
      assert coreInfo[..ctx.blockDim] == cores + coreInfo[used..ctx.blockDim];
    } else {
      CatchAll(ctx, coreInfo, cores, starts);
    }
  }

  /** The final catch-all: the last core takes the rest of the space. */
  method CatchAll(ctx: Context, coreInfo: array<CoreNode>, ghost cores: seq<CoreNode>, ghost starts: seq<Block>)
    requires ctx.Valid() && coreInfo.Length >= ctx.blockDim
    requires cores == coreInfo[..ctx.blockDim] && Chain(ctx, cores, starts)
    modifies coreInfo
    ensures InOrderCover(ShapeOf(ctx), coreInfo[..ctx.blockDim])
    ensures forall c :: 0 <= c < ctx.blockDim ==> NeatCore(ShapeOf(ctx), coreInfo[c])
    ensures forall c :: ctx.blockDim <= c < coreInfo.Length ==> coreInfo[c] == old(coreInfo[c])
  {
    ChainNeat(ctx, cores, starts);
    var end := FinishBatch(ctx);
    var last := coreInfo[ctx.blockDim - 1];
    hide ShapeOf, Chain, SameCut;
    assert NeatCore(ShapeOf(ctx), last);
    coreInfo[ctx.blockDim - 1] := last.(endB := end.b, endN1 := end.n1, endS1 := end.s1, endS2 := end.s2);
    CatchAllCover(ctx, cores, starts, coreInfo[ctx.blockDim - 1], end);
    assert coreInfo[..ctx.blockDim] == cores[..ctx.blockDim - 1] + [coreInfo[ctx.blockDim - 1]];
  }

  /** With exact estimates and sufficient shares the loop over cores reaches the end of the
      space, and the table is balanced. */
  lemma BalancedAndComplete(ctx: Context, cores: seq<CoreNode>, starts: seq<Block>, share: int, budget: int)
    requires ctx.Valid() && Chain(ctx, cores, starts) && budget == ToI32(share)
    requires budget > 0 ==> Shares(ctx, starts, budget)
    requires starts[|cores|].b < ctx.batchSize ==> |cores| == ctx.blockDim
    ensures Exact(ctx) && 0 < share < TWO_31 && ctx.blockDim * share >= WorkBefore(ctx, ctx.batchSize) ==>
              starts[|cores|].b == ctx.batchSize && Balanced(ctx, cores, share)
  {
    Wrapped(share);
    if Exact(ctx) && 0 < share < TWO_31 && ctx.blockDim * share >= WorkBefore(ctx, ctx.batchSize) {
      ChainBalances(ctx, cores, starts, share);
      if starts[|cores|].b < ctx.batchSize {
        NoCatchAll(ctx, cores, starts, share);
      }
    }
  }

  lemma ChainNeat(ctx: Context, cores: seq<CoreNode>, starts: seq<Block>)
    requires ctx.Valid() && Chain(ctx, cores, starts)
    ensures forall c :: 0 <= c < |cores| ==> NeatCore(ShapeOf(ctx), cores[c])
  {
    hide ShapeOf, NeatCore;
    forall c | 0 <= c < |cores|
      ensures NeatCore(ShapeOf(ctx), cores[c])
    {
      assert LinkAt(ctx, cores, starts, c);
    }
  }

  lemma DoneCover(ctx: Context, cores: seq<CoreNode>, starts: seq<Block>, idle: seq<CoreNode>)
    requires ctx.Valid() && Chain(ctx, cores, starts) && starts[|cores|].b == ctx.batchSize
    requires forall c :: 0 <= c < |idle| ==> idle[c] == IDLE
    ensures InOrderCover(ShapeOf(ctx), cores + idle)
  {
    ChainCovers(ctx, cores, starts);
    hide GetBatchParams;
    IdleTail(ShapeOf(ctx), cores, idle, starts[|cores|]);
  }

  /** Handing the rest of the space to the last core completes the cover. */
  lemma CatchAllCover(ctx: Context, cores: seq<CoreNode>, starts: seq<Block>, last: CoreNode, end: Block)
    requires ctx.Valid() && Chain(ctx, cores, starts) && |cores| >= 1
    requires Start(last) == Start(cores[|cores| - 1]) && End(last) == end
    requires SameCut(ShapeOf(ctx), end, Block(ctx.batchSize, 0, 0, 0))
    ensures InOrderCover(ShapeOf(ctx), cores[..|cores| - 1] + [last])
  {
    var n, limit := |cores| - 1, Block(ctx.batchSize, 0, 0, 0);
    assert LinkAt(ctx, cores, starts, n);
    ChainPrefix(ctx, cores, starts);
    ChainCovers(ctx, cores[..n], starts[..n + 1]);
    hide GetBatchParams, Chain;
    ExtendCover(ShapeOf(ctx), cores[..n], last, starts[n], limit);
    IdleTail(ShapeOf(ctx), cores[..n] + [last], [], limit);
    assert cores[..n] + [last] + [] == cores[..n] + [last];
  }
}
