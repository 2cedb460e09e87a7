/** What a core receives, added up block by block, and how the closed form measures it. */
module LoadBalance {
  import opened Arith
  import opened Cover
  import opened SplitParams
  import opened Tiles
  import opened Workload
  import opened AutoSchedule

  /** Row x key units of one block when nothing is appended to the keys. */
  ghost function BlockWork(ctx: Context, x: Block): int
    requires ctx.Valid() && 0 <= x.b < ctx.batchSize
  {
    var p := GetBatchParams(ctx, x.b);
    TileSize(ctx, x.b, x.n1, x.s1)
    * (Min((x.s2 + 1) * MAX_KV_STACK_LEN, p.kvSeqlen) - x.s2 * MAX_KV_STACK_LEN)
  }

  /** The block after x. */
  function NextBlock(ctx: Context, x: Block): Block
    requires ctx.Valid() && 0 <= x.b < ctx.batchSize
  {
    var p := GetBatchParams(ctx, x.b);
    if x.s2 + 1 < p.curKSBlockNum then x.(s2 := x.s2 + 1)
    else if x.s1 + 1 < p.curQSBlockNum then Block(x.b, x.n1, x.s1 + 1, 0)
    else if x.n1 + 1 < p.curQNBlockNum then Block(x.b, x.n1 + 1, 0, 0)
    else Block(x.b + 1, 0, 0, 0)
  }

  /** Sum of the work of the blocks from x up to `end`. */
  ghost function RangeWork(ctx: Context, x: Block, end: Block): int
    requires Exact(ctx) && Tame(ShapeOf(ctx), x) && x.b <= ctx.batchSize
    decreases ctx.batchSize - x.b,
              if x.b < ctx.batchSize then GetBatchParams(ctx, x.b).curQNBlockNum - x.n1 else 0,
              if x.b < ctx.batchSize then GetBatchParams(ctx, x.b).curQSBlockNum - x.s1 else 0,
              if x.b < ctx.batchSize then GetBatchParams(ctx, x.b).curKSBlockNum - x.s2 else 0
  {
    if x.b == ctx.batchSize || !Before(x, end) then 0
    else
      NextIsTame(ctx, x);
      BlockWork(ctx, x) + RangeWork(ctx, NextBlock(ctx, x), end)
  }

  lemma NextIsTame(ctx: Context, x: Block)
    requires Exact(ctx) && Tame(ShapeOf(ctx), x) && x.b < ctx.batchSize
    ensures Tame(ShapeOf(ctx), NextBlock(ctx, x)) && NextBlock(ctx, x).b <= ctx.batchSize
    ensures Before(x, NextBlock(ctx, x)) && ValidBlock(ShapeOf(ctx), x)
  {
    TameIsValid(ctx, x);
    if x.b + 1 < ctx.batchSize {
      ExactIsLive(ctx, x.b + 1);
    }
    hide Exact;
  }

  /** No position lies between a block and the next one. */
  lemma NextIsLeast(ctx: Context, x: Block, y: Block)
    requires Exact(ctx) && Tame(ShapeOf(ctx), x) && x.b < ctx.batchSize
    requires Tame(ShapeOf(ctx), y) && y.b <= ctx.batchSize && Before(x, y)
    ensures (y.b == ctx.batchSize ==> y == Block(y.b, 0, 0, 0)) ==> !Before(y, NextBlock(ctx, x))
  {
    TameIsValid(ctx, x);
    if y.b < ctx.batchSize {
      TameIsValid(ctx, y);
    }
    hide Exact;
  }

  /** With whole head tiles a head block has exactly its tile of heads. */
  lemma WholeHeadTile(ctx: Context, b: int, n1: int)
    requires Exact(ctx) && 0 <= b < ctx.batchSize && 0 <= n1
    ensures var p := GetBatchParams(ctx, b); HeadEnd(ctx, p, n1) - HeadStart(ctx, p, n1) == p.curQNBlockTile
  {
    var p := GetBatchParams(ctx, b);
    assert ExactBatch(ctx, b);
    HeadBlocks(ctx, b);
    WholeTiles(ctx.GroupSize(), p.curQNBlockTile);
    hide GetBatchParams, Exact, ExactBatch;
    var i, npg, t := n1 % p.qNBlockNumPerGroup, p.qNBlockNumPerGroup, p.curQNBlockTile;
    hide *;
    MulMono(i + 1, npg, t);
    NextTile(i, t);
    assert (n1 / npg + 1) * ctx.GroupSize() == n1 / npg * ctx.GroupSize() + ctx.GroupSize();
  }

  lemma NextTile(i: int, t: int)
    ensures (i + 1) * t == i * t + t
  {
  }

  lemma BlockIsCost(ctx: Context, x: Block)
    requires Exact(ctx) && ValidBlock(ShapeOf(ctx), x)
    ensures var p := GetBatchParams(ctx, x.b); BlockWork(ctx, x) == TileRows(p, x.s1) * TileKeys(p, x.s2)
  {
    var p := GetBatchParams(ctx, x.b);
    TileRowsExact(ctx, x.b, x.s1);
    TileKeysExact(ctx, x.b, x.s2);
    WholeHeadTile(ctx, x.b, x.n1);
    ExactBlocks(ctx, x.b);
    assert TileKeys(p, x.s2) == Min((x.s2 + 1) * MAX_KV_STACK_LEN, p.kvSeqlen) - x.s2 * MAX_KV_STACK_LEN by {
      hide GetBatchParams, Exact;
    }
    assert TileSize(ctx, x.b, x.n1, x.s1) == TileRows(p, x.s1) by {
      hide GetBatchParams, Exact, TileRows, HeadStart, HeadEnd;
      assert TileSize(ctx, x.b, x.n1, x.s1) == p.curQNBlockTile * (Min(Q_TILE_CEIL * (x.s1 + 1), p.qSeqlen) - Q_TILE_CEIL * x.s1);
      Distribute(p.curQNBlockTile, Min(Q_TILE_CEIL * (x.s1 + 1), p.qSeqlen), Min(Q_TILE_CEIL * x.s1, p.qSeqlen));
    }
    hide *;
    assert BlockWork(ctx, x) == TileRows(p, x.s1) * TileKeys(p, x.s2) by { BlockWorkParts(ctx, x); }
  }

  lemma BlockWorkParts(ctx: Context, x: Block)
    requires ctx.Valid() && 0 <= x.b < ctx.batchSize
    ensures var p := GetBatchParams(ctx, x.b);
            BlockWork(ctx, x)
              == TileSize(ctx, x.b, x.n1, x.s1) * (Min((x.s2 + 1) * MAX_KV_STACK_LEN, p.kvSeqlen) - x.s2 * MAX_KV_STACK_LEN)
  {
  }

  lemma StepWork(ctx: Context, x: Block)
    requires Exact(ctx) && ValidBlock(ShapeOf(ctx), x)
    ensures NextBlock(ctx, x).b <= ctx.batchSize
    ensures Work(ctx, NextBlock(ctx, x)) == Work(ctx, x) + BlockWork(ctx, x)
    ensures 1 <= BlockWork(ctx, x)
  {
    var p := GetBatchParams(ctx, x.b);
    BlockIsCost(ctx, x);
    KvCost(ctx, x);
    KeyCarry(ctx, x.b, x.n1, x.s1);
    HeadCarry(ctx, x.b, x.n1);
    BatchCarry(ctx, x.b);
    hide Work, GetBatchParams, BlockWork, Exact, TileRows, TileKeys;
  }

  /** The closed form adds up the blocks. */
  lemma {:induction false} RangeIsWork(ctx: Context, x: Block, end: Block)
    requires Exact(ctx) && Tame(ShapeOf(ctx), x) && Tame(ShapeOf(ctx), end)
    requires x.b <= ctx.batchSize && end.b <= ctx.batchSize && !Before(end, x)
    requires end.b == ctx.batchSize ==> end == Block(end.b, 0, 0, 0)
    ensures RangeWork(ctx, x, end) == Work(ctx, end) - Work(ctx, x)
    decreases ctx.batchSize - x.b,
              if x.b < ctx.batchSize then GetBatchParams(ctx, x.b).curQNBlockNum - x.n1 else 0,
              if x.b < ctx.batchSize then GetBatchParams(ctx, x.b).curQSBlockNum - x.s1 else 0,
              if x.b < ctx.batchSize then GetBatchParams(ctx, x.b).curKSBlockNum - x.s2 else 0
  {
    assert ctx.Valid();
    if x.b < ctx.batchSize && Before(x, end) {
      NextIsTame(ctx, x);
      NextIsLeast(ctx, x, end);
      hide Work, BlockWork, Exact, Tame, ValidBlock, ShapeOf, Before, NextBlock;
      StepWork(ctx, x);
      RangeIsWork(ctx, NextBlock(ctx, x), end);
    } else {
      hide Exact, TileWork, WorkBefore;
      assert x.b < ctx.batchSize ==> x == end;
    }
  }

  /** Only the place where the end cuts the space counts. */
  lemma {:induction false} RangeByCut(ctx: Context, x: Block, end: Block, end': Block)
    requires Exact(ctx) && Tame(ShapeOf(ctx), x) && x.b <= ctx.batchSize
    requires SameCut(ShapeOf(ctx), end, end')
    ensures RangeWork(ctx, x, end) == RangeWork(ctx, x, end')
    decreases ctx.batchSize - x.b,
              if x.b < ctx.batchSize then GetBatchParams(ctx, x.b).curQNBlockNum - x.n1 else 0,
              if x.b < ctx.batchSize then GetBatchParams(ctx, x.b).curQSBlockNum - x.s1 else 0,
              if x.b < ctx.batchSize then GetBatchParams(ctx, x.b).curKSBlockNum - x.s2 else 0
  {
    if x.b < ctx.batchSize {
      NextIsTame(ctx, x);
      assert Before(x, end) <==> Before(x, end');
      hide BlockWork, Exact, Tame, ValidBlock, ShapeOf, Before, NextBlock;
      RangeByCut(ctx, NextBlock(ctx, x), end, end');
    }
  }
}
