/** Row x key work of the blocks of a request, and when the cost estimates of the
    auto schedule equal it. */
module Workload {
  import opened Arith
  import opened Cover
  import opened SplitParams

  const TWO_31 := 0x8000_0000

  ghost function BatchWork(ctx: Context, b: int): int
    requires ctx.Valid() && 0 <= b < ctx.batchSize
  {
    var p := GetBatchParams(ctx, b);
    ctx.numHeads * p.qSeqlen * p.kvSeqlen
  }

  ghost function WorkBefore(ctx: Context, b: int): int
    requires ctx.Valid() && 0 <= b <= ctx.batchSize
  {
    if b == 0 then 0 else WorkBefore(ctx, b - 1) + BatchWork(ctx, b - 1)
  }

  /** The cost estimates are the true work: whole head tiles, no appended keys, no empty
      batch, and no batch whose work leaves the 32-bit range. */
  ghost predicate Exact(ctx: Context) {
    && ctx.Valid()
    && ctx.kvNewSeqlen == 0
    && ctx.numHeads % ctx.numHeadsK == 0
    && forall b :: 0 <= b < ctx.batchSize ==> ExactBatch(ctx, b)
  }

  ghost predicate ExactBatch(ctx: Context, b: int)
    requires ctx.Valid() && 0 <= b < ctx.batchSize
  {
    var p := GetBatchParams(ctx, b);
    && p.qSeqlen >= 1 && p.kvSeqlen >= 1
    && ctx.GroupSize() % p.curQNBlockTile == 0
    && BatchWork(ctx, b) < 0x8000_0000
  }

  function RowsUpTo(p: BatchParams, s1: int): int { p.curQNBlockTile * Min(Q_TILE_CEIL * s1, p.qSeqlen) }

  function KeysUpTo(p: BatchParams, s2: int): int { Min(MAX_KV_STACK_LEN * s2, p.kvSeqlen) }

  /** Rows of query block s1 in one head block. */
  function RowsAt(p: BatchParams, s1: int): int { RowsUpTo(p, s1 + 1) - RowsUpTo(p, s1) }

  /** Work of the blocks before tile (b, n1, s1), in closed form. */
  ghost function TileWork(ctx: Context, b: int, n1: int, s1: int): int
    requires ctx.Valid() && 0 <= b < ctx.batchSize
  {
    var p := GetBatchParams(ctx, b);
    WorkBefore(ctx, b) + (p.curQNBlockTile * p.qSeqlen * n1 + RowsUpTo(p, s1)) * p.kvSeqlen
  }

  /** Work of all blocks before position x, in closed form. */
  ghost function Work(ctx: Context, x: Block): int
    requires ctx.Valid() && 0 <= x.b <= ctx.batchSize
  {
    if x.b == ctx.batchSize then WorkBefore(ctx, x.b)
    else
      var p := GetBatchParams(ctx, x.b);
      TileWork(ctx, x.b, x.n1, x.s1) + RowsAt(p, x.s1) * KeysUpTo(p, x.s2)
  }

  /* The geometry of an exact batch. */

  lemma ExactHeads(ctx: Context, b: int)
    requires Exact(ctx) && 0 <= b < ctx.batchSize
    ensures var p := GetBatchParams(ctx, b); p.curQNBlockNum * p.curQNBlockTile == ctx.numHeads
  {
    hide *;
    ExactGroups(ctx, b);
    HeadBlocks(ctx, b);
    var p := GetBatchParams(ctx, b);
    WholeTiles(ctx.GroupSize(), p.curQNBlockTile);
    Reorder(p.qNBlockNumPerGroup, ctx.numHeadsK, p.curQNBlockTile, ctx.GroupSize());
  }

  lemma ExactGroups(ctx: Context, b: int)
    requires Exact(ctx) && 0 <= b < ctx.batchSize
    ensures ctx.Valid() && ctx.GroupSize() * ctx.numHeadsK == ctx.numHeads
    ensures var p := GetBatchParams(ctx, b); p.curQNBlockTile >= 1 && ctx.GroupSize() % p.curQNBlockTile == 0
  {
    hide GetBatchParams, BatchWork;
    assert ExactBatch(ctx, b);
    assert ctx.numHeads == ctx.numHeads / ctx.numHeadsK * ctx.numHeadsK + ctx.numHeads % ctx.numHeadsK;
  }

  lemma HeadBlocks(ctx: Context, b: int)
    requires ctx.Valid() && 0 <= b < ctx.batchSize
    ensures ctx.GroupSize() >= 1
    ensures var p := GetBatchParams(ctx, b);
            && p.qNBlockNumPerGroup == CeilDiv(ctx.GroupSize(), p.curQNBlockTile)
            && p.curQNBlockNum == p.qNBlockNumPerGroup * ctx.numHeadsK
  {
    GroupIsPositive(ctx);
  }

  lemma ExactBlocks(ctx: Context, b: int)
    requires Exact(ctx) && 0 <= b < ctx.batchSize
    ensures var p := GetBatchParams(ctx, b);
            && p.qSeqlen >= 1 && p.kvSeqlen >= 1
            && p.curQSBlockNum == CeilDiv(p.qSeqlen, Q_TILE_CEIL)
            && p.curKSBlockNum == CeilDiv(p.kvSeqlen, MAX_KV_STACK_LEN)
            && p.curKSBlockTail == p.kvSeqlen - (p.curKSBlockNum - 1) * MAX_KV_STACK_LEN
            && (p.curQSBlockNum > 1 ==> p.curQNBlockTile == 1)
            && (p.qSeqlen <= Q_TILE_CEIL ==> p.qSeqlen * p.curQNBlockTile <= Q_TILE_CEIL)
  {
    hide BatchWork;
    assert ExactBatch(ctx, b);
  }

  lemma WholeTiles(group: int, tile: int)
    requires group >= 1 && tile >= 1 && group % tile == 0
    ensures CeilDiv(group, tile) * tile == group
  {
    var k := group / tile;
    DivideBetween(k * tile + tile - 1, tile, k);
  }

  lemma Reorder(a: int, b: int, t: int, g: int)
    requires a * t == g
    ensures (a * b) * t == g * b
  {
    assert (a * b) * t == (a * t) * b;
  }

  /** Rows and keys of one block, as the cost estimate counts them. */
  function TileRows(p: BatchParams, s1: int): int {
    if s1 < p.curQSBlockNum - 1 then p.curQSBlockTile
    else ToU32((p.qSeqlen - s1 * p.curQSBlockTile) * p.curQNBlockTile)
  }

  function TileKeys(p: BatchParams, s2: int): int {
    if s2 < p.curKSBlockNum - 1 then p.curKSBlockTile else p.curKSBlockTail
  }

  lemma TileRowsExact(ctx: Context, b: int, s1: int)
    requires Exact(ctx) && 0 <= b < ctx.batchSize
    requires 0 <= s1 < GetBatchParams(ctx, b).curQSBlockNum
    ensures var p := GetBatchParams(ctx, b);
            && 1 <= TileRows(p, s1) == RowsAt(p, s1) <= Q_TILE_CEIL
            && RowsUpTo(p, s1) == Q_TILE_CEIL * s1
            && TileRows(p, s1) <= p.curQNBlockTile * p.qSeqlen
  {
    var p := GetBatchParams(ctx, b);
    ExactBlocks(ctx, b);
    hide GetBatchParams;
    hide Exact;
    var t, q := p.curQNBlockTile, p.qSeqlen;
    if p.curQSBlockNum == 1 {
      assert s1 == 0;
      assert RowsUpTo(p, 0) == 0;
      assert RowsUpTo(p, 1) == t * q;
      MulMono(1, t, q);
    } else {
      assert t == 1;
    }
  }

  lemma TileKeysExact(ctx: Context, b: int, s2: int)
    requires Exact(ctx) && 0 <= b < ctx.batchSize
    requires 0 <= s2 < GetBatchParams(ctx, b).curKSBlockNum
    ensures var p := GetBatchParams(ctx, b);
            && 1 <= TileKeys(p, s2) == KeysUpTo(p, s2 + 1) - KeysUpTo(p, s2) <= MAX_KV_STACK_LEN
  {
    ExactBlocks(ctx, b);
    hide GetBatchParams;
    hide Exact;
  }

  lemma WorkAlongKeys(ctx: Context, x: Block, k: int)
    requires ctx.Valid() && 0 <= x.b < ctx.batchSize
    ensures var p := GetBatchParams(ctx, x.b);
            Work(ctx, x.(s2 := k)) - Work(ctx, x) == RowsAt(p, x.s1) * (KeysUpTo(p, k) - KeysUpTo(p, x.s2))
  {
    var p := GetBatchParams(ctx, x.b);
    hide GetBatchParams, TileWork, RowsAt, KeysUpTo;
    Distribute(RowsAt(p, x.s1), KeysUpTo(p, k), KeysUpTo(p, x.s2));
  }

  lemma Distribute(r: int, a: int, b: int)
    ensures r * a - r * b == r * (a - b)
  {
  }

  /** One KV block costs what it holds, at most 128 x 512. */
  lemma KvCost(ctx: Context, x: Block)
    requires Exact(ctx) && ValidBlock(ShapeOf(ctx), x)
    ensures var p := GetBatchParams(ctx, x.b);
            1 <= TileRows(p, x.s1) * TileKeys(p, x.s2)
              == Work(ctx, x.(s2 := x.s2 + 1)) - Work(ctx, x)
              <= Q_TILE_CEIL * MAX_KV_STACK_LEN
  {
    var p := GetBatchParams(ctx, x.b);
    TileRowsExact(ctx, x.b, x.s1);
    TileKeysExact(ctx, x.b, x.s2);
    WorkAlongKeys(ctx, x, x.s2 + 1);
    hide *;
    var r, k := TileRows(p, x.s1), TileKeys(p, x.s2);
    MulMono(1, r, k);
    MulMono(r, Q_TILE_CEIL, k);
  }

  /* Carries of the odometer keep the accumulated work. */

  lemma KeyCarry(ctx: Context, b: int, n1: int, s1: int)
    requires Exact(ctx) && 0 <= b < ctx.batchSize
    requires 0 <= s1 < GetBatchParams(ctx, b).curQSBlockNum
    ensures var p := GetBatchParams(ctx, b);
            && Work(ctx, Block(b, n1, s1, p.curKSBlockNum)) == Work(ctx, Block(b, n1, s1 + 1, 0))
            && Work(ctx, Block(b, n1, s1 + 1, 0)) - Work(ctx, Block(b, n1, s1, 0)) == RowsAt(p, s1) * p.kvSeqlen
  {
    var p := GetBatchParams(ctx, b);
    ExactBlocks(ctx, b);
    AllKeys(p);
    TileStep(ctx, b, n1, s1);
    hide *;
    WorkSplit(ctx, Block(b, n1, s1, p.curKSBlockNum));
    WorkSplit(ctx, Block(b, n1, s1, 0));
    WorkSplit(ctx, Block(b, n1, s1 + 1, 0));
  }

  lemma WorkSplit(ctx: Context, x: Block)
    requires ctx.Valid() && 0 <= x.b < ctx.batchSize
    ensures var p := GetBatchParams(ctx, x.b);
            Work(ctx, x) == TileWork(ctx, x.b, x.n1, x.s1) + RowsAt(p, x.s1) * KeysUpTo(p, x.s2)
  {
  }

  lemma AllKeys(p: BatchParams)
    requires p.kvSeqlen >= 0 && p.curKSBlockNum == CeilDiv(p.kvSeqlen, MAX_KV_STACK_LEN)
    ensures KeysUpTo(p, 0) == 0 && KeysUpTo(p, p.curKSBlockNum) == p.kvSeqlen
  {
  }

  lemma AllRows(p: BatchParams)
    requires p.qSeqlen >= 0 && p.curQSBlockNum == CeilDiv(p.qSeqlen, Q_TILE_CEIL)
    ensures RowsUpTo(p, 0) == 0 && RowsUpTo(p, p.curQSBlockNum) == p.curQNBlockTile * p.qSeqlen
  {
  }

  lemma TileStep(ctx: Context, b: int, n1: int, s1: int)
    requires ctx.Valid() && 0 <= b < ctx.batchSize
    ensures var p := GetBatchParams(ctx, b);
            TileWork(ctx, b, n1, s1 + 1) - TileWork(ctx, b, n1, s1) == RowsAt(p, s1) * p.kvSeqlen
  {
    var p := GetBatchParams(ctx, b);
    hide GetBatchParams, WorkBefore, RowsUpTo;
    var base := p.curQNBlockTile * p.qSeqlen * n1;
    DistributeRight(base + RowsUpTo(p, s1 + 1), base + RowsUpTo(p, s1), p.kvSeqlen);
  }

  lemma DistributeRight(a: int, b: int, r: int)
    ensures a * r - b * r == (a - b) * r
  {
  }

  lemma TileStartWork(ctx: Context, b: int, n1: int, s1: int)
    requires Exact(ctx) && 0 <= b < ctx.batchSize
    ensures Work(ctx, Block(b, n1, s1, 0)) == TileWork(ctx, b, n1, s1)
  {
    var p := GetBatchParams(ctx, b);
    ExactBlocks(ctx, b);
    AllKeys(p);
    WorkSplit(ctx, Block(b, n1, s1, 0));
    hide *;
    assert RowsAt(p, s1) * 0 == 0;
  }

  lemma ExactBatchIn(ctx: Context, b: int)
    requires Exact(ctx) && 0 <= b < ctx.batchSize
    ensures ctx.Valid()
  {
    hide ExactBatch;
  }

  lemma HeadCarry(ctx: Context, b: int, n1: int)
    requires Exact(ctx) && 0 <= b < ctx.batchSize
    ensures var p := GetBatchParams(ctx, b);
            && Work(ctx, Block(b, n1, p.curQSBlockNum, 0)) == Work(ctx, Block(b, n1 + 1, 0, 0))
            && Work(ctx, Block(b, n1, 0, 0)) == WorkBefore(ctx, b) + p.curQNBlockTile * p.qSeqlen * n1 * p.kvSeqlen
  {
    hide *;
    ExactBatchIn(ctx, b);
    var p := GetBatchParams(ctx, b);
    ExactBlocks(ctx, b);
    AllRows(p);
    TileStartWork(ctx, b, n1, p.curQSBlockNum);
    TileStartWork(ctx, b, n1 + 1, 0);
    TileStartWork(ctx, b, n1, 0);
    TileSplit(ctx, b, n1, p.curQSBlockNum);
    TileSplit(ctx, b, n1 + 1, 0);
    TileSplit(ctx, b, n1, 0);
    NextHead(p.curQNBlockTile * p.qSeqlen, n1);
  }

  lemma NextHead(c: int, n: int)
    ensures c * n + c == c * (n + 1)
  {
  }

  lemma TileSplit(ctx: Context, b: int, n1: int, s1: int)
    requires ctx.Valid() && 0 <= b < ctx.batchSize
    ensures var p := GetBatchParams(ctx, b);
            TileWork(ctx, b, n1, s1)
              == WorkBefore(ctx, b) + (p.curQNBlockTile * p.qSeqlen * n1 + RowsUpTo(p, s1)) * p.kvSeqlen
  {
  }

  lemma BatchCarry(ctx: Context, b: int)
    requires Exact(ctx) && 0 <= b < ctx.batchSize
    ensures var p := GetBatchParams(ctx, b);
            && Work(ctx, Block(b, p.curQNBlockNum, 0, 0)) == Work(ctx, Block(b + 1, 0, 0, 0))
            && Work(ctx, Block(b + 1, 0, 0, 0)) == WorkBefore(ctx, b + 1)
            && WorkBefore(ctx, b + 1) == WorkBefore(ctx, b) + BatchWork(ctx, b)
  {
    var p := GetBatchParams(ctx, b);
    HeadCarry(ctx, b, p.curQNBlockNum);
    ExactHeads(ctx, b);
    if b + 1 < ctx.batchSize {
      HeadCarry(ctx, b + 1, 0);
    }
    hide GetBatchParams, Exact;
    Commute3(p.curQNBlockTile, p.qSeqlen, p.curQNBlockNum, ctx.numHeads);
  }

  lemma Commute3(t: int, q: int, n: int, h: int)
    requires n * t == h
    ensures t * q * n == h * q
  {
    assert t * q * n == (n * t) * q;
  }

  /* The costs of whole query blocks, head blocks and batches, as the program computes
     them in wrapped arithmetic, are the work that remains in them. */

  lemma SmallIsUnwrapped(x: int)
    requires 0 <= x < TWO_31
    ensures ToU32(x) == x && ToI32(x) == x && ToI64(x) == x
  {
  }

  lemma HeadRows(ctx: Context, b: int)
    requires Exact(ctx) && 0 <= b < ctx.batchSize
    ensures var p := GetBatchParams(ctx, b);
            && p.curQNBlockTile <= ctx.numHeads
            && p.curQNBlockTile * p.qSeqlen * p.kvSeqlen <= BatchWork(ctx, b) < TWO_31
            && p.curQNBlockTile * p.qSeqlen <= ctx.numHeads * p.qSeqlen <= BatchWork(ctx, b)
  {
    var p := GetBatchParams(ctx, b);
    ExactHeads(ctx, b);
    ExactBlocks(ctx, b);
    assert ExactBatch(ctx, b);
    assert BatchWork(ctx, b) == ctx.numHeads * p.qSeqlen * p.kvSeqlen;
    hide *;
    MulMono(1, p.curQNBlockNum, p.curQNBlockTile);
    MulMono(p.curQNBlockTile, ctx.numHeads, p.qSeqlen);
    MulMono(p.curQNBlockTile * p.qSeqlen, ctx.numHeads * p.qSeqlen, p.kvSeqlen);
    MulMono(1, p.kvSeqlen, ctx.numHeads * p.qSeqlen);
  }

  lemma QueryCost(ctx: Context, x: Block)
    requires Exact(ctx) && 0 <= x.b < ctx.batchSize && x.s2 == 0
    requires 0 <= x.s1 < GetBatchParams(ctx, x.b).curQSBlockNum
    ensures var p := GetBatchParams(ctx, x.b);
            var cost := TileRows(p, x.s1) * p.kvSeqlen;
            && cost == Work(ctx, Block(x.b, x.n1, x.s1 + 1, 0)) - Work(ctx, x)
            && 0 < cost && ToI64(cost) == cost && ToI32(cost) == cost
  {
    var p := GetBatchParams(ctx, x.b);
    TileRowsExact(ctx, x.b, x.s1);
    KeyCarry(ctx, x.b, x.n1, x.s1);
    HeadRows(ctx, x.b);
    ExactBlocks(ctx, x.b);
    var r := TileRows(p, x.s1);
    hide *;
    assert x == Block(x.b, x.n1, x.s1, 0);
    MulMono(r, p.curQNBlockTile * p.qSeqlen, p.kvSeqlen);
    MulMono(1, r, p.kvSeqlen);
    SmallIsUnwrapped(r * p.kvSeqlen);
  }

  lemma RowsLeft(ctx: Context, x: Block)
    requires Exact(ctx) && 0 <= x.b < ctx.batchSize && x.s2 == 0
    requires 0 <= x.s1 < GetBatchParams(ctx, x.b).curQSBlockNum
    ensures var p := GetBatchParams(ctx, x.b);
            && Work(ctx, x) == WorkBefore(ctx, x.b) + (p.curQNBlockTile * p.qSeqlen * x.n1 + Q_TILE_CEIL * x.s1) * p.kvSeqlen
            && Q_TILE_CEIL * x.s1 < p.curQNBlockTile * p.qSeqlen
  {
    var p := GetBatchParams(ctx, x.b);
    TileRowsExact(ctx, x.b, x.s1);
    TileStartWork(ctx, x.b, x.n1, x.s1);
    TileSplit(ctx, x.b, x.n1, x.s1);
    assert RowsUpTo(p, x.s1 + 1) <= p.curQNBlockTile * p.qSeqlen by {
      hide GetBatchParams, Exact, Work, TileWork;
      MulMono(Min(Q_TILE_CEIL * (x.s1 + 1), p.qSeqlen), p.qSeqlen, p.curQNBlockTile);
    }
    hide GetBatchParams, Exact, Work, TileWork;
    assert x == Block(x.b, x.n1, x.s1, 0);
  }

  lemma HeadCost(ctx: Context, x: Block)
    requires Exact(ctx) && 0 <= x.b < ctx.batchSize && x.s2 == 0
    requires 0 <= x.s1 < GetBatchParams(ctx, x.b).curQSBlockNum
    ensures var p := GetBatchParams(ctx, x.b);
            var cost := ToU32(ToU32(p.qSeqlen * p.curQNBlockTile - x.s1 * p.curQSBlockTile) * p.kvSeqlen);
            && cost == Work(ctx, Block(x.b, x.n1 + 1, 0, 0)) - Work(ctx, x)
            && 0 < cost && ToI32(cost) == cost
  {
    var p := GetBatchParams(ctx, x.b);
    RowsLeft(ctx, x);
    HeadRows(ctx, x.b);
    ExactBlocks(ctx, x.b);
    HeadCarry(ctx, x.b, x.n1 + 1);
    var c := p.curQNBlockTile * p.qSeqlen;
    var r := c - Q_TILE_CEIL * x.s1;
    assert p.qSeqlen * p.curQNBlockTile - x.s1 * p.curQSBlockTile == r;
    hide *;
    RestOfHead(c, x.n1, Q_TILE_CEIL * x.s1, p.kvSeqlen);
    Unwrap(r, c, p.kvSeqlen);
  }

  lemma RestOfHead(c: int, n: int, m: int, k: int)
    ensures c * (n + 1) * k - (c * n + m) * k == (c - m) * k
  {
    DistributeRight(c * (n + 1), c * n + m, k);
    NextHead(c, n);
  }

  lemma Unwrap(r: int, c: int, k: int)
    requires 1 <= r <= c && 1 <= k && c * k < TWO_31
    ensures ToU32(ToU32(r) * k) == r * k && ToI32(r * k) == r * k && 0 < r * k
  {
    MulMono(r, c, k);
    MulMono(1, r, k);
    MulMono(1, k, r);
    SmallIsUnwrapped(r);
    SmallIsUnwrapped(r * k);
  }

  lemma BatchCost(ctx: Context, x: Block)
    requires Exact(ctx) && ValidBlock(ShapeOf(ctx), x) && x.s2 == 0
    ensures var p := GetBatchParams(ctx, x.b);
            var cost := ToU32(ToU32(p.qSeqlen * (ctx.numHeads - p.curQNBlockTile * x.n1) - x.s1 * p.curQSBlockTile) * p.kvSeqlen);
            && cost == Work(ctx, Block(x.b + 1, 0, 0, 0)) - Work(ctx, x)
            && 0 < cost && ToI32(cost) == cost
  {
    var p := GetBatchParams(ctx, x.b);
    RowsLeft(ctx, x);
    HeadRows(ctx, x.b);
    ExactHeads(ctx, x.b);
    ExactBlocks(ctx, x.b);
    BatchCarry(ctx, x.b);
    assert p.curQSBlockTile == Q_TILE_CEIL && 0 <= x.n1 < p.curQNBlockNum;
    assert BatchWork(ctx, x.b) == ctx.numHeads * p.qSeqlen * p.kvSeqlen;
    hide *;
    RestOfBatch(p.qSeqlen, ctx.numHeads, p.curQNBlockTile, x.n1, p.curQNBlockNum, Q_TILE_CEIL * x.s1, p.kvSeqlen);
  }

  lemma RestOfBatch(q: int, h: int, t: int, n: int, nb: int, m: int, k: int)
    requires nb * t == h && 0 <= n < nb && q >= 0 && t >= 0
    requires 0 <= m < t * q && 1 <= k && h * q * k < TWO_31
    ensures var r := q * (h - t * n) - m;
            && h * q * k - (t * q * n + m) * k == ToU32(ToU32(r) * k)
            && 0 < ToU32(ToU32(r) * k) && ToI32(ToU32(ToU32(r) * k)) == ToU32(ToU32(r) * k)
  {
    hide *;
    var r := q * (h - t * n) - m;
    RestRows(q, h, t, n, nb);
    assert r == h * q - (t * q * n + m);
    DistributeRight(h * q, t * q * n + m, k);
    Unwrap(r, h * q, k);
  }

  lemma RestRows(q: int, h: int, t: int, n: int, nb: int)
    requires nb * t == h && 0 <= n < nb && q >= 0 && t >= 0
    ensures q * (h - t * n) == h * q - t * q * n
    ensures t * q <= h * q - t * q * n
    ensures t * q * n >= 0
  {
    assert q * (h - t * n) == q * h - q * (t * n);
    assert q * (t * n) == t * q * n;
    MulMono(n + 1, nb, t * q);
    assert nb * (t * q) == (nb * t) * q;
    assert (n + 1) * (t * q) == t * q * n + t * q;
  }
}
