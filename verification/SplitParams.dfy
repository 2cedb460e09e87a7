/** Block geometry of one batch, shared by all schedules of `fa_split.h`. */
module SplitParams {
  import opened Arith
  import opened Cover

  const Q_TILE_CEIL := 128
  const N_SPLIT_HELPER := 2
  const MAX_KV_STACK_LEN := 512

  function Min(a: int, b: int): int { if a < b then a else b }

  function Max(a: int, b: int): int { if a > b then a else b }

  /** Unsigned and signed fixed-width views of an integer (two's complement). */
  function ToU32(x: int): int { x % 0x1_0000_0000 }

  function ToI32(x: int): int {
    var m := x % 0x1_0000_0000;
    if m < 0x8000_0000 then m else m - 0x1_0000_0000
  }

  function ToI64(x: int): int {
    var m := x % 0x1_0000_0000_0000_0000;
    if m < 0x8000_0000_0000_0000 then m else m - 0x1_0000_0000_0000_0000
  }

  /** The request a schedule is made for. `cuSeqlenQ` has one entry more than there are
      batches and is only read when the queries are packed. */
  datatype Context = Context(
    batchSize: nat, numHeads: nat, numHeadsK: nat, seqlenQ: nat, headSizeV: nat,
    cuSeqlenQ: seq<int>, seqlensK: seq<nat>, isVarlenQ: bool,
    blockDim: nat, numSplits: nat, kvNewSeqlen: nat)
  {
    ghost predicate Valid() {
      && batchSize >= 1 && blockDim >= 1
      && 1 <= numHeadsK <= numHeads
      && |seqlensK| == batchSize
      && (isVarlenQ ==> |cuSeqlenQ| == batchSize + 1)
      && (isVarlenQ ==> forall b :: 0 <= b < batchSize ==> cuSeqlenQ[b] <= cuSeqlenQ[b + 1])
    }

    function GroupSize(): nat
      requires numHeadsK >= 1
    {
      numHeads / numHeadsK
    }
  }

  datatype BatchParams = BatchParams(
    qSeqlen: int, kvSeqlen: int,
    curQNBlockTile: int, qNBlockNumPerGroup: int, curQNBlockNum: int,
    curQSBlockTile: int, curQSBlockNum: int,
    curKSBlockTile: int, curKSBlockNum: int, curKSBlockTail: int)

  function CeilDiv(a: int, b: int): int
    requires b >= 1
  {
    (a + b - 1) / b
  }

  lemma TileFits(qSeqlen: nat, groupSize: nat)
    requires groupSize >= 1
    ensures 0 < qSeqlen <= Q_TILE_CEIL ==>
              qSeqlen * Max(Min((Q_TILE_CEIL / qSeqlen) / N_SPLIT_HELPER * N_SPLIT_HELPER, groupSize), 1) <= Q_TILE_CEIL
    ensures qSeqlen >= Q_TILE_CEIL ==> Q_TILE_CEIL / qSeqlen <= 1
  {
    if 0 < qSeqlen <= Q_TILE_CEIL {
      var quotient := Q_TILE_CEIL / qSeqlen;
      QuotientFits(Q_TILE_CEIL, qSeqlen);
      MulMonoLeft(qSeqlen, Max(Min(quotient / N_SPLIT_HELPER * N_SPLIT_HELPER, groupSize), 1), quotient);
    }
    if qSeqlen > Q_TILE_CEIL {
      DivideBetween(Q_TILE_CEIL, qSeqlen, 0);
    }
  }

  lemma QuotientFits(a: int, d: int)
    requires 0 < d <= a
    ensures a / d >= 1 && d * (a / d) <= a
  {
    var q := a / d;
    assert a == d * q + a % d;
    assert q <= 0 ==> d * q <= 0;
  }

  /** No larger even number of heads would fit. */
  lemma TileLargest(qSeqlen: nat)
    ensures qSeqlen >= 1 ==> qSeqlen * ((Q_TILE_CEIL / qSeqlen) / N_SPLIT_HELPER * N_SPLIT_HELPER + 2) > 128
  {
    if qSeqlen >= 1 {
      var q := Q_TILE_CEIL / qSeqlen;
      assert Q_TILE_CEIL == qSeqlen * q + Q_TILE_CEIL % qSeqlen;
      assert q + 1 <= q / N_SPLIT_HELPER * N_SPLIT_HELPER + 2;
      MulMonoLeft(qSeqlen, q + 1, q / N_SPLIT_HELPER * N_SPLIT_HELPER + 2);
      assert qSeqlen * (q + 1) == qSeqlen * q + qSeqlen;
    }
  }

  function GetQNBlockTile(qSeqlen: nat, groupSize: nat): (tile: nat)
    requires groupSize >= 1
    ensures 1 <= tile <= groupSize
    ensures qSeqlen <= Q_TILE_CEIL ==> qSeqlen * tile <= Q_TILE_CEIL
    ensures qSeqlen >= Q_TILE_CEIL ==> tile == 1
    ensures qSeqlen >= 1 && 1 < tile < groupSize ==> tile % 2 == 0 && qSeqlen * (tile + 2) > 128
    ensures qSeqlen >= 1 && tile == 1 < groupSize ==> qSeqlen * 2 > 128
    ensures qSeqlen == 0 ==> tile == (if groupSize < 128 then groupSize else 128)
  {
    TileLargest(qSeqlen);
    var rows := if qSeqlen != 0 then (Q_TILE_CEIL / qSeqlen) / N_SPLIT_HELPER * N_SPLIT_HELPER else Q_TILE_CEIL;
    TileFits(qSeqlen, groupSize);
    var tile := Max(Min(rows, groupSize), 1);
    tile
  }

  function GetBatchParams(ctx: Context, b: int): (p: BatchParams)
    requires ctx.Valid() && 0 <= b < ctx.batchSize
    ensures p.qSeqlen >= 0 && p.kvSeqlen >= 0
    ensures p.curQSBlockTile == Q_TILE_CEIL && p.curKSBlockTile == MAX_KV_STACK_LEN
    ensures 1 <= p.curQNBlockTile && 1 <= p.qNBlockNumPerGroup
    ensures p.curQNBlockNum >= 1
    ensures p.curQSBlockNum >= 0 && (p.curQSBlockNum == 0 <==> p.qSeqlen == 0)
    ensures p.curKSBlockNum >= 0 && (p.curKSBlockNum == 0 <==> p.kvSeqlen == 0)
  {
    var qSeqlen := if ctx.isVarlenQ then ctx.cuSeqlenQ[b + 1] - ctx.cuSeqlenQ[b] else ctx.seqlenQ;
    var kvSeqlen := ctx.seqlensK[b] + ctx.kvNewSeqlen;
    var groupSize := ctx.GroupSize();
    GroupIsPositive(ctx);
    var curQNBlockTile := GetQNBlockTile(qSeqlen, groupSize);
    var qNBlockNumPerGroup := CeilDiv(groupSize, curQNBlockTile);
    CeilDivPositive(groupSize, curQNBlockTile);
    var kvSeqlenOld := kvSeqlen - ctx.kvNewSeqlen;
    var kvSBlockNumOld := CeilDiv(kvSeqlenOld, MAX_KV_STACK_LEN);
    var kvSBlockNumNew := if ctx.kvNewSeqlen != 0 then CeilDiv(ctx.kvNewSeqlen, MAX_KV_STACK_LEN) else 0;
    var tail := if kvSBlockNumNew != 0 then ctx.kvNewSeqlen - (kvSBlockNumNew - 1) * MAX_KV_STACK_LEN
                else if kvSBlockNumOld != 0 then kvSeqlenOld - (kvSBlockNumOld - 1) * MAX_KV_STACK_LEN
                else 0;
    PositiveProduct(qNBlockNumPerGroup, ctx.numHeadsK);
    BatchParams(qSeqlen, kvSeqlen,
                curQNBlockTile, qNBlockNumPerGroup, qNBlockNumPerGroup * ctx.numHeadsK,
                Q_TILE_CEIL, CeilDiv(qSeqlen, Q_TILE_CEIL),
                MAX_KV_STACK_LEN, kvSBlockNumOld + kvSBlockNumNew, tail)
  }

  /** The block space of a request. */
  ghost function ShapeOf(ctx: Context): (sh: Shape)
    requires ctx.Valid()
    ensures WellShaped(sh) && |sh.n1| == ctx.batchSize
    ensures forall b :: 0 <= b < ctx.batchSize ==> sh.n1[b] >= 1 && sh.s1[b] >= 0 && sh.s2[b] >= 0
  {
    Shape(seq(ctx.batchSize, b requires 0 <= b < ctx.batchSize => GetBatchParams(ctx, b).curQNBlockNum),
          seq(ctx.batchSize, b requires 0 <= b < ctx.batchSize => GetBatchParams(ctx, b).curQSBlockNum),
          seq(ctx.batchSize, b requires 0 <= b < ctx.batchSize => GetBatchParams(ctx, b).curKSBlockNum))
  }

  lemma GroupIsPositive(ctx: Context)
    requires ctx.Valid()
    ensures ctx.GroupSize() >= 1
  {
    assert ctx.numHeads / ctx.numHeadsK >= 1;
  }

  lemma CeilDivPositive(a: int, b: int)
    requires a >= 1 && b >= 1
    ensures CeilDiv(a, b) >= 1
  {
  }

  lemma PositiveProduct(a: int, b: int)
    requires a >= 1 && b >= 1
    ensures a * b >= 1
  {
  }
}
