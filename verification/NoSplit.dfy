/** The schedule without KV splitting: tiles are ranked row-major and dealt out in
    contiguous runs; `Locate` turns a rank back into a tile. */
module NoSplit {
  import opened Arith
  import opened Cover
  import opened SplitParams
  import opened FlashDecode

  function BatchTiles(ctx: Context, b: int): int
    requires ctx.Valid() && 0 <= b < ctx.batchSize
  {
    var p := GetBatchParams(ctx, b);
    p.curQNBlockNum * p.curQSBlockNum
  }

  /** Tiles of the first b batches. */
  ghost function TilesBefore(ctx: Context, b: int): int
    requires ctx.Valid() && 0 <= b <= ctx.batchSize
  {
    if b == 0 then 0 else TilesBefore(ctx, b - 1) + BatchTiles(ctx, b - 1)
  }

  predicate ValidTile(ctx: Context, b: int, n1: int, s1: int)
    requires ctx.Valid()
  {
    && 0 <= b < ctx.batchSize
    && 0 <= n1 < GetBatchParams(ctx, b).curQNBlockNum
    && 0 <= s1 < GetBatchParams(ctx, b).curQSBlockNum
  }

  /** Row-major rank of a tile. */
  ghost function Rank(ctx: Context, b: int, n1: int, s1: int): int
    requires ctx.Valid() && 0 <= b < ctx.batchSize
  {
    TilesBefore(ctx, b) + n1 * GetBatchParams(ctx, b).curQSBlockNum + s1
  }

  predicate TileBefore(b: int, n1: int, s1: int, b': int, n1': int, s1': int) {
    b < b' || (b == b' && (n1 < n1' || (n1 == n1' && s1 < s1')))
  }

  lemma {:induction false} TilesGrow(ctx: Context, b: int, b': int)
    requires ctx.Valid() && 0 <= b <= b' <= ctx.batchSize
    ensures 0 <= TilesBefore(ctx, b) <= TilesBefore(ctx, b')
    decreases b'
  {
    if b' > 0 {
      var p := GetBatchParams(ctx, b' - 1);
      MulMono(0, p.curQNBlockNum, p.curQSBlockNum);
      hide GetBatchParams;
      if b < b' { TilesGrow(ctx, b, b' - 1); } else { TilesGrow(ctx, b - 1, b' - 1); }
    }
  }

  /** The rank of a tile lies among the ranks of its batch. */
  lemma RankInBatch(ctx: Context, b: int, n1: int, s1: int)
    requires ctx.Valid() && ValidTile(ctx, b, n1, s1)
    ensures 0 <= TilesBefore(ctx, b) <= Rank(ctx, b, n1, s1) < TilesBefore(ctx, b + 1) <= TilesBefore(ctx, ctx.batchSize)
  {
    var p := GetBatchParams(ctx, b);
    TilesGrow(ctx, b, b);
    TilesGrow(ctx, b + 1, ctx.batchSize);
    assert TilesBefore(ctx, b + 1) == TilesBefore(ctx, b) + p.curQNBlockNum * p.curQSBlockNum;
    hide GetBatchParams, TilesBefore, ValidTile;
    MulMono(0, n1, p.curQSBlockNum);
    MulMono(n1 + 1, p.curQNBlockNum, p.curQSBlockNum);
    assert (n1 + 1) * p.curQSBlockNum == n1 * p.curQSBlockNum + p.curQSBlockNum;
  }

  /** Ranks order the tiles as the nested loops visit them; so different tiles have
      different ranks. */
  lemma RankOrder(ctx: Context, b: int, n1: int, s1: int, b': int, n1': int, s1': int)
    requires ctx.Valid() && ValidTile(ctx, b, n1, s1) && ValidTile(ctx, b', n1', s1')
    requires TileBefore(b, n1, s1, b', n1', s1')
    ensures Rank(ctx, b, n1, s1) < Rank(ctx, b', n1', s1')
  {
    RankInBatch(ctx, b, n1, s1);
    RankInBatch(ctx, b', n1', s1');
    if b < b' {
      TilesGrow(ctx, b + 1, b');
    } else {
      var p := GetBatchParams(ctx, b);
      hide GetBatchParams, TilesBefore;
      if n1 < n1' {
        MulMono(n1 + 1, n1', p.curQSBlockNum);
        assert (n1 + 1) * p.curQSBlockNum == n1 * p.curQSBlockNum + p.curQSBlockNum;
      }
    }
  }

  /** Turn a rank into its tile; a rank past the end yields the last tile. */
  method Locate(ctx: Context, gidx: nat) returns (b: int, n1: int, s1: int, ksBlk: int)
    requires ctx.Valid()
    ensures 0 <= b < ctx.batchSize && ksBlk == GetBatchParams(ctx, b).curKSBlockNum
    ensures gidx < TilesBefore(ctx, ctx.batchSize) ==> ValidTile(ctx, b, n1, s1) && Rank(ctx, b, n1, s1) == gidx
    ensures gidx >= TilesBefore(ctx, ctx.batchSize) ==>
              b == ctx.batchSize - 1
              && n1 == GetBatchParams(ctx, b).curQNBlockNum - 1 && s1 == GetBatchParams(ctx, b).curQSBlockNum - 1
  {
    hide GetBatchParams;
    var acc := 0;
    for i := 0 to ctx.batchSize
      invariant acc == TilesBefore(ctx, i) <= gidx
    {
      var p := GetBatchParams(ctx, i);
      var cnt := p.curQNBlockNum * p.curQSBlockNum;
      if cnt == 0 {
        continue;
      }
      if gidx < acc + cnt {
        var local := gidx - acc;
        LocalTile(local, p.curQNBlockNum, p.curQSBlockNum);
        TilesGrow(ctx, i + 1, ctx.batchSize);
        return i, local / p.curQSBlockNum, local % p.curQSBlockNum, p.curKSBlockNum;
      }
      acc := acc + cnt;
    }
    b := ctx.batchSize - 1;
    var p := GetBatchParams(ctx, b);
    n1, s1, ksBlk := p.curQNBlockNum - 1, p.curQSBlockNum - 1, p.curKSBlockNum;
  }

  lemma LocalTile(local: int, heads: int, rows: int)
    requires 0 <= local < heads * rows && rows >= 0
    ensures rows > 0 && 0 <= local / rows < heads && local == local / rows * rows + local % rows
  {
    assert rows > 0;
    MulLess(local / rows, heads, rows);
  }

  /** A core that holds the tiles of ranks [lo, hi), each with all its keys. */
  ghost predicate IsRun(ctx: Context, c: CoreNode, lo: int, hi: int)
    requires ctx.Valid()
  {
    && ValidTile(ctx, c.startB, c.startN1, c.startS1)
    && ValidTile(ctx, c.endB, c.endN1, c.endS1)
    && c.startS2 == 0 && c.endS2 == GetBatchParams(ctx, c.endB).curKSBlockNum
    && Rank(ctx, c.startB, c.startN1, c.startS1) == lo
    && Rank(ctx, c.endB, c.endN1, c.endS1) == hi - 1
  }

  lemma RankCompares(ctx: Context, b: int, n1: int, s1: int, b': int, n1': int, s1': int)
    requires ctx.Valid() && ValidTile(ctx, b, n1, s1) && ValidTile(ctx, b', n1', s1')
    ensures TileBefore(b, n1, s1, b', n1', s1') <==> Rank(ctx, b, n1, s1) < Rank(ctx, b', n1', s1')
    ensures (b == b' && n1 == n1' && s1 == s1') <==> Rank(ctx, b, n1, s1) == Rank(ctx, b', n1', s1')
  {
    if TileBefore(b, n1, s1, b', n1', s1') {
      RankOrder(ctx, b, n1, s1, b', n1', s1');
    } else if TileBefore(b', n1', s1', b, n1, s1) {
      RankOrder(ctx, b', n1', s1', b, n1, s1);
    }
  }

  lemma BlockTile(ctx: Context, x: Block)
    requires ctx.Valid() && ValidBlock(ShapeOf(ctx), x)
    ensures ValidTile(ctx, x.b, x.n1, x.s1) && 0 <= x.s2 < GetBatchParams(ctx, x.b).curKSBlockNum
  {
  }

  /** The loops of such a core reach exactly the blocks of its tiles. */
  lemma RunCovers(ctx: Context, c: CoreNode, lo: int, hi: int, x: Block)
    requires ctx.Valid() && IsRun(ctx, c, lo, hi) && ValidBlock(ShapeOf(ctx), x)
    ensures Covers(ShapeOf(ctx), c, x) <==> lo <= Rank(ctx, x.b, x.n1, x.s1) < hi
  {
    BlockTile(ctx, x);
    CoversIsInterval(ShapeOf(ctx), c, x);
    RankCompares(ctx, x.b, x.n1, x.s1, c.startB, c.startN1, c.startS1);
    RankCompares(ctx, x.b, x.n1, x.s1, c.endB, c.endN1, c.endS1);
    hide GetBatchParams, Rank, ShapeOf, Covers, ValidTile;
  }

  /** Ranks of core c when every core but the last holds `per` tiles. */
  ghost predicate IsDeal(ctx: Context, cores: seq<CoreNode>, per: int, total: int)
    requires ctx.Valid()
  {
    forall c :: 0 <= c < |cores| ==> IsRun(ctx, cores[c], c * per, Min(c * per + per, total))
  }

  lemma DealOwner(ctx: Context, cores: seq<CoreNode>, per: int, x: Block)
    requires ctx.Valid() && per >= 1 && IsDeal(ctx, cores, per, TilesBefore(ctx, ctx.batchSize))
    requires ValidBlock(ShapeOf(ctx), x)
    ensures forall c :: 0 <= c < |cores| ==>
                          (Covers(ShapeOf(ctx), cores[c], x) <==> c == Rank(ctx, x.b, x.n1, x.s1) / per)
  {
    BlockTile(ctx, x);
    RankInBatch(ctx, x.b, x.n1, x.s1);
    var r, total := Rank(ctx, x.b, x.n1, x.s1), TilesBefore(ctx, ctx.batchSize);
    forall c | 0 <= c < |cores|
      ensures Covers(ShapeOf(ctx), cores[c], x) <==> c == r / per
    {
      RunCovers(ctx, cores[c], c * per, Min(c * per + per, total), x);
      hide GetBatchParams, Rank, ShapeOf, Covers, TilesBefore, IsRun;
      RunIndex(r, per, c);
    }
  }

  lemma RunIndex(r: int, per: int, c: int)
    requires per >= 1
    ensures c * per <= r < c * per + per <==> c == r / per
  {
    assert (c + 1) * per == c * per + per;
    if c * per <= r < c * per + per {
      DivideBetween(r, per, c);
    }
  }

  lemma DealCovers(ctx: Context, cores: seq<CoreNode>, per: int, idle: seq<CoreNode>)
    requires ctx.Valid() && per >= 1 && IsDeal(ctx, cores, per, TilesBefore(ctx, ctx.batchSize))
    requires |cores| * per >= TilesBefore(ctx, ctx.batchSize)
    requires forall c :: 0 <= c < |idle| ==> idle[c] == IDLE
    ensures InOrderCover(ShapeOf(ctx), cores + idle)
  {
    var sh, limit := ShapeOf(ctx), Block(ctx.batchSize, 0, 0, 0);
    forall x | ValidBlock(sh, x)
      ensures exists c :: 0 <= c < |cores| && Covers(sh, cores[c], x)
    {
      var c := OwnerExists(ctx, cores, per, x);
    }
    forall c, d, x, y | 0 <= c < d < |cores| && Covers(sh, cores[c], x) && Covers(sh, cores[d], y)
      ensures Before(x, y)
    {
      OwnersInOrder(ctx, cores, per, c, d, x, y);
    }
    EverythingBefore(ctx);
    hide GetBatchParams, Covers, IsDeal, ShapeOf;
    IdleTail(sh, cores, idle, limit);
  }

  lemma EverythingBefore(ctx: Context)
    requires ctx.Valid()
    ensures forall x :: ValidBlock(ShapeOf(ctx), x) ==> Before(x, Block(ctx.batchSize, 0, 0, 0))
  {
  }

  lemma OwnerExists(ctx: Context, cores: seq<CoreNode>, per: int, x: Block) returns (c: int)
    requires ctx.Valid() && per >= 1 && IsDeal(ctx, cores, per, TilesBefore(ctx, ctx.batchSize))
    requires |cores| * per >= TilesBefore(ctx, ctx.batchSize)
    requires ValidBlock(ShapeOf(ctx), x)
    ensures 0 <= c < |cores| && Covers(ShapeOf(ctx), cores[c], x)
  {
    BlockTile(ctx, x);
    DealOwner(ctx, cores, per, x);
    RankInBatch(ctx, x.b, x.n1, x.s1);
    hide *;
    c := Rank(ctx, x.b, x.n1, x.s1) / per;
    QuotientBelow(Rank(ctx, x.b, x.n1, x.s1), per, |cores|);
  }

  lemma OwnersInOrder(ctx: Context, cores: seq<CoreNode>, per: int, c: int, d: int, x: Block, y: Block)
    requires ctx.Valid() && per >= 1 && IsDeal(ctx, cores, per, TilesBefore(ctx, ctx.batchSize))
    requires 0 <= c < d < |cores|
    requires Covers(ShapeOf(ctx), cores[c], x) && Covers(ShapeOf(ctx), cores[d], y)
    ensures Before(x, y)
  {
    BlockTile(ctx, x);
    BlockTile(ctx, y);
    DealOwner(ctx, cores, per, x);
    DealOwner(ctx, cores, per, y);
    RankCompares(ctx, x.b, x.n1, x.s1, y.b, y.n1, y.s1);
    hide GetBatchParams, Rank, ShapeOf, Covers, IsDeal, ValidTile;
    var r, q := Rank(ctx, x.b, x.n1, x.s1), Rank(ctx, y.b, y.n1, y.s1);
    MulMono(c + 1, d, per);
    RunIndex(r, per, c);
    RunIndex(q, per, d);
    assert (c + 1) * per == c * per + per;
  }

  method CountTiles(ctx: Context) returns (totalTasks: int)
    requires ctx.Valid()
    ensures totalTasks == TilesBefore(ctx, ctx.batchSize) >= 0
  {
    totalTasks := 0;
    for b := 0 to ctx.batchSize
      invariant totalTasks == TilesBefore(ctx, b)
    {
      var p := GetBatchParams(ctx, b);
      totalTasks := totalTasks + p.curQNBlockNum * p.curQSBlockNum;
    }
    TilesGrow(ctx, 0, ctx.batchSize);
  }

  method DealTiles(ctx: Context, coreInfo: array<CoreNode>, totalTasks: int, tasksPerCore: int) returns (used: nat)
    requires ctx.Valid() && coreInfo.Length >= ctx.blockDim
    requires totalTasks == TilesBefore(ctx, ctx.batchSize) && tasksPerCore >= 1
    requires ctx.blockDim * tasksPerCore >= totalTasks
    modifies coreInfo
    ensures used <= ctx.blockDim && used * tasksPerCore >= totalTasks
    ensures IsDeal(ctx, coreInfo[..used], tasksPerCore, totalTasks)
    ensures forall c :: used <= c < coreInfo.Length ==> coreInfo[c] == old(coreInfo[c])
  {
    hide GetBatchParams, TilesBefore, ShapeOf, ValidTile, Rank;
    used := 0;
    DealNothing(ctx, coreInfo[..0], tasksPerCore, totalTasks);
    while used < ctx.blockDim
      invariant used <= ctx.blockDim
      invariant IsDeal(ctx, coreInfo[..used], tasksPerCore, totalTasks)
      invariant forall c :: used <= c < coreInfo.Length ==> coreInfo[c] == old(coreInfo[c])
      decreases ctx.blockDim - used
    {
      var taskLo := used * tasksPerCore;
      MulMono(0, used, tasksPerCore);
      if taskLo >= totalTasks {
        break;
      }
      var taskHi := Min(taskLo + tasksPerCore, totalTasks);
      var b0, n0, s0, ks0 := Locate(ctx, taskLo);
      var b1, n1, s1, ks1 := Locate(ctx, taskHi - 1);
      ghost var cores := coreInfo[..used];
      var core := CoreNode(b0, n0, s0, 0, b1, n1, s1, ks1, 0, 0);
      assert IsRun(ctx, core, taskLo, taskHi);
      hide IsRun;
      coreInfo[used] := core;
      assert coreInfo[..used + 1] == cores + [core];
      DealNext(ctx, cores, core, tasksPerCore, totalTasks);
      used := used + 1;
    }
  }

  /** Fill the table: core c holds the tiles of ranks [c * per, (c + 1) * per), where `per` is
      the number of tiles divided by the number of cores, rounded up. */
  method FillCoreInfoNoSplit(ctx: Context, coreInfo: array<CoreNode>) returns (needCoreNum: nat)
    requires ctx.Valid() && coreInfo.Length >= ctx.blockDim
    modifies coreInfo
    ensures needCoreNum <= ctx.blockDim
    ensures InOrderCover(ShapeOf(ctx), coreInfo[..ctx.blockDim])
    ensures var total := TilesBefore(ctx, ctx.batchSize);
            IsDeal(ctx, coreInfo[..needCoreNum], CeilDiv(total, ctx.blockDim), total)
    ensures forall c :: needCoreNum <= c < ctx.blockDim ==> coreInfo[c] == IDLE
    ensures forall c :: ctx.blockDim <= c < coreInfo.Length ==> coreInfo[c] == old(coreInfo[c])
  {
    ClearCores(coreInfo, ctx.blockDim);
    var totalTasks := CountTiles(ctx);
    if totalTasks == 0 {
      NothingToCover(ctx, coreInfo[..ctx.blockDim]);
      return 0;
    }
    var tasksPerCore := CeilDiv(totalTasks, ctx.blockDim);
    CeilDivBounds(totalTasks, ctx.blockDim);
    needCoreNum := DealTiles(ctx, coreInfo, totalTasks, tasksPerCore);
    hide CeilDiv, IsRun, TilesBefore;
    DealCovers(ctx, coreInfo[..needCoreNum], tasksPerCore, coreInfo[needCoreNum..ctx.blockDim]);
    assert coreInfo[..ctx.blockDim] == coreInfo[..needCoreNum] + coreInfo[needCoreNum..ctx.blockDim];
  }

  lemma DealNothing(ctx: Context, none: seq<CoreNode>, per: int, total: int)
    requires ctx.Valid() && none == []
    ensures IsDeal(ctx, none, per, total)
  {
  }

  lemma DealNext(ctx: Context, cores: seq<CoreNode>, c: CoreNode, per: int, total: int)
    requires ctx.Valid() && IsDeal(ctx, cores, per, total)
    requires IsRun(ctx, c, |cores| * per, Min(|cores| * per + per, total))
    ensures IsDeal(ctx, cores + [c], per, total)
  {
    hide IsRun;
  }

  lemma NothingToCover(ctx: Context, idle: seq<CoreNode>)
    requires ctx.Valid() && TilesBefore(ctx, ctx.batchSize) == 0
    requires forall c :: 0 <= c < |idle| ==> idle[c] == IDLE
    ensures InOrderCover(ShapeOf(ctx), idle)
  {
    forall x | ValidBlock(ShapeOf(ctx), x)
      ensures false
    {
      BlockTile(ctx, x);
      RankInBatch(ctx, x.b, x.n1, x.s1);
    }
    hide GetBatchParams;
    IdleTail(ShapeOf(ctx), [], idle, Block(0, 0, 0, 0));
    assert [] + idle == idle;
  }
}
