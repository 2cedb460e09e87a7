/** The forced schedule: every tile's keys are cut into the requested number of segments,
    one core per segment. */
module ForcedSplit {
  import opened Arith
  import opened Cover
  import opened SplitParams
  import opened FlashDecode

  function BlocksPerSplit(ctx: Context, b: int): (per: int)
    requires ctx.Valid() && ctx.numSplits >= 1 && 0 <= b < ctx.batchSize
    ensures per >= 1
  {
    Max(CeilDiv(GetBatchParams(ctx, b).curKSBlockNum, ctx.numSplits), 1)
  }

  /** Number of segments of one tile of batch b. */
  function ActualSplits(ctx: Context, b: int): int
    requires ctx.Valid() && ctx.numSplits >= 1 && 0 <= b < ctx.batchSize
  {
    CeilDiv(GetBatchParams(ctx, b).curKSBlockNum, BlocksPerSplit(ctx, b))
  }

  /** Number of segments of the first b batches. */
  ghost function Segments(ctx: Context, b: int): int
    requires ctx.Valid() && ctx.numSplits >= 1 && 0 <= b <= ctx.batchSize
  {
    if b == 0 then 0
    else
      var p := GetBatchParams(ctx, b - 1);
      Segments(ctx, b - 1) + p.curQNBlockNum * p.curQSBlockNum * ActualSplits(ctx, b - 1)
  }

  method CountForceSplitSegments(ctx: Context) returns (totalSegs: int)
    requires ctx.Valid() && ctx.numSplits >= 1
    ensures totalSegs == Segments(ctx, ctx.batchSize)
  {
    hide *;
    totalSegs := 0;
    NoSegments(ctx);
    for b := 0 to ctx.batchSize
      invariant totalSegs == Segments(ctx, b)
    {
      NextSegments(ctx, b);
      var p := GetBatchParams(ctx, b);
      if p.curKSBlockNum == 0 {
        continue;
      }
      var blocksPerSplit := CeilDiv(p.curKSBlockNum, ctx.numSplits);
      if blocksPerSplit == 0 {
        blocksPerSplit := 1;
      }
      var actualSplits := CeilDiv(p.curKSBlockNum, blocksPerSplit);
      totalSegs := totalSegs + p.curQNBlockNum * p.curQSBlockNum * actualSplits;
    }
  }

  lemma NoSegments(ctx: Context)
    requires ctx.Valid() && ctx.numSplits >= 1
    ensures Segments(ctx, 0) == 0
  {
  }

  lemma NextSegments(ctx: Context, b: int)
    requires ctx.Valid() && ctx.numSplits >= 1 && 0 <= b < ctx.batchSize
    ensures var p := GetBatchParams(ctx, b);
            var per := CeilDiv(p.curKSBlockNum, ctx.numSplits);
            && per >= 0 && (per == 0 <==> p.curKSBlockNum == 0)
            && Segments(ctx, b + 1) == if p.curKSBlockNum == 0 then Segments(ctx, b)
                                       else Segments(ctx, b) + p.curQNBlockNum * p.curQSBlockNum * CeilDiv(p.curKSBlockNum, per)
  {
    var p := GetBatchParams(ctx, b);
    CeilDivBounds(p.curKSBlockNum, ctx.numSplits);
    hide GetBatchParams;
    assert p.curKSBlockNum == 0 ==> ActualSplits(ctx, b) == 0;
  }

  /** A non-empty tile gets between one and `numSplits` segments. */
  lemma SplitsBound(ctx: Context, b: int)
    requires ctx.Valid() && ctx.numSplits >= 1 && 0 <= b < ctx.batchSize
    ensures var ks := GetBatchParams(ctx, b).curKSBlockNum;
            && (ks == 0 ==> ActualSplits(ctx, b) == 0)
            && (ks > 0 ==> 1 <= ActualSplits(ctx, b) <= ctx.numSplits)
            && (ks > 0 ==> (ActualSplits(ctx, b) - 1) * BlocksPerSplit(ctx, b) < ks <= ActualSplits(ctx, b) * BlocksPerSplit(ctx, b))
  {
    var ks, per, m := GetBatchParams(ctx, b).curKSBlockNum, BlocksPerSplit(ctx, b), ctx.numSplits;
    CeilDivBounds(ks, per);
    CeilDivBounds(ks, m);
    hide GetBatchParams;
    if ks > 0 {
      var a := ActualSplits(ctx, b);
      assert (a - 1) * per < ks <= per * m;
      MulLess(a - 1, m, per);
    }
  }

  /** The tile is cut into as many segments as its blocks need, p blocks at a time, p being the
      number of blocks divided by the requested number of splits, rounded up. */
  lemma SplitsAreEven(ctx: Context, b: int, p: int)
    requires ctx.Valid() && ctx.numSplits >= 1 && 0 <= b < ctx.batchSize
    requires (p - 1) * ctx.numSplits < GetBatchParams(ctx, b).curKSBlockNum <= p * ctx.numSplits
    requires GetBatchParams(ctx, b).curKSBlockNum > 0
    ensures p == BlocksPerSplit(ctx, b)
    ensures (ActualSplits(ctx, b) - 1) * p < GetBatchParams(ctx, b).curKSBlockNum <= ActualSplits(ctx, b) * p
  {
    var ks, m := GetBatchParams(ctx, b).curKSBlockNum, ctx.numSplits;
    CeilDivBounds(ks, m);
    SplitsBound(ctx, b);
    hide GetBatchParams, ActualSplits;
    var q := CeilDiv(ks, m);
    MulLess(p - 1, q, m);
    MulLess(q - 1, p, m);
  }

  /** One core with one non-empty segment of one tile. */
  ghost predicate IsSegment(ctx: Context, c: CoreNode)
    requires ctx.Valid() && ctx.numSplits >= 1
  {
    && 0 <= c.startB == c.endB < ctx.batchSize
    && c.startN1 == c.endN1 && c.startS1 == c.endS1
    && ValidBlock(ShapeOf(ctx), Start(c))
    && c.startS2 % BlocksPerSplit(ctx, c.startB) == 0
    && c.endS2 == Min(c.startS2 + BlocksPerSplit(ctx, c.startB), GetBatchParams(ctx, c.startB).curKSBlockNum)
  }

  /** A segment of a tile: no longer than the requested number of equal parts asks for, and no
      shorter unless it is the last one of its tile. */
  ghost predicate EvenSegment(ctx: Context, c: CoreNode)
    requires ctx.Valid()
  {
    && 0 <= c.startB == c.endB < ctx.batchSize && c.startN1 == c.endN1 && c.startS1 == c.endS1
    && var ks, length := GetBatchParams(ctx, c.startB).curKSBlockNum, c.endS2 - c.startS2;
       && 0 <= c.startS2 < c.endS2 <= ks
       && (length - 1) * ctx.numSplits < ks
       && (c.endS2 < ks ==> ks <= length * ctx.numSplits)
  }

  lemma SegmentIsEven(ctx: Context, c: CoreNode)
    requires ctx.Valid() && ctx.numSplits >= 1 && IsSegment(ctx, c)
    ensures EvenSegment(ctx, c)
  {
    var ks, m, per := GetBatchParams(ctx, c.startB).curKSBlockNum, ctx.numSplits, BlocksPerSplit(ctx, c.startB);
    assert 0 <= c.startS2 < ks;
    CeilDivBounds(ks, m);
    assert (per - 1) * m < ks <= per * m;
    hide GetBatchParams, BlocksPerSplit, ShapeOf;
    MulMono(c.endS2 - c.startS2 - 1, per - 1, m);
  }

  ghost predicate AllSegments(ctx: Context, cores: seq<CoreNode>)
    requires ctx.Valid() && ctx.numSplits >= 1
  {
    forall c :: 0 <= c < |cores| ==> IsSegment(ctx, cores[c])
  }

  /** State of the table while the tiles before `limit` are done. */
  ghost predicate Done(ctx: Context, cores: seq<CoreNode>, limit: Block, count: int)
    requires ctx.Valid() && ctx.numSplits >= 1
  {
    && |cores| == count
    && PrefixCover(ShapeOf(ctx), cores, limit)
    && AllSegments(ctx, cores)
  }

  lemma DoneNext(ctx: Context, cores: seq<CoreNode>, c: CoreNode, limit: Block, limit': Block, count: int)
    requires ctx.Valid() && ctx.numSplits >= 1 && Done(ctx, cores, limit, count)
    requires IsSegment(ctx, c) && Start(c) == limit && limit' == limit.(s2 := c.endS2)
    ensures Done(ctx, cores + [c], limit', count + 1)
  {
    hide GetBatchParams, BlocksPerSplit;
    assert limit.s2 <= limit'.s2;
    ExtendCover(ShapeOf(ctx), cores, c, limit, limit');
  }

  lemma DoneMoves(ctx: Context, cores: seq<CoreNode>, limit: Block, limit': Block, count: int)
    requires ctx.Valid() && ctx.numSplits >= 1 && Done(ctx, cores, limit, count)
    requires SameCut(ShapeOf(ctx), limit, limit')
    ensures Done(ctx, cores, limit', count)
  {
    hide GetBatchParams, BlocksPerSplit, AllSegments;
  }

  lemma SegmentStart(ctx: Context, core: CoreNode, b: int, n1: int, s1: int)
    requires ctx.Valid() && 0 <= b < ctx.batchSize && ValidBlock(ShapeOf(ctx), Block(b, n1, s1, 0))
    requires core.startB == b && core.startN1 == n1 && core.startS1 == s1
    requires 0 <= core.startS2 < GetBatchParams(ctx, b).curKSBlockNum
    ensures Start(core) == Block(b, n1, s1, core.startS2) && ValidBlock(ShapeOf(ctx), Start(core))
  {
    hide GetBatchParams;
  }

  /** Give one segment of a tile to the next core. */
  method ForceSegment(ctx: Context, coreInfo: array<CoreNode>, b: int, n1: int, s1: int, segStart: int, segEnd: int, next: nat,
                      ghost j: int, ghost fits: bool)
    requires ctx.Valid() && ctx.numSplits >= 1 && 0 <= b < ctx.batchSize && next < coreInfo.Length
    requires ValidBlock(ShapeOf(ctx), Block(b, n1, s1, 0)) && 0 <= segStart < GetBatchParams(ctx, b).curKSBlockNum
    requires IsMultiple(segStart, j, BlocksPerSplit(ctx, b)) && 0 <= j
    requires segEnd == Min(segStart + BlocksPerSplit(ctx, b), GetBatchParams(ctx, b).curKSBlockNum)
    requires fits ==> Done(ctx, coreInfo[..next], Block(b, n1, s1, segStart), next)
    modifies coreInfo
    ensures fits ==> Done(ctx, coreInfo[..next + 1], Block(b, n1, s1, segEnd), next + 1)
    ensures forall c :: 0 <= c < coreInfo.Length && c != next ==> coreInfo[c] == old(coreInfo[c])
  {
    hide *;
    ghost var before := coreInfo[..next];
    var core := CoreNode(b, n1, s1, segStart, b, n1, s1, segEnd, 0, 0);
    coreInfo[next] := core;
    if fits {
      SegmentStart(ctx, core, b, n1, s1);
      SegmentHere(ctx, core, j);
      DoneNext(ctx, before, core, Block(b, n1, s1, segStart), Block(b, n1, s1, segEnd), next);
      assert coreInfo[..next + 1] == before + [core];
    }
  }

  lemma MinIs(a: int, b: int)
    ensures Min(a, b) == if a < b then a else b
  {
  }

  /** The segments of one tile. */
  method ForceTile(ctx: Context, coreInfo: array<CoreNode>, b: int, n1: int, s1: int, count: nat, ghost fits: bool)
    returns (next: nat)
    requires ctx.Valid() && ctx.numSplits >= 1 && 0 <= b < ctx.batchSize
    requires ValidBlock(ShapeOf(ctx), Block(b, n1, s1, 0))
    requires coreInfo.Length >= ctx.blockDim && count <= ctx.blockDim
    requires fits ==> count + ActualSplits(ctx, b) <= ctx.blockDim
    requires fits ==> Done(ctx, coreInfo[..count], Block(b, n1, s1, 0), count)
    modifies coreInfo
    ensures count <= next <= ctx.blockDim
    ensures fits ==> next == count + ActualSplits(ctx, b)
    ensures fits ==> Done(ctx, coreInfo[..next], Block(b, n1, s1, GetBatchParams(ctx, b).curKSBlockNum), next)
    ensures forall c :: next <= c < coreInfo.Length ==> coreInfo[c] == old(coreInfo[c])
  {
    hide *;
    var blocks, per := GetBatchParams(ctx, b).curKSBlockNum, BlocksPerSplit(ctx, b);
    SegmentIndex(ctx, b, 0, 0);
    MinIs(0, blocks);
    next := count;
    var segStart := 0;
    ghost var j := 0;
    while segStart < blocks
      invariant count <= next <= ctx.blockDim
      invariant 0 <= segStart && IsMultiple(segStart, j, per) && 0 <= j <= ActualSplits(ctx, b)
      invariant fits ==> next == count + j
      invariant fits ==> Done(ctx, coreInfo[..next], Block(b, n1, s1, Min(segStart, blocks)), next)
      invariant forall c :: next <= c < coreInfo.Length ==> coreInfo[c] == old(coreInfo[c])
      decreases blocks - segStart
    {
      var segEnd := Min(segStart + per, blocks);
      SegmentIndex(ctx, b, segStart, j);
      MinIs(segStart, blocks);
      MinIs(segStart + per, blocks);
      if next >= ctx.blockDim {
        break;
      }
      ForceSegment(ctx, coreInfo, b, n1, s1, segStart, segEnd, next, j, fits);
      next := next + 1;
      j := j + 1;
      segStart := segStart + per;
    }
    SegmentIndex(ctx, b, segStart, j);
    MinIs(segStart, blocks);
  }

  ghost predicate IsMultiple(x: int, j: int, per: int) { x == j * per }

  /** The j-th segment exists exactly while its start is before the end of the keys. */
  lemma SegmentIndex(ctx: Context, b: int, segStart: int, j: int)
    requires ctx.Valid() && ctx.numSplits >= 1 && 0 <= b < ctx.batchSize
    requires 0 <= j && (segStart == j == 0 || IsMultiple(segStart, j, BlocksPerSplit(ctx, b)))
    ensures 0 <= ActualSplits(ctx, b) && IsMultiple(segStart, j, BlocksPerSplit(ctx, b))
    ensures segStart < GetBatchParams(ctx, b).curKSBlockNum <==> j < ActualSplits(ctx, b)
    ensures IsMultiple(segStart + BlocksPerSplit(ctx, b), j + 1, BlocksPerSplit(ctx, b))
    ensures BlocksPerSplit(ctx, b) >= 1 && GetBatchParams(ctx, b).curKSBlockNum >= 0
  {
    var blocks, per, a := GetBatchParams(ctx, b).curKSBlockNum, BlocksPerSplit(ctx, b), ActualSplits(ctx, b);
    SplitsBound(ctx, b);
    hide GetBatchParams, BlocksPerSplit, ActualSplits;
    assert (j + 1) * per == j * per + per;
    if blocks > 0 {
      if j < a { MulMono(j, a - 1, per); } else { MulMono(a, j, per); }
    } else {
      MulMono(0, j, per);
    }
  }

  lemma SegmentHere(ctx: Context, c: CoreNode, j: int)
    requires ctx.Valid() && ctx.numSplits >= 1 && 0 <= c.startB == c.endB < ctx.batchSize
    requires c.startN1 == c.endN1 && c.startS1 == c.endS1 && ValidBlock(ShapeOf(ctx), Start(c))
    requires 0 <= j && IsMultiple(c.startS2, j, BlocksPerSplit(ctx, c.startB))
    requires c.endS2 == Min(c.startS2 + BlocksPerSplit(ctx, c.startB), GetBatchParams(ctx, c.startB).curKSBlockNum)
    ensures IsSegment(ctx, c)
  {
    hide GetBatchParams, BlocksPerSplit, ShapeOf;
    DivideBetween(c.startS2, BlocksPerSplit(ctx, c.startB), j);
  }

  /** The tiles of one head block. */
  method ForceHead(ctx: Context, coreInfo: array<CoreNode>, b: int, n1: int, count: nat, ghost fits: bool)
    returns (next: nat)
    requires ctx.Valid() && ctx.numSplits >= 1 && 0 <= b < ctx.batchSize
    requires 0 <= n1 < GetBatchParams(ctx, b).curQNBlockNum && GetBatchParams(ctx, b).curKSBlockNum > 0
    requires coreInfo.Length >= ctx.blockDim && count <= ctx.blockDim
    requires fits ==> count + GetBatchParams(ctx, b).curQSBlockNum * ActualSplits(ctx, b) <= ctx.blockDim
    requires fits ==> Done(ctx, coreInfo[..count], Block(b, n1, 0, 0), count)
    modifies coreInfo
    ensures count <= next <= ctx.blockDim
    ensures fits ==> next == count + GetBatchParams(ctx, b).curQSBlockNum * ActualSplits(ctx, b)
    ensures fits ==> Done(ctx, coreInfo[..next], Block(b, n1 + 1, 0, 0), next)
    ensures forall c :: next <= c < coreInfo.Length ==> coreInfo[c] == old(coreInfo[c])
  {
    var tiles, blocks := GetBatchParams(ctx, b).curQSBlockNum, GetBatchParams(ctx, b).curKSBlockNum;
    ghost var a := ActualSplits(ctx, b);
    SplitsBound(ctx, b);
    TileIsValid(ctx, b, n1);
    hide Done, GetBatchParams, ActualSplits, ShapeOf;
    next := count;
    for s1 := 0 to tiles
      invariant count <= next <= ctx.blockDim
      invariant fits ==> next == count + s1 * a
      invariant fits ==> Done(ctx, coreInfo[..next], Block(b, n1, s1, 0), next)
      invariant forall c :: next <= c < coreInfo.Length ==> coreInfo[c] == old(coreInfo[c])
    {
      MulMono(s1 + 1, tiles, a);
      assert (s1 + 1) * a == s1 * a + a;
      next := ForceTile(ctx, coreInfo, b, n1, s1, next, fits);
      if fits {
        NextTileCut(ctx, b, n1, s1);
        DoneMoves(ctx, coreInfo[..next], Block(b, n1, s1, blocks), Block(b, n1, s1 + 1, 0), next);
      }
    }
    if fits {
      NextHeadCut(ctx, b, n1);
      DoneMoves(ctx, coreInfo[..next], Block(b, n1, tiles, 0), Block(b, n1 + 1, 0, 0), next);
    }
  }

  lemma TileIsValid(ctx: Context, b: int, n1: int)
    requires ctx.Valid() && 0 <= b < ctx.batchSize
    requires 0 <= n1 < GetBatchParams(ctx, b).curQNBlockNum && GetBatchParams(ctx, b).curKSBlockNum > 0
    ensures forall s1 {:trigger Block(b, n1, s1, 0)} :: 0 <= s1 < GetBatchParams(ctx, b).curQSBlockNum ==> ValidBlock(ShapeOf(ctx), Block(b, n1, s1, 0))
  {
  }

  lemma NextTileCut(ctx: Context, b: int, n1: int, s1: int)
    requires ctx.Valid() && 0 <= b < ctx.batchSize
    ensures SameCut(ShapeOf(ctx), Block(b, n1, s1, GetBatchParams(ctx, b).curKSBlockNum), Block(b, n1, s1 + 1, 0))
  {
  }

  lemma NextHeadCut(ctx: Context, b: int, n1: int)
    requires ctx.Valid() && 0 <= b < ctx.batchSize
    ensures SameCut(ShapeOf(ctx), Block(b, n1, GetBatchParams(ctx, b).curQSBlockNum, 0), Block(b, n1 + 1, 0, 0))
  {
  }

  lemma NextBatchCut(ctx: Context, b: int)
    requires ctx.Valid() && 0 <= b < ctx.batchSize
    ensures SameCut(ShapeOf(ctx), Block(b, GetBatchParams(ctx, b).curQNBlockNum, 0, 0), Block(b + 1, 0, 0, 0))
    ensures GetBatchParams(ctx, b).curKSBlockNum == 0 ==> SameCut(ShapeOf(ctx), Block(b, 0, 0, 0), Block(b + 1, 0, 0, 0))
  {
  }

  /** The tiles of one batch. */
  method ForceBatch(ctx: Context, coreInfo: array<CoreNode>, b: int, count: nat, ghost fits: bool) returns (next: nat)
    requires ctx.Valid() && ctx.numSplits >= 1 && 0 <= b < ctx.batchSize
    requires GetBatchParams(ctx, b).curKSBlockNum > 0
    requires coreInfo.Length >= ctx.blockDim && count <= ctx.blockDim
    requires fits ==> count + BatchSegments(ctx, b) <= ctx.blockDim
    requires fits ==> Done(ctx, coreInfo[..count], Block(b, 0, 0, 0), count)
    modifies coreInfo
    ensures count <= next <= ctx.blockDim
    ensures fits ==> next == count + BatchSegments(ctx, b)
    ensures fits ==> Done(ctx, coreInfo[..next], Block(b + 1, 0, 0, 0), next)
    ensures forall c :: next <= c < coreInfo.Length ==> coreInfo[c] == old(coreInfo[c])
  {
    var heads, tiles := GetBatchParams(ctx, b).curQNBlockNum, GetBatchParams(ctx, b).curQSBlockNum;
    ghost var perHead := tiles * ActualSplits(ctx, b);
    SplitsBound(ctx, b);
    assert perHead >= 0 by { MulMono(0, tiles, ActualSplits(ctx, b)); }
    assert BatchSegments(ctx, b) == heads * perHead by { MulAssoc(heads, tiles, ActualSplits(ctx, b)); }
    hide Done, ActualSplits, ShapeOf, GetBatchParams, BatchSegments;
    next := count;
    for n1 := 0 to heads
      invariant count <= next <= ctx.blockDim
      invariant fits ==> next == count + n1 * perHead
      invariant fits ==> Done(ctx, coreInfo[..next], Block(b, n1, 0, 0), next)
      invariant forall c :: next <= c < coreInfo.Length ==> coreInfo[c] == old(coreInfo[c])
    {
      MulMono(n1 + 1, heads, perHead);
      assert (n1 + 1) * perHead == n1 * perHead + perHead;
      next := ForceHead(ctx, coreInfo, b, n1, next, fits);
    }
    if fits {
      NextBatchCut(ctx, b);
      DoneMoves(ctx, coreInfo[..next], Block(b, heads, 0, 0), Block(b + 1, 0, 0, 0), next);
    }
  }

  lemma MulAssoc(a: int, b: int, c: int)
    ensures a * b * c == a * (b * c)
  {
  }

  ghost function BatchSegments(ctx: Context, b: int): int
    requires ctx.Valid() && ctx.numSplits >= 1 && 0 <= b < ctx.batchSize
  {
    var p := GetBatchParams(ctx, b);
    p.curQNBlockNum * p.curQSBlockNum * ActualSplits(ctx, b)
  }

  lemma {:induction false} SegmentsGrow(ctx: Context, b: int, b': int)
    requires ctx.Valid() && ctx.numSplits >= 1 && 0 <= b <= b' <= ctx.batchSize
    ensures 0 <= Segments(ctx, b) <= Segments(ctx, b')
    decreases b'
  {
    if b' > 0 {
      SplitsBound(ctx, b' - 1);
      var p := GetBatchParams(ctx, b' - 1);
      MulMono(0, p.curQNBlockNum, p.curQSBlockNum);
      MulMono(0, p.curQNBlockNum * p.curQSBlockNum, ActualSplits(ctx, b' - 1));
      hide GetBatchParams, ActualSplits;
      if b < b' { SegmentsGrow(ctx, b, b' - 1); } else { SegmentsGrow(ctx, b - 1, b' - 1); }
    }
  }

  /** Fill the table. When the segments fit the cores, no segment is lost: the break at a
      full table is never taken, and the segments cover the space in order. */
  method FillCoreInfoForceSplit(ctx: Context, coreInfo: array<CoreNode>) returns (needCoreNum: nat)
    requires ctx.Valid() && ctx.numSplits >= 1 && coreInfo.Length >= ctx.blockDim
    modifies coreInfo
    ensures needCoreNum <= ctx.blockDim
    ensures Segments(ctx, ctx.batchSize) <= ctx.blockDim ==>
              && needCoreNum == Segments(ctx, ctx.batchSize)
              && InOrderCover(ShapeOf(ctx), coreInfo[..ctx.blockDim])
              && AllSegments(ctx, coreInfo[..needCoreNum])
              && forall c :: 0 <= c < needCoreNum ==> EvenSegment(ctx, coreInfo[c])
    ensures forall c :: needCoreNum <= c < ctx.blockDim ==> coreInfo[c] == IDLE
    ensures forall c :: ctx.blockDim <= c < coreInfo.Length ==> coreInfo[c] == old(coreInfo[c])
  {
    ClearCores(coreInfo, ctx.blockDim);
    ghost var fits := Segments(ctx, ctx.batchSize) <= ctx.blockDim;
    needCoreNum := 0;
    assert Done(ctx, coreInfo[..0], Block(0, 0, 0, 0), 0) by { DoneNothing(ctx, coreInfo[..0]); }
    for b := 0 to ctx.batchSize
      invariant needCoreNum <= ctx.blockDim
      invariant fits ==> needCoreNum == Segments(ctx, b)
      invariant fits ==> Done(ctx, coreInfo[..needCoreNum], Block(b, 0, 0, 0), needCoreNum)
      invariant forall c :: needCoreNum <= c < ctx.blockDim ==> coreInfo[c] == IDLE
      invariant forall c :: ctx.blockDim <= c < coreInfo.Length ==> coreInfo[c] == old(coreInfo[c])
    {
      hide Done, ActualSplits, ShapeOf, IsSegment, EvenSegment;
      SegmentsGrow(ctx, b + 1, ctx.batchSize);
      assert Segments(ctx, b + 1) == Segments(ctx, b) + BatchSegments(ctx, b);
      SplitsBound(ctx, b);
      if GetBatchParams(ctx, b).curKSBlockNum == 0 {
        hide GetBatchParams;
        if fits {
          NextBatchCut(ctx, b);
          DoneMoves(ctx, coreInfo[..needCoreNum], Block(b, 0, 0, 0), Block(b + 1, 0, 0, 0), needCoreNum);
        }
        assert BatchSegments(ctx, b) == 0;
        continue;
      }
      hide GetBatchParams, BatchSegments;
      needCoreNum := ForceBatch(ctx, coreInfo, b, needCoreNum, fits);
    }
    if fits {
      AllDone(ctx, coreInfo[..needCoreNum], coreInfo[needCoreNum..ctx.blockDim], needCoreNum);
      assert coreInfo[..ctx.blockDim] == coreInfo[..needCoreNum] + coreInfo[needCoreNum..ctx.blockDim];
      AllEven(ctx, coreInfo[..needCoreNum]);
    }
  }

  lemma AllEven(ctx: Context, cores: seq<CoreNode>)
    requires ctx.Valid() && ctx.numSplits >= 1 && AllSegments(ctx, cores)
    ensures forall c :: 0 <= c < |cores| ==> EvenSegment(ctx, cores[c])
  {
    hide IsSegment, EvenSegment;
    forall c | 0 <= c < |cores|
      ensures EvenSegment(ctx, cores[c])
    {
      SegmentIsEven(ctx, cores[c]);
    }
  }

  lemma DoneNothing(ctx: Context, none: seq<CoreNode>)
    requires ctx.Valid() && ctx.numSplits >= 1 && none == []
    ensures Done(ctx, none, Block(0, 0, 0, 0), 0)
  {
  }

  lemma AllDone(ctx: Context, cores: seq<CoreNode>, idle: seq<CoreNode>, count: int)
    requires ctx.Valid() && ctx.numSplits >= 1 && Done(ctx, cores, Block(ctx.batchSize, 0, 0, 0), count)
    requires forall c :: 0 <= c < |idle| ==> idle[c] == IDLE
    ensures InOrderCover(ShapeOf(ctx), cores + idle) && AllSegments(ctx, cores)
  {
    hide GetBatchParams;
    IdleTail(ShapeOf(ctx), cores, idle, Block(ctx.batchSize, 0, 0, 0));
  }

  lemma SegmentNumber(s2: int, start: int, per: int, blocks: int, splits: int)
    requires per >= 1 && start % per == 0 && start <= s2 < start + per && s2 < blocks <= splits * per && 0 <= start
    ensures start == s2 / per * per && 0 <= s2 / per < splits
  {
    var j := start / per;
    NextMultiple(j, per);
    DivideBetween(s2, per, j);
    MulLess(j, splits, per);
  }

  /** A block a segment covers lies in the segment's tile and stretch. */
  lemma CoveredSegment(ctx: Context, core: CoreNode, x: Block)
    requires ctx.Valid() && ctx.numSplits >= 1 && Covers(ShapeOf(ctx), core, x) && IsSegment(ctx, core)
    ensures 0 <= x.b < ctx.batchSize && x.b == core.startB && Start(core) == x.(s2 := core.startS2)
    ensures core.startS2 % BlocksPerSplit(ctx, x.b) == 0
    ensures 0 <= core.startS2 <= x.s2 < core.endS2 <= core.startS2 + BlocksPerSplit(ctx, x.b)
    ensures x.s2 < GetBatchParams(ctx, x.b).curKSBlockNum
  {
    hide GetBatchParams, BlocksPerSplit;
  }

  /** In the finished table a block lies on the core that holds segment `s2 / per` of its
      tile, and there are at most `numSplits` segment numbers; so a tile is cut into at most
      `numSplits` non-empty runs of consecutive blocks, one core each. */
  lemma SegmentOfBlock(ctx: Context, cores: seq<CoreNode>, c: int, x: Block)
    requires ctx.Valid() && ctx.numSplits >= 1
    requires 0 <= c < |cores| && Covers(ShapeOf(ctx), cores[c], x)
    requires IsSegment(ctx, cores[c])
    ensures var per := BlocksPerSplit(ctx, x.b);
            && Start(cores[c]) == x.(s2 := x.s2 / per * per)
            && cores[c].startS2 < cores[c].endS2
            && 0 <= x.s2 / per < ActualSplits(ctx, x.b) <= ctx.numSplits
  {
    var core := cores[c];
    hide *;
    SplitsBound(ctx, x.b);
    CoveredSegment(ctx, core, x);
    SegmentNumber(x.s2, core.startS2, BlocksPerSplit(ctx, x.b), GetBatchParams(ctx, x.b).curKSBlockNum, ActualSplits(ctx, x.b));
  }
}
