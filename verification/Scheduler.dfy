/** The choice between the three schedules, and what the resulting tables promise. */
module Scheduler {
  import opened Arith
  import opened Cover
  import opened SplitParams
  import opened Tiles
  import opened Workload
  import opened SplitSegments
  import opened SplitRecords
  import opened ScratchLayout
  import FlashDecode
  import ForcedSplit
  import NoSplit

  /** Decoding is only scheduled for requests with query rows in every batch. */
  ghost predicate HasQueries(ctx: Context)
    requires ctx.Valid()
  {
    forall b :: 0 <= b < ctx.batchSize ==> GetBatchParams(ctx, b).qSeqlen >= 1
  }

  lemma QueriesShape(ctx: Context)
    requires ctx.Valid() && HasQueries(ctx)
    ensures forall b :: 0 <= b < ctx.batchSize ==> ShapeOf(ctx).s1[b] >= 1
  {
    forall b | 0 <= b < ctx.batchSize
      ensures ShapeOf(ctx).s1[b] >= 1
    {
      assert GetBatchParams(ctx, b).qSeqlen >= 1;
    }
  }

  lemma NeatIsSound(ctx: Context, c: CoreNode)
    requires ctx.Valid() && HasQueries(ctx) && (NeatCore(ShapeOf(ctx), c) || c == IDLE)
    ensures SoundCore(ShapeOf(ctx), c)
  {
    QueriesShape(ctx);
    hide GetBatchParams, HasQueries;
  }

  lemma SegmentIsSound(ctx: Context, c: CoreNode)
    requires ctx.Valid() && HasQueries(ctx) && ctx.numSplits >= 1 && ForcedSplit.IsSegment(ctx, c)
    ensures SoundCore(ShapeOf(ctx), c)
  {
    QueriesShape(ctx);
  }

  lemma RunIsSound(ctx: Context, c: CoreNode, lo: int, hi: int)
    requires ctx.Valid() && NoSplit.IsRun(ctx, c, lo, hi)
    ensures SoundCore(ShapeOf(ctx), c)
  {
    hide NoSplit.Rank;
  }

  /** In the schedule without splitting every core holds whole tiles. */
  lemma WholeTilesOnly(ctx: Context, cores: seq<CoreNode>, used: int, per: int, total: int, e: Seg)
    requires ctx.Valid() && 0 <= used <= |cores|
    requires NoSplit.IsDeal(ctx, cores[..used], per, total)
    requires forall c :: used <= c < |cores| ==> cores[c] == IDLE
    ensures !IsSplit(ShapeOf(ctx), cores, e)
  {
    hide NoSplit.Rank;
    if 0 <= e.core < used {
      assert NoSplit.IsRun(ctx, cores[..used][e.core], e.core * per, Min(e.core * per + per, total));
    }
  }

  /** The first fields of the table entries play no part in the cover. */
  lemma RangesOnly(ctx: Context, cores: seq<CoreNode>, infos: seq<CoreNode>, segs: seq<Seg>)
    requires ctx.Valid() && InBatches(ctx, segs) && Offsets(ctx, segs, cores, infos, |cores|)
    requires SoundTable(ShapeOf(ctx), cores) && AllSegs(ShapeOf(ctx), cores, segs)
    ensures SoundTable(ShapeOf(ctx), infos) && AllSegs(ShapeOf(ctx), infos, segs)
  {
    var sh := ShapeOf(ctx);
    hide ShapeOf, FirstOffset;
    assert forall c :: 0 <= c < |cores| ==> Start(infos[c]) == Start(cores[c]) && End(infos[c]) == End(cores[c]);
    SameRangesCover(sh, cores, infos);
    assert forall c :: 0 <= c < |cores| ==> SoundCore(sh, cores[c]);
    assert forall c :: 0 <= c < |cores| ==> SoundCore(sh, infos[c]);
    SameRangesSplit(sh, cores, infos);
    hide IsSplit, SoundCore, InOrderCover, Offsets;
  }

  ghost predicate SameRanges(cores: seq<CoreNode>, infos: seq<CoreNode>) {
    |cores| == |infos|
    && forall c :: 0 <= c < |cores| ==> Start(infos[c]) == Start(cores[c]) && End(infos[c]) == End(cores[c])
  }

  lemma SameRangesCover(sh: Shape, cores: seq<CoreNode>, infos: seq<CoreNode>)
    requires WellShaped(sh) && SameRanges(cores, infos) && InOrderCover(sh, cores)
    ensures InOrderCover(sh, infos)
  {
    forall c, x | 0 <= c < |cores|
      ensures Covers(sh, infos[c], x) <==> Covers(sh, cores[c], x)
    {
      assert Start(infos[c]) == Start(cores[c]) && End(infos[c]) == End(cores[c]);
    }
    hide Covers;
    forall x | ValidBlock(sh, x)
      ensures exists c :: 0 <= c < |infos| && Covers(sh, infos[c], x)
    {
      var c :| 0 <= c < |cores| && Covers(sh, cores[c], x);
      assert Covers(sh, infos[c], x);
    }
  }

  lemma SameRangesSplit(sh: Shape, cores: seq<CoreNode>, infos: seq<CoreNode>)
    requires WellShaped(sh) && SameRanges(cores, infos)
    ensures forall e :: IsSplit(sh, infos, e) <==> IsSplit(sh, cores, e)
  {
    forall e
      ensures IsSplit(sh, infos, e) <==> IsSplit(sh, cores, e)
    {
      if 0 <= e.core < |cores| {
        assert Start(infos[e.core]) == Start(cores[e.core]) && End(infos[e.core]) == End(cores[e.core]);
      }
    }
  }

  /** The forced schedule never uses more cores than the fixed table has entries. */
  const CORE_TABLE := 25

  ghost predicate Forced(ctx: Context)
    requires ctx.Valid()
  {
    ctx.numSplits >= 1 && 0 < ForcedSplit.Segments(ctx, ctx.batchSize) <= ctx.blockDim && ForcedSplit.Segments(ctx, ctx.batchSize) <= 25
  }

  /** What the table promises. Forced: one core for every segment, of the length that the requested
      number of splits asks for. Without splitting: tiles dealt in equal runs. Otherwise, with exact
      costs: every used core but the last has at least an equal share of the work, none more than a
      KV block above it. */
  ghost predicate Promised(ctx: Context, cores: seq<CoreNode>)
    requires ctx.Valid()
  {
    && (Forced(ctx) ==>
          && |cores| == ForcedSplit.Segments(ctx, ctx.batchSize) && ForcedSplit.AllSegments(ctx, cores)
          && forall c :: 0 <= c < |cores| ==> ForcedSplit.EvenSegment(ctx, cores[c]))
    && (!Forced(ctx) && ctx.numSplits == 1 ==> EvenDeal(ctx, cores))
    && (!Forced(ctx) && ctx.numSplits != 1 ==> |cores| >= 1 && FairShares(ctx, cores))
  }

  /** Runs of equally many tiles, as few as the cores allow. */
  ghost predicate EvenDeal(ctx: Context, cores: seq<CoreNode>)
    requires ctx.Valid()
  {
    var total := NoSplit.TilesBefore(ctx, ctx.batchSize);
    forall per :: IsPart(total, ctx.blockDim, per) ==> NoSplit.IsDeal(ctx, cores, per, total)
  }

  /** `part` is the n-th part of the total, rounded up. */
  ghost predicate IsPart(total: int, n: int, part: int) { (part - 1) * n < total <= part * n }

  ghost predicate FairShares(ctx: Context, cores: seq<CoreNode>)
    requires ctx.Valid()
  {
    forall share :: IsPart(WorkBefore(ctx, ctx.batchSize), ctx.blockDim, share) && Exact(ctx) && 0 < share < 0x8000_0000 ==> FlashDecode.Balanced(ctx, cores, share)
  }

  lemma CeilDivUnique(total: int, n: int, q: int)
    requires n >= 1 && total >= 0
    ensures IsPart(total, n, q) <==> q == CeilDiv(total, n)
  {
    CeilDivBounds(total, n);
    var c := CeilDiv(total, n);
    if (q - 1) * n < total <= q * n {
      MulLess(q - 1, c, n);
      MulLess(c - 1, q, n);
    }
  }

  lemma EvenDealIs(ctx: Context, cores: seq<CoreNode>, total: int)
    requires ctx.Valid() && total == NoSplit.TilesBefore(ctx, ctx.batchSize) >= 0
    ensures (EvenDeal(ctx, cores)) <==> NoSplit.IsDeal(ctx, cores, CeilDiv(total, ctx.blockDim), total)
  {
    hide NoSplit.IsDeal, NoSplit.TilesBefore, CeilDiv, IsPart;
    forall per
      ensures IsPart(total, ctx.blockDim, per) <==> per == CeilDiv(total, ctx.blockDim)
    {
      CeilDivUnique(total, ctx.blockDim, per);
    }
  }

  lemma FairSharesIs(ctx: Context, cores: seq<CoreNode>, total: int)
    requires ctx.Valid() && total == WorkBefore(ctx, ctx.batchSize) >= 0
    requires Exact(ctx) && 0 < CeilDiv(total, ctx.blockDim) < TWO_31 ==> FlashDecode.Balanced(ctx, cores, CeilDiv(total, ctx.blockDim))
    ensures FairShares(ctx, cores)
  {
    hide FlashDecode.Balanced, WorkBefore, CeilDiv, Exact, IsPart;
    forall share | IsPart(WorkBefore(ctx, ctx.batchSize), ctx.blockDim, share)
      ensures share == CeilDiv(total, ctx.blockDim)
    {
      CeilDivUnique(total, ctx.blockDim, share);
    }
  }

  /** The promise is about ranges only. */
  lemma PromiseKept(ctx: Context, cores: seq<CoreNode>, infos: seq<CoreNode>)
    requires ctx.Valid() && SameRanges(cores, infos) && Promised(ctx, cores)
    ensures Promised(ctx, infos)
  {
    if Forced(ctx) { SegmentsKept(ctx, cores, infos); }
    if ctx.numSplits == 1 { EvenDealKept(ctx, cores, infos); }
    if FairShares(ctx, cores) { SharesKept(ctx, cores, infos); }
    hide *;
  }

  lemma SegmentsKept(ctx: Context, cores: seq<CoreNode>, infos: seq<CoreNode>)
    requires ctx.Valid() && ctx.numSplits >= 1 && SameRanges(cores, infos)
    ensures |infos| == |cores|
    ensures ForcedSplit.AllSegments(ctx, cores) ==> ForcedSplit.AllSegments(ctx, infos)
    ensures forall c :: 0 <= c < |cores| && ForcedSplit.EvenSegment(ctx, cores[c]) ==> ForcedSplit.EvenSegment(ctx, infos[c])
  {
    forall c | 0 <= c < |cores|
      ensures ForcedSplit.IsSegment(ctx, cores[c]) ==> ForcedSplit.IsSegment(ctx, infos[c])
      ensures ForcedSplit.EvenSegment(ctx, cores[c]) ==> ForcedSplit.EvenSegment(ctx, infos[c])
    {
      assert Start(infos[c]) == Start(cores[c]) && End(infos[c]) == End(cores[c]);
      hide GetBatchParams, ShapeOf, ForcedSplit.BlocksPerSplit;
    }
    hide ForcedSplit.IsSegment, ForcedSplit.EvenSegment;
  }

  lemma EvenDealKept(ctx: Context, cores: seq<CoreNode>, infos: seq<CoreNode>)
    requires ctx.Valid() && SameRanges(cores, infos)
    ensures EvenDeal(ctx, cores) ==> EvenDeal(ctx, infos)
  {
    hide NoSplit.TilesBefore;
    forall per, total
      ensures NoSplit.IsDeal(ctx, cores, per, total) ==> NoSplit.IsDeal(ctx, infos, per, total)
    {
      DealKept(ctx, cores, infos, per, total);
    }
    hide NoSplit.IsDeal;
  }

  lemma DealKept(ctx: Context, cores: seq<CoreNode>, infos: seq<CoreNode>, per: int, total: int)
    requires ctx.Valid() && SameRanges(cores, infos)
    ensures NoSplit.IsDeal(ctx, cores, per, total) ==> NoSplit.IsDeal(ctx, infos, per, total)
  {
    hide Start, End;
    forall c | 0 <= c < |cores| && NoSplit.IsRun(ctx, cores[c], c * per, Min(c * per + per, total))
      ensures NoSplit.IsRun(ctx, infos[c], c * per, Min(c * per + per, total))
    {
      RunKept(ctx, cores[c], infos[c], c * per, Min(c * per + per, total));
    }
    hide NoSplit.IsRun;
  }

  lemma RunKept(ctx: Context, c: CoreNode, d: CoreNode, lo: int, hi: int)
    requires ctx.Valid() && Start(d) == Start(c) && End(d) == End(c) && NoSplit.IsRun(ctx, c, lo, hi)
    ensures NoSplit.IsRun(ctx, d, lo, hi)
  {
    hide GetBatchParams, NoSplit.ValidTile, NoSplit.Rank;
  }

  lemma SharesKept(ctx: Context, cores: seq<CoreNode>, infos: seq<CoreNode>)
    requires ctx.Valid() && SameRanges(cores, infos) && FairShares(ctx, cores)
    ensures FairShares(ctx, infos)
  {
    forall share | IsPart(WorkBefore(ctx, ctx.batchSize), ctx.blockDim, share) && Exact(ctx) && 0 < share < TWO_31
      ensures FlashDecode.Balanced(ctx, infos, share)
    {
      BalanceKept(ctx, cores, infos, share);
    }
  }

  lemma BalanceKept(ctx: Context, cores: seq<CoreNode>, infos: seq<CoreNode>, share: int)
    requires ctx.Valid() && Exact(ctx) && SameRanges(cores, infos) && FlashDecode.Balanced(ctx, cores, share)
    ensures FlashDecode.Balanced(ctx, infos, share)
  {
    hide Exact, ShapeOf;
    forall c | 0 <= c < |cores|
      ensures Start(infos[c]) == Start(cores[c]) && End(infos[c]) == End(cores[c]) && infos[c].startB == cores[c].startB
    {
    }
  }

  method TotalWork(ctx: Context) returns (totalTaskNum: int)
    requires ctx.Valid()
    ensures totalTaskNum == WorkBefore(ctx, ctx.batchSize) >= 0
  {
    totalTaskNum := 0;
    for b := 0 to ctx.batchSize
      invariant totalTaskNum == WorkBefore(ctx, b) >= 0
    {
      var p := GetBatchParams(ctx, b);
      hide GetBatchParams;
      MulMono(0, ctx.numHeads, p.qSeqlen);
      MulMono(0, ctx.numHeads * p.qSeqlen, p.kvSeqlen);
      totalTaskNum := totalTaskNum + ctx.numHeads * p.qSeqlen * p.kvSeqlen;
    }
  }

  lemma ForcedIsSound(ctx: Context, table: seq<CoreNode>, used: nat)
    requires ctx.Valid() && HasQueries(ctx) && ctx.numSplits >= 1 && used <= |table|
    requires InOrderCover(ShapeOf(ctx), table) && ForcedSplit.AllSegments(ctx, table[..used])
    requires forall c :: used <= c < |table| ==> table[c] == IDLE
    ensures SoundTable(ShapeOf(ctx), table)
  {
    hide ShapeOf, InOrderCover, HasQueries, SoundCore;
    forall c | 0 <= c < |table|
      ensures SoundCore(ShapeOf(ctx), table[c])
    {
      if c < used {
        assert ForcedSplit.IsSegment(ctx, table[..used][c]);
        SegmentIsSound(ctx, table[c]);
      } else {
        NeatIsSound(ctx, table[c]);
      }
    }
  }

  lemma DealIsSound(ctx: Context, table: seq<CoreNode>, used: nat, per: int, total: int)
    requires ctx.Valid() && HasQueries(ctx) && used <= |table|
    requires InOrderCover(ShapeOf(ctx), table) && NoSplit.IsDeal(ctx, table[..used], per, total)
    requires forall c :: used <= c < |table| ==> table[c] == IDLE
    ensures SoundTable(ShapeOf(ctx), table)
  {
    hide ShapeOf, InOrderCover, HasQueries, SoundCore, NoSplit.IsRun;
    forall c | 0 <= c < |table|
      ensures SoundCore(ShapeOf(ctx), table[c])
    {
      if c < used {
        assert NoSplit.IsRun(ctx, table[..used][c], c * per, Min(c * per + per, total));
        RunIsSound(ctx, table[c], c * per, Min(c * per + per, total));
      } else {
        NeatIsSound(ctx, table[c]);
      }
    }
  }

  lemma NeatTableIsSound(ctx: Context, table: seq<CoreNode>, used: nat)
    requires ctx.Valid() && HasQueries(ctx) && used <= |table| && InOrderCover(ShapeOf(ctx), table)
    requires forall c :: 0 <= c < used ==> NeatCore(ShapeOf(ctx), table[c])
    requires forall c :: used <= c < |table| ==> table[c] == IDLE
    ensures SoundTable(ShapeOf(ctx), table)
  {
    hide ShapeOf, InOrderCover, HasQueries, SoundCore, NeatCore;
    forall c | 0 <= c < |table|
      ensures SoundCore(ShapeOf(ctx), table[c])
    {
      NeatIsSound(ctx, table[c]);
    }
  }

  /** Fill the per-core table with the schedule the request asks for. */
  method ChooseCores(ctx: Context, coreInfo: array<CoreNode>) returns (needCoreNum: nat)
    requires ctx.Valid() && HasQueries(ctx) && coreInfo.Length >= ctx.blockDim
    modifies coreInfo
    ensures needCoreNum <= ctx.blockDim && SoundTable(ShapeOf(ctx), coreInfo[..ctx.blockDim])
    ensures forall c :: needCoreNum <= c < ctx.blockDim ==> coreInfo[c] == IDLE
    ensures Promised(ctx, coreInfo[..needCoreNum])
  {
    hide *;
    BlockDimPositive(ctx);
    if ctx.numSplits >= 1 {
      var totalSegs := ForcedSplit.CountForceSplitSegments(ctx);
      ForcedIs(ctx, totalSegs);
      if 0 < totalSegs <= Min(ctx.blockDim, CORE_TABLE) {
        needCoreNum := ForcedSplit.FillCoreInfoForceSplit(ctx, coreInfo);
        assert coreInfo[..ctx.blockDim][..needCoreNum] == coreInfo[..needCoreNum];
        ForcedIsSound(ctx, coreInfo[..ctx.blockDim], needCoreNum);
        PromiseForced(ctx, coreInfo[..needCoreNum]);
        return;
      }
      if ctx.numSplits == 1 {
        needCoreNum := NoSplit.FillCoreInfoNoSplit(ctx, coreInfo);
        ghost var total := NoSplit.TilesBefore(ctx, ctx.batchSize);
        assert coreInfo[..ctx.blockDim][..needCoreNum] == coreInfo[..needCoreNum];
        DealIsSound(ctx, coreInfo[..ctx.blockDim], needCoreNum, CeilDiv(total, ctx.blockDim), total);
        PromiseDealt(ctx, coreInfo[..needCoreNum], total);
        return;
      }
    }
    NotForced(ctx);
    needCoreNum := AutoCores(ctx, coreInfo);
    PromiseShared(ctx, coreInfo[..needCoreNum]);
  }

  lemma ForcedIs(ctx: Context, totalSegs: int)
    requires ctx.Valid() && ctx.numSplits >= 1 && totalSegs == ForcedSplit.Segments(ctx, ctx.batchSize)
    ensures 0 < totalSegs <= Min(ctx.blockDim, CORE_TABLE) <==> Forced(ctx)
    ensures Min(ctx.blockDim, CORE_TABLE) <= ctx.blockDim
  {
  }

  lemma NotForced(ctx: Context)
    requires ctx.Valid()
    ensures ctx.numSplits == 0 ==> !Forced(ctx)
  {
  }

  lemma PromiseForced(ctx: Context, cores: seq<CoreNode>)
    requires ctx.Valid() && Forced(ctx) && |cores| == ForcedSplit.Segments(ctx, ctx.batchSize) && ForcedSplit.AllSegments(ctx, cores)
    requires forall c :: 0 <= c < |cores| ==> ForcedSplit.EvenSegment(ctx, cores[c])
    ensures Promised(ctx, cores)
  {
    hide ForcedSplit.AllSegments, ForcedSplit.EvenSegment, ForcedSplit.Segments;
  }

  lemma PromiseDealt(ctx: Context, cores: seq<CoreNode>, total: int)
    requires ctx.Valid() && !Forced(ctx) && ctx.numSplits == 1 && total == NoSplit.TilesBefore(ctx, ctx.batchSize)
    requires NoSplit.IsDeal(ctx, cores, CeilDiv(total, ctx.blockDim), total)
    ensures Promised(ctx, cores)
  {
    NoSplit.TilesGrow(ctx, 0, ctx.batchSize);
    EvenDealIs(ctx, cores, total);
    hide EvenDeal, NoSplit.IsDeal, NoSplit.TilesBefore, ForcedSplit.Segments;
  }

  lemma PromiseShared(ctx: Context, cores: seq<CoreNode>)
    requires ctx.Valid() && !Forced(ctx) && ctx.numSplits != 1 && |cores| >= 1 && FairShares(ctx, cores)
    ensures Promised(ctx, cores)
  {
    hide FairShares, ForcedSplit.Segments;
  }

  lemma BlockDimPositive(ctx: Context)
    requires ctx.Valid()
    ensures ctx.blockDim >= 1
  {
  }

  lemma ShareSuffices(ctx: Context, total: int)
    requires ctx.Valid() && total >= 0
    ensures CeilDiv(total, ctx.blockDim) >= 0 && ctx.blockDim * CeilDiv(total, ctx.blockDim) >= total
  {
    CeilDivBounds(total, ctx.blockDim);
  }

  method AutoCores(ctx: Context, coreInfo: array<CoreNode>) returns (needCoreNum: nat)
    requires ctx.Valid() && HasQueries(ctx) && coreInfo.Length >= ctx.blockDim
    modifies coreInfo
    ensures 1 <= needCoreNum <= ctx.blockDim && SoundTable(ShapeOf(ctx), coreInfo[..ctx.blockDim])
    ensures forall c :: needCoreNum <= c < ctx.blockDim ==> coreInfo[c] == IDLE
    ensures FairShares(ctx, coreInfo[..needCoreNum])
  {
    hide *;
    var totalTaskNum := TotalWork(ctx);
    BlockDimPositive(ctx);
    var perCoreTaskNum := CeilDiv(totalTaskNum, ctx.blockDim);
    ShareSuffices(ctx, totalTaskNum);
    ghost var complete;
    needCoreNum, complete := FlashDecode.FillCoreInfoForFlashDecode(ctx, coreInfo, perCoreTaskNum);
    NeatTableIsSound(ctx, coreInfo[..ctx.blockDim], needCoreNum);
    FairSharesIs(ctx, coreInfo[..needCoreNum], totalTaskNum);
  }

  /** Schedule a request: per-core table, split records and scratch offsets. The results
      are described by the list `segs` of split segments of the table. */
  method SplitBN2S1GS2(ctx: Context, coreInfo: array<CoreNode>, splitInfo: array<SplitNode>)
    returns (needCoreNum: nat, totals: Totals, ghost segs: seq<Seg>)
    requires ctx.Valid() && HasQueries(ctx)
    requires coreInfo.Length >= ctx.blockDim && splitInfo.Length >= ctx.blockDim + 1
    modifies coreInfo, splitInfo
    ensures needCoreNum <= ctx.blockDim && SoundTable(ShapeOf(ctx), coreInfo[..ctx.blockDim])
    ensures AllSegs(ShapeOf(ctx), coreInfo[..ctx.blockDim], segs) && InBatches(ctx, segs)
    ensures Listed(ctx, segs, splitInfo[..ctx.blockDim + 1])
    ensures FirstsAre(ctx, coreInfo[..ctx.blockDim], segs)
    ensures totals == Totals(|Runs(segs)|, SizeOf(ctx, segs) * 4, SizeOf(ctx, segs) * ctx.headSizeV * 4)
    ensures Promised(ctx, coreInfo[..needCoreNum])
    ensures needCoreNum >= 1 ==> |Runs(segs)| <= needCoreNum - 1
    ensures !Forced(ctx) && ctx.numSplits == 1 ==> segs == []
  {
    hide *;
    needCoreNum := ChooseCores(ctx, coreInfo);
    ghost var cores := coreInfo[..ctx.blockDim];
    assert cores[..needCoreNum] == coreInfo[..needCoreNum];
    totals, segs := FillSplitInfoForFlashDecode(ctx, coreInfo, splitInfo);
    RangesOnly(ctx, cores, coreInfo[..ctx.blockDim], segs);
    FirstsNoted(ctx, cores, coreInfo[..ctx.blockDim], segs);
    RangesKept(ctx, cores, coreInfo[..ctx.blockDim], segs, needCoreNum);
    assert coreInfo[..ctx.blockDim][..needCoreNum] == coreInfo[..needCoreNum];
    PromiseKept(ctx, cores[..needCoreNum], coreInfo[..needCoreNum]);
    if needCoreNum >= 1 {
      RunsBound(ShapeOf(ctx), cores, segs, needCoreNum);
    }
    if !Forced(ctx) && ctx.numSplits == 1 {
      DealtRuns(ctx, cores[..needCoreNum]);
      NoSegments(ctx, cores, needCoreNum, segs);
    }
  }

  lemma RangesKept(ctx: Context, cores: seq<CoreNode>, infos: seq<CoreNode>, segs: seq<Seg>, n: nat)
    requires ctx.Valid() && InBatches(ctx, segs) && Offsets(ctx, segs, cores, infos, |cores|) && n <= |cores|
    ensures n <= |infos| && SameRanges(cores[..n], infos[..n])
  {
    hide FirstOffset;
  }

  lemma DealtRuns(ctx: Context, cores: seq<CoreNode>)
    requires ctx.Valid() && !Forced(ctx) && ctx.numSplits == 1 && Promised(ctx, cores)
    ensures var total := NoSplit.TilesBefore(ctx, ctx.batchSize); NoSplit.IsDeal(ctx, cores, CeilDiv(total, ctx.blockDim), total)
  {
    NoSplit.TilesGrow(ctx, 0, ctx.batchSize);
    EvenDealIs(ctx, cores, NoSplit.TilesBefore(ctx, ctx.batchSize));
    hide NoSplit.IsDeal, NoSplit.TilesBefore, CeilDiv, ForcedSplit.Segments, EvenDeal;
  }

  /** Every core carries the scratch offsets of its first split segment. */
  ghost predicate FirstsAre(ctx: Context, infos: seq<CoreNode>, segs: seq<Seg>)
    requires ctx.Valid() && InBatches(ctx, segs)
  {
    forall c :: 0 <= c < |infos| ==>
                  && infos[c].firstLse == FirstOffset(ctx, segs, c)
                  && infos[c].firstO == FirstOffset(ctx, segs, c) * ctx.headSizeV
  }

  lemma FirstsNoted(ctx: Context, cores: seq<CoreNode>, infos: seq<CoreNode>, segs: seq<Seg>)
    requires ctx.Valid() && InBatches(ctx, segs) && Offsets(ctx, segs, cores, infos, |cores|)
    ensures FirstsAre(ctx, infos, segs)
  {
    hide FirstOffset;
  }

  lemma NoSegments(ctx: Context, cores: seq<CoreNode>, used: nat, segs: seq<Seg>)
    requires ctx.Valid() && used <= |cores| && AllSegs(ShapeOf(ctx), cores, segs)
    requires var total := NoSplit.TilesBefore(ctx, ctx.batchSize); NoSplit.IsDeal(ctx, cores[..used], CeilDiv(total, ctx.blockDim), total)
    requires forall c :: used <= c < |cores| ==> cores[c] == IDLE
    ensures segs == []
  {
    if segs != [] {
      var total := NoSplit.TilesBefore(ctx, ctx.batchSize);
      WholeTilesOnly(ctx, cores, used, CeilDiv(total, ctx.blockDim), total, segs[0]);
    }
  }
}
