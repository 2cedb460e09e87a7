/** The records of the split pass are tasks the combine step can work on: they lie inside the
    scratch buffers and the outputs, and no two of them share an output row. */
module CombineLink {
  import opened Arith
  import opened Cover
  import opened SplitParams
  import opened Tiles
  import opened SplitSegments
  import opened SplitRecords
  import opened ScratchLayout
  import opened CombineMath
  import opened CombineRows
  import opened CombineMerge
  import opened CombineHalf
  import opened CombineLse
  import opened CombineScale
  import opened CombineRun

  /** The token layout of a request. */
  function LayoutOf(ctx: Context): Layout
    requires ctx.Valid()
  {
    Layout(ctx.isVarlenQ, ctx.cuSeqlenQ, ctx.seqlenQ, if ctx.isVarlenQ then ctx.cuSeqlenQ[ctx.batchSize] else 0)
  }

  /** Query tokens of all batches. */
  function Tokens(ctx: Context): int
    requires ctx.Valid()
  {
    if ctx.isVarlenQ then ctx.cuSeqlenQ[ctx.batchSize] else ctx.batchSize * ctx.seqlenQ
  }

  /** The records of the split pass. */
  ghost function Records(ctx: Context, segs: seq<Seg>): (tasks: seq<SplitNode>)
    requires ctx.Valid() && InBatches(ctx, segs)
    ensures |tasks| == |Runs(segs)|
    ensures forall r :: 0 <= r < |tasks| ==> tasks[r] == RecordAt(ctx, segs, r)
  {
    seq(|Runs(segs)|, r requires 0 <= r < |Runs(segs)| => RecordAt(ctx, segs, r))
  }

  /** The scratch buffers are as long as the split pass asks, and the outputs hold all tokens. */
  ghost predicate Buffers(ctx: Context, segs: seq<Seg>, env: Env, outLen: int, lseLen: int)
    requires ctx.Valid() && InBatches(ctx, segs)
  {
    && env.qHeads == ctx.numHeads && env.headSizeV == ctx.headSizeV && 1 <= ctx.headSizeV <= 8192
    && SizeOf(ctx, segs) <= |env.lse| == |env.out|
    && (forall y :: 0 <= y < |env.out| ==> |env.out[y]| == env.headSizeV)
    && (forall y :: 0 <= y < |env.lse| ==> NotBelow(env.lse[y], env.low))
    && Tokens(ctx) * ctx.numHeads <= outLen && Tokens(ctx) * ctx.numHeads <= lseLen
    && (ctx.isVarlenQ ==> ctx.cuSeqlenQ[0] == 0)
  }

  lemma RecordFields(ctx: Context, segs: seq<Seg>, r: int)
    requires ctx.Valid() && InBatches(ctx, segs) && 0 <= r < |Runs(segs)|
    ensures var t, e := RecordAt(ctx, segs, r), segs[Runs(segs)[r]];
            && t.batchIdx == e.b && 0 <= e.b < ctx.batchSize
            && t.headStartIdx == HeadStart(ctx, GetBatchParams(ctx, e.b), e.n1)
            && t.headEndIdx == HeadEnd(ctx, GetBatchParams(ctx, e.b), e.n1)
            && t.qStartIdx == QStart(GetBatchParams(ctx, e.b), e.s1)
            && t.qEndIdx == QEnd(GetBatchParams(ctx, e.b), e.s1)
            && t.splitNum == RunEnd(segs, r) - Runs(segs)[r]
  {
    hide GetBatchParams, HeadStart, HeadEnd, QStart, QEnd, SizeOf, Runs, RunEnd;
  }

  lemma GroupBounds(ctx: Context, k: int)
    requires ctx.Valid() && 0 <= k < ctx.numHeadsK
    ensures 0 <= k * ctx.GroupSize() && (k + 1) * ctx.GroupSize() <= ctx.numHeads
  {
    GroupIsPositive(ctx);
    MulMono(0, k, ctx.GroupSize());
    MulMono(k + 1, ctx.numHeadsK, ctx.GroupSize());
  }

  /** The tile of a listed segment. */
  lemma TileOf(ctx: Context, segs: seq<Seg>, i: int)
    requires ctx.Valid() && InBatches(ctx, segs) && TilesIn(ctx, segs) && 0 <= i < |segs|
    ensures var e := segs[i];
            && 0 <= e.b < ctx.batchSize
            && 0 <= e.n1 < GetBatchParams(ctx, e.b).curQNBlockNum && 0 <= e.s1 < GetBatchParams(ctx, e.b).curQSBlockNum
  {
    assert TileIn(ShapeOf(ctx), segs[i].b, segs[i].n1, segs[i].s1);
    hide GetBatchParams;
  }

  /** The tile of a record, inside its batch and one KV-head group. */
  lemma RecordShape(ctx: Context, segs: seq<Seg>, r: int)
    requires ctx.Valid() && InBatches(ctx, segs) && TilesIn(ctx, segs) && 0 <= r < |Runs(segs)|
    ensures var t := RecordAt(ctx, segs, r);
            && 0 <= t.batchIdx < ctx.batchSize && 0 <= t.headStartIdx < t.headEndIdx <= ctx.numHeads
            && 0 <= t.qStartIdx < t.qEndIdx <= GetBatchParams(ctx, t.batchIdx).qSeqlen
  {
    hide *;
    var e := segs[Runs(segs)[r]];
    RecordFields(ctx, segs, r);
    TileOf(ctx, segs, Runs(segs)[r]);
    TileShape(ctx, e.b, e.n1, e.s1);
    GroupBounds(ctx, e.n1 / GetBatchParams(ctx, e.b).qNBlockNumPerGroup);
  }

  lemma SlotWithin(ctx: Context, segs: seq<Seg>, i: int)
    requires ctx.Valid() && InBatches(ctx, segs) && TilesIn(ctx, segs) && 0 <= i <= |segs|
    ensures 0 <= SlotStart(ctx, segs, i) <= SizeOf(ctx, segs)
  {
    assert segs[..|segs|] == segs && segs[..0] == [];
    SlotsAscend(ctx, segs, 0, i);
    SlotsAscend(ctx, segs, i, |segs|);
    hide TilesIn, InBatches;
  }

  lemma RowsAre(t: SplitNode)
    ensures Rows(t) == (t.headEndIdx - t.headStartIdx) * (t.qEndIdx - t.qStartIdx)
  {
    Commute(QLen(t), NLen(t));
  }

  /** The scratch rows of a record lie inside the buffer. */
  lemma RecordScratch(ctx: Context, segs: seq<Seg>, r: int)
    requires ctx.Valid() && InBatches(ctx, segs) && TilesIn(ctx, segs) && 0 <= r < |Runs(segs)|
    requires Runs(segs)[r] < RunEnd(segs, r)
    ensures var t := RecordAt(ctx, segs, r);
            && t.splitNum >= 1 && 0 <= t.lseTaskOffset && t.oTaskOffset == t.lseTaskOffset * ctx.headSizeV
            && t.lseTaskOffset + t.splitNum * Rows(t) <= SizeOf(ctx, segs)
  {
    hide *;
    var t, first, last := RecordAt(ctx, segs, r), Runs(segs)[r], RunEnd(segs, r) - 1;
    RecordFields(ctx, segs, r);
    RunEndBound(segs, r);
    RowsAre(t);
    SlotOfSegment(ctx, segs, r, first);
    SlotOfSegment(ctx, segs, r, last);
    SlotWithin(ctx, segs, first);
    SlotWithin(ctx, segs, last + 1);
    NextMultiple(last - first, Rows(t));
  }

  /** Batches take up consecutive stretches of tokens. */
  lemma {:induction false} PrefixMono(ctx: Context, a: int, b: int)
    requires ctx.Valid() && ctx.isVarlenQ && 0 <= a <= b <= ctx.batchSize
    ensures ctx.cuSeqlenQ[a] <= ctx.cuSeqlenQ[b]
    decreases b
  {
    if a < b {
      PrefixMono(ctx, a, b - 1);
      var c := b - 1;
      assert ctx.cuSeqlenQ[c] <= ctx.cuSeqlenQ[c + 1];
    }
  }

  /** The tokens of batch b. */
  lemma BatchTokens(ctx: Context, t: SplitNode, b': int)
    requires ctx.Valid() && 0 <= t.batchIdx < ctx.batchSize && 0 <= b' <= ctx.batchSize
    requires ctx.isVarlenQ ==> ctx.cuSeqlenQ[0] == 0
    ensures HasBatch(LayoutOf(ctx), t) && PrevQ(LayoutOf(ctx), t) >= 0
    ensures PrevQ(LayoutOf(ctx), t) + GetBatchParams(ctx, t.batchIdx).qSeqlen <= Tokens(ctx)
    ensures t.batchIdx < b' < ctx.batchSize ==>
              PrevQ(LayoutOf(ctx), t) + GetBatchParams(ctx, t.batchIdx).qSeqlen <= PrevQ(LayoutOf(ctx), t.(batchIdx := b'))
  {
    var b := t.batchIdx;
    if ctx.isVarlenQ {
      PrefixMono(ctx, 0, b);
      PrefixMono(ctx, b + 1, ctx.batchSize);
      if b < b' { PrefixMono(ctx, b + 1, b'); }
    } else {
      NextMultiple(b, ctx.seqlenQ);
      MulMono(0, b, ctx.seqlenQ);
      MulMono(b + 1, ctx.batchSize, ctx.seqlenQ);
      if b < b' { MulMono(b + 1, b', ctx.seqlenQ); }
    }
  }

  /* Every record can be placed. */

  lemma ReadyRecord(ctx: Context, segs: seq<Seg>, env: Env, outLen: int, lseLen: int, t: SplitNode)
    requires ctx.Valid() && InBatches(ctx, segs) && Buffers(ctx, segs, env, outLen, lseLen)
    requires 0 <= t.headStartIdx < t.headEndIdx <= ctx.numHeads && 0 <= t.qStartIdx < t.qEndIdx
    requires t.splitNum >= 1 && 0 <= t.lseTaskOffset && t.oTaskOffset == t.lseTaskOffset * ctx.headSizeV
    requires t.lseTaskOffset + t.splitNum * Rows(t) <= SizeOf(ctx, segs)
    ensures Ready(env, t) && env.headSizeV <= 8192 && NLen(t) >= 1 && Rows(t) >= 1
  {
    hide SizeOf, Rows, RecordAt, Runs;
    assert ValidTask(t, env.qHeads, env.headSizeV);
    RowsPositive(t, env.qHeads, env.headSizeV);
  }

  /** The last row of a task is inside the output. */
  lemma FitsRecord(t: SplitNode, qHeads: int, headSizeV: int, prevQ: int, tokens: int, outLen: int)
    requires ValidTask(t, qHeads, headSizeV) && 0 <= prevQ && prevQ + t.qEndIdx <= tokens && tokens * qHeads <= outLen
    ensures Fits(t, qHeads, prevQ, headSizeV, outLen)
  {
    RowsPositive(t, qHeads, headSizeV);
    RowParts(t, qHeads, headSizeV, Rows(t) - 1);
    hide Rows;
    var q := prevQ + t.qStartIdx + (Rows(t) - 1) / NLen(t);
    MulMono(q + 1, tokens, qHeads);
    NextMultiple(q, qHeads);
  }

  lemma LseFitsRecord(ctx: Context, t: SplitNode, lseLen: int)
    requires ctx.Valid() && 0 <= t.batchIdx < ctx.batchSize && 0 <= t.qStartIdx < t.qEndIdx <= GetBatchParams(ctx, t.batchIdx).qSeqlen
    requires Tokens(ctx) * ctx.numHeads <= lseLen && (ctx.isVarlenQ ==> ctx.cuSeqlenQ[0] == 0)
    ensures LseFits(LayoutOf(ctx), ctx.numHeads, t, lseLen)
  {
    BatchTokens(ctx, t, 0);
    if !ctx.isVarlenQ {
      PaddedBase(t.batchIdx, ctx.batchSize, ctx.seqlenQ, ctx.numHeads);
    } else {
      Commute(ctx.numHeads, Tokens(ctx));
    }
  }

  lemma PaddedBase(b: int, batches: int, len: int, heads: int)
    requires 0 <= b < batches && 0 <= len && 0 <= heads
    ensures 0 <= b * len * heads && b * len * heads + heads * len <= batches * len * heads
  {
    MulMono(0, b, len);
    MulMono(0, b * len, heads);
    NextMultiple(b, len);
    MulMono(b + 1, batches, len);
    MulMono((b + 1) * len, batches * len, heads);
    AddMultiples(b * len, len, heads);
    Commute(len, heads);
  }

  lemma RecordPlaced(ctx: Context, cores: seq<CoreNode>, segs: seq<Seg>, env: Env, outLen: int, lseLen: int, r: int)
    requires ctx.Valid() && SoundTable(ShapeOf(ctx), cores) && AllSegs(ShapeOf(ctx), cores, segs) && InBatches(ctx, segs)
    requires Buffers(ctx, segs, env, outLen, lseLen) && 0 <= r < |Runs(segs)|
    ensures Placed(env, LayoutOf(ctx), RecordAt(ctx, segs, r), outLen, lseLen)
  {
    hide *;
    var t := RecordAt(ctx, segs, r);
    AllIsList(ShapeOf(ctx), cores, segs);
    ListedTilesIn(ctx, cores, segs, Seg(|cores|, 0, 0, 0));
    RunIsOwners(ShapeOf(ctx), cores, segs, r);
    RecordShape(ctx, segs, r);
    RecordScratch(ctx, segs, r);
    ReadyRecord(ctx, segs, env, outLen, lseLen, t);
    BuffersHold(ctx, segs, env, outLen, lseLen);
    BatchTokens(ctx, t, 0);
    LseFitsRecord(ctx, t, lseLen);
    ReadyTask(env, t);
    FitsRecord(t, ctx.numHeads, ctx.headSizeV, PrevQ(LayoutOf(ctx), t), Tokens(ctx), outLen);
    PlacedIs(env, LayoutOf(ctx), t, outLen, lseLen);
  }

  lemma ReadyTask(env: Env, t: SplitNode)
    requires Ready(env, t)
    ensures ValidTask(t, env.qHeads, env.headSizeV)
  {
  }

  lemma AllIsList(sh: Shape, cores: seq<CoreNode>, segs: seq<Seg>)
    requires WellShaped(sh) && AllSegs(sh, cores, segs)
    ensures SegList(sh, cores, segs, Seg(|cores|, 0, 0, 0))
  {
  }

  lemma BuffersHold(ctx: Context, segs: seq<Seg>, env: Env, outLen: int, lseLen: int)
    requires ctx.Valid() && InBatches(ctx, segs) && Buffers(ctx, segs, env, outLen, lseLen)
    ensures env.qHeads == ctx.numHeads && env.headSizeV == ctx.headSizeV
    ensures Tokens(ctx) * ctx.numHeads <= outLen && Tokens(ctx) * ctx.numHeads <= lseLen
    ensures ctx.isVarlenQ ==> ctx.cuSeqlenQ[0] == 0
  {
  }

  lemma PlacedIs(env: Env, lay: Layout, t: SplitNode, outLen: int, lseLen: int)
    requires Ready(env, t) && env.headSizeV <= 8192 && NLen(t) >= 1 && Rows(t) >= 1
    requires LseFits(lay, env.qHeads, t, lseLen) && HasBatch(lay, t) && Fits(t, env.qHeads, PrevQ(lay, t), env.headSizeV, outLen)
    ensures Placed(env, lay, t, outLen, lseLen)
  {
  }

  /* Records do not overlap. */

  function HeadOf(t: SplitNode, a: int): int
    requires NLen(t) >= 1
  {
    t.headStartIdx + a % NLen(t)
  }

  function QueryOf(t: SplitNode, a: int): int
    requires NLen(t) >= 1
  {
    t.qStartIdx + a / NLen(t)
  }

  lemma RowInTile(t: SplitNode, qHeads: int, headSizeV: int, a: int)
    requires ValidTask(t, qHeads, headSizeV) && 0 <= a < Rows(t)
    ensures NLen(t) >= 1 && t.headStartIdx <= HeadOf(t, a) < t.headEndIdx <= qHeads && t.qStartIdx <= QueryOf(t, a) < t.qEndIdx
  {
    RowParts(t, qHeads, headSizeV, a);
  }

  /** A head and a query row of a batch determine the tile. */
  lemma OneTile(ctx: Context, b: int, n1: int, s1: int, n1': int, s1': int, h: int, q: int)
    requires ctx.Valid() && 0 <= b < ctx.batchSize && 0 <= n1 && 0 <= n1' && 0 <= h
    requires var p := GetBatchParams(ctx, b); InTile(ctx, p, n1, s1, h, q) && InTile(ctx, p, n1', s1', h, q)
    ensures n1 == n1' && s1 == s1'
  {
    HeadInBlock(ctx, b, n1, h);
    HeadInBlock(ctx, b, n1', h);
    hide HeadStart, HeadEnd, HeadBlock;
  }

  lemma RowInRecord(ctx: Context, segs: seq<Seg>, r: int, a: int)
    requires ctx.Valid() && InBatches(ctx, segs) && TilesIn(ctx, segs) && 0 <= r < |Runs(segs)|
    requires 0 <= a < Rows(RecordAt(ctx, segs, r))
    requires ValidTask(RecordAt(ctx, segs, r), ctx.numHeads, ctx.headSizeV)
    ensures var t, e := RecordAt(ctx, segs, r), segs[Runs(segs)[r]];
            && NLen(t) >= 1 && t.batchIdx == e.b && 0 <= e.b < ctx.batchSize && 0 <= e.n1
            && InTile(ctx, GetBatchParams(ctx, e.b), e.n1, e.s1, HeadOf(t, a), QueryOf(t, a))
            && 0 <= HeadOf(t, a) < ctx.numHeads && 0 <= QueryOf(t, a) < GetBatchParams(ctx, e.b).qSeqlen
  {
    hide RecordAt, Runs, RunEnd, GetBatchParams, HeadStart, HeadEnd, QStart, QEnd, HeadOf, QueryOf, NLen, Rows, TilesIn, InBatches;
    RowInTile(RecordAt(ctx, segs, r), ctx.numHeads, ctx.headSizeV, a);
    RecordFields(ctx, segs, r);
    RecordShape(ctx, segs, r);
    TileOf(ctx, segs, Runs(segs)[r]);
  }

  /** Two records share no (batch, head, query row). */
  lemma RecordsDiffer(ctx: Context, cores: seq<CoreNode>, segs: seq<Seg>, q: int, r: int, a: int, c: int)
    requires ctx.Valid() && SoundTable(ShapeOf(ctx), cores) && AllSegs(ShapeOf(ctx), cores, segs) && InBatches(ctx, segs)
    requires 0 <= q < |Runs(segs)| && 0 <= r < |Runs(segs)| && q != r && TilesIn(ctx, segs)
    requires ValidTask(RecordAt(ctx, segs, q), ctx.numHeads, ctx.headSizeV) && ValidTask(RecordAt(ctx, segs, r), ctx.numHeads, ctx.headSizeV)
    requires 0 <= a < Rows(RecordAt(ctx, segs, q)) && 0 <= c < Rows(RecordAt(ctx, segs, r))
    ensures var t, u := RecordAt(ctx, segs, q), RecordAt(ctx, segs, r);
            && NLen(t) >= 1 && NLen(u) >= 1
            && !(t.batchIdx == u.batchIdx && HeadOf(t, a) == HeadOf(u, c) && QueryOf(t, a) == QueryOf(u, c))
  {
    hide *;
    var t, u := RecordAt(ctx, segs, q), RecordAt(ctx, segs, r);
    var e, f := segs[Runs(segs)[q]], segs[Runs(segs)[r]];
    RowInRecord(ctx, segs, q, a);
    RowInRecord(ctx, segs, r, c);
    if t.batchIdx == u.batchIdx && HeadOf(t, a) == HeadOf(u, c) && QueryOf(t, a) == QueryOf(u, c) {
      OneTile(ctx, e.b, e.n1, e.s1, f.n1, f.s1, HeadOf(t, a), QueryOf(t, a));
      AllIsList(ShapeOf(ctx), cores, segs);
      RunsDifferEither(ShapeOf(ctx), cores, segs, q, r);
      SameTileIs(e, f);
      assert false;
    }
  }

  lemma SameTileIs(e: Seg, f: Seg)
    requires e.b == f.b && e.n1 == f.n1 && e.s1 == f.s1
    ensures SameTile(e, f)
  {
  }

  lemma RunsDifferEither(sh: Shape, cores: seq<CoreNode>, segs: seq<Seg>, q: int, r: int)
    requires WellShaped(sh) && SoundTable(sh, cores) && SegList(sh, cores, segs, Seg(|cores|, 0, 0, 0))
    requires 0 <= q < |Runs(segs)| && 0 <= r < |Runs(segs)| && q != r
    ensures !SameTile(segs[Runs(segs)[q]], segs[Runs(segs)[r]])
  {
    hide SoundTable, SegList, Runs;
    RunsDiffer(sh, cores, segs, Seg(|cores|, 0, 0, 0), if q < r then q else r, if q < r then r else q);
  }

  /** Equal output rows mean equal batch, head and query row. */
  lemma SameRowSamePair(ctx: Context, t: SplitNode, u: SplitNode, a: int, c: int)
    requires ctx.Valid() && NLen(t) >= 1 && NLen(u) >= 1 && (ctx.isVarlenQ ==> ctx.cuSeqlenQ[0] == 0)
    requires 0 <= t.batchIdx < ctx.batchSize && 0 <= u.batchIdx < ctx.batchSize
    requires HasBatch(LayoutOf(ctx), t) && HasBatch(LayoutOf(ctx), u)
    requires 0 <= HeadOf(t, a) < ctx.numHeads && 0 <= QueryOf(t, a) < GetBatchParams(ctx, t.batchIdx).qSeqlen
    requires 0 <= HeadOf(u, c) < ctx.numHeads && 0 <= QueryOf(u, c) < GetBatchParams(ctx, u.batchIdx).qSeqlen
    ensures RowIndex(t, ctx.numHeads, PrevQ(LayoutOf(ctx), t), a) == RowIndex(u, ctx.numHeads, PrevQ(LayoutOf(ctx), u), c) ==>
              t.batchIdx == u.batchIdx && HeadOf(t, a) == HeadOf(u, c) && QueryOf(t, a) == QueryOf(u, c)
  {
    var lay := LayoutOf(ctx);
    assert RowIndex(t, ctx.numHeads, PrevQ(lay, t), a) == (PrevQ(lay, t) + QueryOf(t, a)) * ctx.numHeads + HeadOf(t, a);
    assert RowIndex(u, ctx.numHeads, PrevQ(lay, u), c) == (PrevQ(lay, u) + QueryOf(u, c)) * ctx.numHeads + HeadOf(u, c);
    BatchTokens(ctx, t, u.batchIdx);
    BatchTokens(ctx, u, t.batchIdx);
    PrevQOf(lay, t, u);
    hide RowIndex, PrevQ, LayoutOf, HeadOf, QueryOf, GetBatchParams, NLen;
    if RowIndex(t, ctx.numHeads, PrevQ(lay, t), a) == RowIndex(u, ctx.numHeads, PrevQ(lay, u), c) {
      Digits(PrevQ(lay, t) + QueryOf(t, a), HeadOf(t, a), PrevQ(lay, u) + QueryOf(u, c), HeadOf(u, c), ctx.numHeads);
    }
  }

  /** Tokens before a batch depend on the batch alone. */
  lemma PrevQOf(lay: Layout, t: SplitNode, u: SplitNode)
    requires HasBatch(lay, t) && HasBatch(lay, u)
    ensures PrevQ(lay, t.(batchIdx := u.batchIdx)) == PrevQ(lay, u) && PrevQ(lay, u.(batchIdx := t.batchIdx)) == PrevQ(lay, t)
    ensures t.batchIdx == u.batchIdx ==> PrevQ(lay, t) == PrevQ(lay, u)
  {
  }

  lemma SameLseSamePair(ctx: Context, t: SplitNode, u: SplitNode, a: int, c: int)
    requires ctx.Valid() && NLen(t) >= 1 && NLen(u) >= 1 && (ctx.isVarlenQ ==> ctx.cuSeqlenQ[0] == 0)
    requires 0 <= t.batchIdx < ctx.batchSize && 0 <= u.batchIdx < ctx.batchSize
    requires HasBatch(LayoutOf(ctx), t) && HasBatch(LayoutOf(ctx), u)
    requires 0 <= HeadOf(t, a) < ctx.numHeads && 0 <= QueryOf(t, a) < GetBatchParams(ctx, t.batchIdx).qSeqlen
    requires 0 <= HeadOf(u, c) < ctx.numHeads && 0 <= QueryOf(u, c) < GetBatchParams(ctx, u.batchIdx).qSeqlen
    ensures LseIndex(LayoutOf(ctx), ctx.numHeads, t, a) == LseIndex(LayoutOf(ctx), ctx.numHeads, u, c) ==>
              t.batchIdx == u.batchIdx && HeadOf(t, a) == HeadOf(u, c) && QueryOf(t, a) == QueryOf(u, c)
  {
    hide *;
    if LseIndex(LayoutOf(ctx), ctx.numHeads, t, a) == LseIndex(LayoutOf(ctx), ctx.numHeads, u, c) {
      if ctx.isVarlenQ {
        PackedLse(ctx, t, u, a, c);
      } else {
        PaddedLength(ctx, t.batchIdx);
        PaddedLength(ctx, u.batchIdx);
        PaddedLse(ctx, t, u, a, c);
      }
    }
  }

  lemma PaddedLength(ctx: Context, b: int)
    requires ctx.Valid() && 0 <= b < ctx.batchSize && !ctx.isVarlenQ
    ensures GetBatchParams(ctx, b).qSeqlen == ctx.seqlenQ
  {
  }

  lemma PackedLse(ctx: Context, t: SplitNode, u: SplitNode, a: int, c: int)
    requires ctx.Valid() && NLen(t) >= 1 && NLen(u) >= 1 && ctx.isVarlenQ && ctx.cuSeqlenQ[0] == 0
    requires 0 <= t.batchIdx < ctx.batchSize && 0 <= u.batchIdx < ctx.batchSize
    requires HasBatch(LayoutOf(ctx), t) && HasBatch(LayoutOf(ctx), u)
    requires 0 <= QueryOf(t, a) < GetBatchParams(ctx, t.batchIdx).qSeqlen && 0 <= QueryOf(u, c) < GetBatchParams(ctx, u.batchIdx).qSeqlen
    requires LseIndex(LayoutOf(ctx), ctx.numHeads, t, a) == LseIndex(LayoutOf(ctx), ctx.numHeads, u, c)
    ensures t.batchIdx == u.batchIdx && HeadOf(t, a) == HeadOf(u, c) && QueryOf(t, a) == QueryOf(u, c)
  {
    var lay := LayoutOf(ctx);
    assert LseIndex(lay, ctx.numHeads, t, a) == HeadOf(t, a) * Tokens(ctx) + (PrevQ(lay, t) + QueryOf(t, a));
    assert LseIndex(lay, ctx.numHeads, u, c) == HeadOf(u, c) * Tokens(ctx) + (PrevQ(lay, u) + QueryOf(u, c));
    hide LseIndex, GetBatchParams, HeadOf, QueryOf, NLen, PrevQ, LayoutOf, Tokens;
    BatchTokens(ctx, t, u.batchIdx);
    BatchTokens(ctx, u, t.batchIdx);
    PrevQOf(lay, t, u);
    Digits(HeadOf(t, a), PrevQ(lay, t) + QueryOf(t, a), HeadOf(u, c), PrevQ(lay, u) + QueryOf(u, c), Tokens(ctx));
  }

  lemma PaddedLse(ctx: Context, t: SplitNode, u: SplitNode, a: int, c: int)
    requires ctx.Valid() && NLen(t) >= 1 && NLen(u) >= 1 && !ctx.isVarlenQ
    requires 0 <= t.batchIdx < ctx.batchSize && 0 <= u.batchIdx < ctx.batchSize
    requires HasBatch(LayoutOf(ctx), t) && HasBatch(LayoutOf(ctx), u)
    requires 0 <= HeadOf(t, a) < ctx.numHeads && 0 <= QueryOf(t, a) < ctx.seqlenQ
    requires 0 <= HeadOf(u, c) < ctx.numHeads && 0 <= QueryOf(u, c) < ctx.seqlenQ
    requires LseIndex(LayoutOf(ctx), ctx.numHeads, t, a) == LseIndex(LayoutOf(ctx), ctx.numHeads, u, c)
    ensures t.batchIdx == u.batchIdx && HeadOf(t, a) == HeadOf(u, c) && QueryOf(t, a) == QueryOf(u, c)
  {
    var lay, m, n := LayoutOf(ctx), ctx.seqlenQ, ctx.numHeads;
    assert LseIndex(lay, n, t, a) == t.batchIdx * m * n + HeadOf(t, a) * m + QueryOf(t, a);
    assert LseIndex(lay, n, u, c) == u.batchIdx * m * n + HeadOf(u, c) * m + QueryOf(u, c);
    hide LseIndex, HeadOf, QueryOf, NLen;
    Regroup3(t.batchIdx, m, n, HeadOf(t, a));
    Regroup3(u.batchIdx, m, n, HeadOf(u, c));
    Digits(t.batchIdx * n + HeadOf(t, a), QueryOf(t, a), u.batchIdx * n + HeadOf(u, c), QueryOf(u, c), m);
    Digits(t.batchIdx, HeadOf(t, a), u.batchIdx, HeadOf(u, c), n);
  }

  lemma Regroup3(b: int, m: int, n: int, h: int)
    ensures b * m * n + h * m == (b * n + h) * m
  {
    AddMultiples(b * n, h, m);
  }

  lemma RecordRowsDiffer(ctx: Context, cores: seq<CoreNode>, segs: seq<Seg>, q: int, r: int, a: int, c: int)
    requires ctx.Valid() && SoundTable(ShapeOf(ctx), cores) && AllSegs(ShapeOf(ctx), cores, segs) && InBatches(ctx, segs)
    requires TilesIn(ctx, segs) && (ctx.isVarlenQ ==> ctx.cuSeqlenQ[0] == 0)
    requires 0 <= q < |Runs(segs)| && 0 <= r < |Runs(segs)| && q != r
    requires var t, u := RecordAt(ctx, segs, q), RecordAt(ctx, segs, r);
             && ValidTask(t, ctx.numHeads, ctx.headSizeV) && ValidTask(u, ctx.numHeads, ctx.headSizeV)
             && NLen(t) >= 1 && NLen(u) >= 1 && HasBatch(LayoutOf(ctx), t) && HasBatch(LayoutOf(ctx), u)
             && 0 <= a < Rows(t) && 0 <= c < Rows(u)
    ensures var t, u, lay := RecordAt(ctx, segs, q), RecordAt(ctx, segs, r), LayoutOf(ctx);
            && RowIndex(t, ctx.numHeads, PrevQ(lay, t), a) != RowIndex(u, ctx.numHeads, PrevQ(lay, u), c)
            && LseIndex(lay, ctx.numHeads, t, a) != LseIndex(lay, ctx.numHeads, u, c)
  {
    hide *;
    var t, u := RecordAt(ctx, segs, q), RecordAt(ctx, segs, r);
    RecordsDiffer(ctx, cores, segs, q, r, a, c);
    RowInRecord(ctx, segs, q, a);
    RowInRecord(ctx, segs, r, c);
    SameRowSamePair(ctx, t, u, a, c);
    SameLseSamePair(ctx, t, u, a, c);
  }

  lemma RecordsRowsApart(ctx: Context, cores: seq<CoreNode>, segs: seq<Seg>, env: Env, outLen: int, lseLen: int, q: int, r: int)
    requires ctx.Valid() && SoundTable(ShapeOf(ctx), cores) && AllSegs(ShapeOf(ctx), cores, segs) && InBatches(ctx, segs)
    requires Buffers(ctx, segs, env, outLen, lseLen) && TilesIn(ctx, segs)
    requires 0 <= q < |Runs(segs)| && 0 <= r < |Runs(segs)| && q != r
    requires var t, u := RecordAt(ctx, segs, q), RecordAt(ctx, segs, r);
             Placed(env, LayoutOf(ctx), t, outLen, lseLen) && Placed(env, LayoutOf(ctx), u, outLen, lseLen)
             && NLen(t) >= 1 && NLen(u) >= 1 && HasBatch(LayoutOf(ctx), t) && HasBatch(LayoutOf(ctx), u)
    ensures var t, u := RecordAt(ctx, segs, q), RecordAt(ctx, segs, r);
            RowsApart(env, LayoutOf(ctx), t, u) && LsesApart(env, LayoutOf(ctx), t, u)
  {
    hide *;
    var t, u, lay := RecordAt(ctx, segs, q), RecordAt(ctx, segs, r), LayoutOf(ctx);
    BuffersHold(ctx, segs, env, outLen, lseLen);
    PlacedIn(env, lay, t, outLen, lseLen);
    PlacedIn(env, lay, u, outLen, lseLen);
    ReadyTask(env, t);
    ReadyTask(env, u);
    forall a, c | 0 <= a < Rows(t) && 0 <= c < Rows(u)
      ensures RowIndex(t, env.qHeads, PrevQ(lay, t), a) != RowIndex(u, env.qHeads, PrevQ(lay, u), c)
      ensures LseIndex(lay, env.qHeads, t, a) != LseIndex(lay, env.qHeads, u, c)
    {
      RecordRowsDiffer(ctx, cores, segs, q, r, a, c);
    }
    ApartIs(env, lay, t, u);
  }

  lemma ApartIs(env: Env, lay: Layout, t: SplitNode, u: SplitNode)
    requires NLen(t) >= 1 && NLen(u) >= 1 && HasBatch(lay, t) && HasBatch(lay, u)
    requires forall a, c :: 0 <= a < Rows(t) && 0 <= c < Rows(u) ==>
                              && RowIndex(t, env.qHeads, PrevQ(lay, t), a) != RowIndex(u, env.qHeads, PrevQ(lay, u), c)
                              && LseIndex(lay, env.qHeads, t, a) != LseIndex(lay, env.qHeads, u, c)
    ensures RowsApart(env, lay, t, u) && LsesApart(env, lay, t, u)
  {
    hide RowIndex, LseIndex, PrevQ, Rows, NLen, HasBatch;
  }

  /** The records of the split pass are tasks for the combine step: all inside the buffers,
      no two of them touching the same output row. */
  lemma RecordsAreTasks(ctx: Context, cores: seq<CoreNode>, segs: seq<Seg>, env: Env, outLen: int, lseLen: int)
    requires ctx.Valid() && SoundTable(ShapeOf(ctx), cores) && AllSegs(ShapeOf(ctx), cores, segs) && InBatches(ctx, segs)
    requires Buffers(ctx, segs, env, outLen, lseLen)
    ensures AllPlaced(env, LayoutOf(ctx), Records(ctx, segs), outLen, lseLen)
    ensures TasksApart(env, LayoutOf(ctx), Records(ctx, segs), outLen, lseLen)
  {
    var tasks, lay := Records(ctx, segs), LayoutOf(ctx);
    AllIsList(ShapeOf(ctx), cores, segs);
    ListedTilesIn(ctx, cores, segs, Seg(|cores|, 0, 0, 0));
    hide ShapeOf, SoundTable, AllSegs, SegList, Buffers, Placed, RecordAt, Runs, Records, TilesIn, RowsApart, LsesApart, NLen, HasBatch, LayoutOf;
    forall r | 0 <= r < |tasks|
      ensures Placed(env, lay, tasks[r], outLen, lseLen)
    {
      RecordPlaced(ctx, cores, segs, env, outLen, lseLen, r);
    }
    forall q, r | 0 <= q < |tasks| && 0 <= r < |tasks| && q != r
      ensures NLen(tasks[q]) >= 1 && NLen(tasks[r]) >= 1 && HasBatch(lay, tasks[q]) && HasBatch(lay, tasks[r])
      ensures RowsApart(env, lay, tasks[q], tasks[r]) && LsesApart(env, lay, tasks[q], tasks[r])
    {
      PlacedIn(env, lay, tasks[q], outLen, lseLen);
      PlacedIn(env, lay, tasks[r], outLen, lseLen);
      RecordsRowsApart(ctx, cores, segs, env, outLen, lseLen, q, r);
    }
  }
}
