/** A whole decoding run: schedule, kernel and combine step. Every row of every tile that several
    cores share ends up as attention over all its keys; every other row is left alone. */
module WholeRun {
  import opened Arith
  import opened Cover
  import opened SplitParams
  import opened Tiles
  import opened SplitSegments
  import opened SplitRecords
  import opened ScratchLayout
  import opened SplitKeys
  import opened KeyBlocks
  import opened KernelRun
  import opened CombineMath
  import opened CombineRows
  import opened CombineMerge
  import opened CombineLse
  import opened CombineLink
  import opened CombineResult
  import opened SplitAttention
  import opened Scheduler

  /** The tile of a row. */
  function TileOfRow(ctx: Context, b: int, h: int, q: int): Seg
    requires ctx.Valid() && 0 <= b < ctx.batchSize
  {
    Seg(0, b, HeadBlock(ctx, GetBatchParams(ctx, b), h), q / Q_TILE_CEIL)
  }

  /** Several cores hold blocks of the row's tile. */
  ghost predicate Shared(ctx: Context, cores: seq<CoreNode>, b: int, h: int, q: int)
    requires ctx.Valid() && 0 <= b < ctx.batchSize
  {
    |Owners(ShapeOf(ctx), cores, TileOfRow(ctx, b, h, q))| >= 2
  }

  /** Where a row is in the output, and in the log-sum-exp output. */
  function OutRow(ctx: Context, b: int, h: int, q: int): int
    requires ctx.Valid() && 0 <= b < ctx.batchSize
  {
    ((if ctx.isVarlenQ then ctx.cuSeqlenQ[b] else b * ctx.seqlenQ) + q) * ctx.numHeads + h
  }

  function LseAddress(ctx: Context, b: int, h: int, q: int): int
    requires ctx.Valid() && 0 <= b < ctx.batchSize
  {
    if ctx.isVarlenQ then h * ctx.cuSeqlenQ[ctx.batchSize] + (ctx.cuSeqlenQ[b] + q)
    else b * ctx.seqlenQ * ctx.numHeads + h * ctx.seqlenQ + q
  }

  /** Output rows run over the heads of a query row, the query rows of a batch and the batches,
      without a gap. */
  lemma OutRowsFollow(ctx: Context, b: int, h: int, q: int)
    requires ctx.Valid() && 0 <= b < ctx.batchSize && 0 <= q < QueryCount(ctx, b) && 0 <= h < ctx.numHeads
    ensures h + 1 < ctx.numHeads ==> OutRow(ctx, b, h + 1, q) == OutRow(ctx, b, h, q) + 1
    ensures h + 1 == ctx.numHeads && q + 1 < QueryCount(ctx, b) ==> OutRow(ctx, b, 0, q + 1) == OutRow(ctx, b, h, q) + 1
    ensures h + 1 == ctx.numHeads && q + 1 == QueryCount(ctx, b) && b + 1 < ctx.batchSize ==>
              OutRow(ctx, b + 1, 0, 0) == OutRow(ctx, b, h, q) + 1
    ensures !ctx.isVarlenQ || ctx.cuSeqlenQ[0] == 0 ==> OutRow(ctx, 0, 0, 0) == 0
  {
    NextMultiple(b, ctx.seqlenQ);
    var token := (if ctx.isVarlenQ then ctx.cuSeqlenQ[b] else b * ctx.seqlenQ) + q;
    NextMultiple(token, ctx.numHeads);
  }

  /** Log-sum-exps run over the query rows of a head: of a batch, head after head and batch after
      batch, or, packed, of all batches, head after head. */
  lemma LseFollow(ctx: Context, b: int, h: int, q: int)
    requires ctx.Valid() && 0 <= b < ctx.batchSize && 0 <= q < QueryCount(ctx, b) && 0 <= h < ctx.numHeads
    requires ctx.isVarlenQ ==> ctx.cuSeqlenQ[0] == 0
    ensures q + 1 < QueryCount(ctx, b) ==> LseAddress(ctx, b, h, q + 1) == LseAddress(ctx, b, h, q) + 1
    ensures q + 1 == QueryCount(ctx, b) && !ctx.isVarlenQ ==>
              LseAddress(ctx, b, h, q) + 1 == if h + 1 < ctx.numHeads then LseAddress(ctx, b, h + 1, 0) else (b + 1) * ctx.seqlenQ * ctx.numHeads
    ensures q + 1 == QueryCount(ctx, b) && ctx.isVarlenQ && b + 1 < ctx.batchSize ==> LseAddress(ctx, b + 1, h, 0) == LseAddress(ctx, b, h, q) + 1
    ensures q + 1 == QueryCount(ctx, b) && ctx.isVarlenQ && b + 1 == ctx.batchSize ==> LseAddress(ctx, 0, h + 1, 0) == LseAddress(ctx, b, h, q) + 1
    ensures !ctx.isVarlenQ ==> LseAddress(ctx, b, 0, 0) == b * ctx.seqlenQ * ctx.numHeads
    ensures LseAddress(ctx, 0, 0, 0) == 0
  {
    var s, n := ctx.seqlenQ, ctx.numHeads;
    if ctx.isVarlenQ {
      NextMultiple(h, ctx.cuSeqlenQ[ctx.batchSize]);
    } else {
      NextMultiple(h, s);
      NextMultiple(b, s);
      AddMultiples(b * s, s, n);
      Commute(n, s);
    }
  }

  lemma RowIndexIs(ctx: Context, t: SplitNode, a: int)
    requires ctx.Valid() && 0 <= t.batchIdx < ctx.batchSize && NLen(t) >= 1 && HasBatch(LayoutOf(ctx), t)
    ensures RowIndex(t, ctx.numHeads, PrevQ(LayoutOf(ctx), t), a) == OutRow(ctx, t.batchIdx, HeadOf(t, a), QueryOf(t, a))
    ensures LseIndex(LayoutOf(ctx), ctx.numHeads, t, a) == LseAddress(ctx, t.batchIdx, HeadOf(t, a), QueryOf(t, a))
  {
  }

  lemma HasItsBatch(ctx: Context, t: SplitNode)
    requires ctx.Valid() && 0 <= t.batchIdx < ctx.batchSize
    ensures HasBatch(LayoutOf(ctx), t)
  {
  }

  /** A single row, seen as a task. */
  function One(b: int, h: int, q: int): SplitNode { SplitNode(b, h, h + 1, q, q + 1, 1, 0, 0) }

  lemma OneIs(b: int, h: int, q: int)
    ensures NLen(One(b, h, q)) == 1 && One(b, h, q).batchIdx == b && HeadOf(One(b, h, q), 0) == h && QueryOf(One(b, h, q), 0) == q
  {
  }

  /** Different rows have different places. */
  lemma PlacesDiffer(ctx: Context, b: int, h: int, q: int, b': int, h': int, q': int)
    requires ctx.Valid() && IsRow(ctx, b, h, q) && IsRow(ctx, b', h', q') && (ctx.isVarlenQ ==> ctx.cuSeqlenQ[0] == 0)
    ensures OutRow(ctx, b, h, q) == OutRow(ctx, b', h', q') ==> b == b' && h == h' && q == q'
    ensures LseAddress(ctx, b, h, q) == LseAddress(ctx, b', h', q') ==> b == b' && h == h' && q == q'
  {
    assert 0 <= b < ctx.batchSize && 0 <= b' < ctx.batchSize;
    assert 0 <= q < GetBatchParams(ctx, b).qSeqlen && 0 <= q' < GetBatchParams(ctx, b').qSeqlen;
    var t, u := One(b, h, q), One(b', h', q');
    hide *;
    RowOf(ctx, b, h, q);
    RowOf(ctx, b', h', q');
    OneIs(b, h, q);
    OneIs(b', h', q');
    HasItsBatch(ctx, t);
    HasItsBatch(ctx, u);
    RowIndexIs(ctx, t, 0);
    RowIndexIs(ctx, u, 0);
    SameRowSamePair(ctx, t, u, 0, 0);
    SameLseSamePair(ctx, t, u, 0, 0);
  }

  lemma RowOf(ctx: Context, b: int, h: int, q: int)
    requires ctx.Valid() && IsRow(ctx, b, h, q)
    ensures 0 <= b < ctx.batchSize && 0 <= h < ctx.numHeads && 0 <= q < GetBatchParams(ctx, b).qSeqlen
  {
    hide GetBatchParams;
  }

  /* Rows and records. */

  /** The table and the list of its split segments. */
  ghost predicate Scheduled(ctx: Context, cores: seq<CoreNode>, segs: seq<Seg>)
    requires ctx.Valid()
  {
    SoundTable(ShapeOf(ctx), cores) && AllSegs(ShapeOf(ctx), cores, segs) && InBatches(ctx, segs) && TilesIn(ctx, segs)
  }

  /** Flat row a of record r is row (b, h, q). */
  ghost predicate RecordsRow(ctx: Context, segs: seq<Seg>, r: int, a: int, b: int, h: int, q: int)
    requires ctx.Valid() && InBatches(ctx, segs)
  {
    && 0 <= r < |Runs(segs)| && NLen(RecordAt(ctx, segs, r)) >= 1 && 0 <= a < Rows(RecordAt(ctx, segs, r))
    && RecordAt(ctx, segs, r).batchIdx == b && HeadOf(RecordAt(ctx, segs, r), a) == h && QueryOf(RecordAt(ctx, segs, r), a) == q
  }

  lemma TileHasRow(ctx: Context, b: int, n1: int, s1: int, h: int, q: int)
    requires ctx.Valid() && 0 <= b < ctx.batchSize && 0 <= n1 && 0 <= h && 0 <= q
    ensures InTile(ctx, GetBatchParams(ctx, b), n1, s1, h, q) && q < GetBatchParams(ctx, b).qSeqlen
       <==> q < GetBatchParams(ctx, b).qSeqlen && SameTile(Seg(0, b, n1, s1), TileOfRow(ctx, b, h, q))
  {
    HeadInBlock(ctx, b, n1, h);
    assert GetBatchParams(ctx, b).curQSBlockTile == Q_TILE_CEIL;
    hide HeadStart, HeadEnd, HeadBlock, GetBatchParams;
    if 0 <= q - s1 * Q_TILE_CEIL < Q_TILE_CEIL { DivideBetween(q, Q_TILE_CEIL, s1); }
  }

  /** A row of a shared tile is a flat row of a record. */
  lemma FindRecord(ctx: Context, cores: seq<CoreNode>, segs: seq<Seg>, b: int, h: int, q: int) returns (r: int, a: int)
    requires ctx.Valid() && Scheduled(ctx, cores, segs) && IsRow(ctx, b, h, q) && InBatches(ctx, segs)
    requires 0 <= b < ctx.batchSize && Shared(ctx, cores, b, h, q)
    ensures RecordsRow(ctx, segs, r, a, b, h, q)
  {
    RowOf(ctx, b, h, q);
    SharedOwners(ctx, cores, b, h, q);
    ScheduledIs(ctx, cores, segs);
    hide *;
    var tile := TileOfRow(ctx, b, h, q);
    RecordIffShared(ctx, cores, segs, tile);
    r :| 0 <= r < |Runs(segs)| && SameTile(segs[Runs(segs)[r]], tile);
    var e, t := segs[Runs(segs)[r]], RecordAt(ctx, segs, r);
    RecordFields(ctx, segs, r);
    RecordShape(ctx, segs, r);
    TileOf(ctx, segs, Runs(segs)[r]);
    SameTileMeans(e, tile);
    TileIs(ctx, b, h, q);
    SameTileIs(Seg(0, b, e.n1, e.s1), tile);
    TileHasRow(ctx, b, e.n1, e.s1, h, q);
    InTileIs(ctx, b, e.n1, e.s1, h, q);
    a := FlatOf(ctx, t, h, q);
    RecordsRowIs(ctx, segs, r, a, b, h, q);
  }

  lemma SharedOwners(ctx: Context, cores: seq<CoreNode>, b: int, h: int, q: int)
    requires ctx.Valid() && 0 <= b < ctx.batchSize
    ensures Shared(ctx, cores, b, h, q) <==> |Owners(ShapeOf(ctx), cores, TileOfRow(ctx, b, h, q))| >= 2
  {
    hide Owners, TileOfRow, ShapeOf;
  }

  lemma ScheduledIs(ctx: Context, cores: seq<CoreNode>, segs: seq<Seg>)
    requires ctx.Valid() && Scheduled(ctx, cores, segs)
    ensures SoundTable(ShapeOf(ctx), cores) && AllSegs(ShapeOf(ctx), cores, segs) && InBatches(ctx, segs) && TilesIn(ctx, segs)
  {
    hide SoundTable, AllSegs, InBatches, TilesIn, ShapeOf;
  }

  lemma TileIs(ctx: Context, b: int, h: int, q: int)
    requires ctx.Valid() && 0 <= b < ctx.batchSize
    ensures TileOfRow(ctx, b, h, q).b == b
  {
    hide GetBatchParams, HeadBlock;
  }

  lemma InTileIs(ctx: Context, b: int, n1: int, s1: int, h: int, q: int)
    requires ctx.Valid() && 0 <= b < ctx.batchSize && InTile(ctx, GetBatchParams(ctx, b), n1, s1, h, q)
    ensures var p := GetBatchParams(ctx, b);
            HeadStart(ctx, p, n1) <= h < HeadEnd(ctx, p, n1) && QStart(p, s1) <= q < QEnd(p, s1)
  {
    hide GetBatchParams, HeadStart, HeadEnd, QStart, QEnd;
  }

  /** The flat row of a head and a query row inside a record. */
  lemma FlatOf(ctx: Context, t: SplitNode, h: int, q: int) returns (a: int)
    requires t.headStartIdx <= h < t.headEndIdx && t.qStartIdx <= q < t.qEndIdx
    ensures NLen(t) >= 1 && 0 <= a < Rows(t) && HeadOf(t, a) == h && QueryOf(t, a) == q
  {
    var n := NLen(t);
    a := (q - t.qStartIdx) * n + (h - t.headStartIdx);
    RowFits(QLen(t), n, q - t.qStartIdx);
    NextMultiple(q - t.qStartIdx, n);
    DivideBetween(a, n, q - t.qStartIdx);
  }

  lemma RecordsRowIs(ctx: Context, segs: seq<Seg>, r: int, a: int, b: int, h: int, q: int)
    requires ctx.Valid() && InBatches(ctx, segs) && 0 <= r < |Runs(segs)|
    requires var t := RecordAt(ctx, segs, r);
             NLen(t) >= 1 && 0 <= a < Rows(t) && t.batchIdx == b && HeadOf(t, a) == h && QueryOf(t, a) == q
    ensures RecordsRow(ctx, segs, r, a, b, h, q)
  {
    hide RecordAt, Runs, NLen, Rows, HeadOf, QueryOf;
  }

  /** A flat row of a record is a row of a shared tile. */
  lemma RecordIsShared(ctx: Context, cores: seq<CoreNode>, segs: seq<Seg>, r: int, a: int)
    requires ctx.Valid() && Scheduled(ctx, cores, segs) && InBatches(ctx, segs) && ctx.headSizeV >= 1
    requires 0 <= r < |Runs(segs)| && 0 <= a < Rows(RecordAt(ctx, segs, r)) && NLen(RecordAt(ctx, segs, r)) >= 1
    ensures var t := RecordAt(ctx, segs, r);
            && IsRow(ctx, t.batchIdx, HeadOf(t, a), QueryOf(t, a)) && 0 <= t.batchIdx < ctx.batchSize
            && Shared(ctx, cores, t.batchIdx, HeadOf(t, a), QueryOf(t, a))
  {
    ScheduledIs(ctx, cores, segs);
    hide *;
    var e, t := segs[Runs(segs)[r]], RecordAt(ctx, segs, r);
    RecordValid(ctx, cores, segs, r);
    RowInRecord(ctx, segs, r, a);
    TileHasRow(ctx, e.b, e.n1, e.s1, HeadOf(t, a), QueryOf(t, a));
    RowIs(ctx, e.b, HeadOf(t, a), QueryOf(t, a));
    RunIsOwners(ShapeOf(ctx), cores, segs, r);
    SharedTile(ctx, cores, e, HeadOf(t, a), QueryOf(t, a));
  }

  lemma RowIs(ctx: Context, b: int, h: int, q: int)
    requires ctx.Valid() && 0 <= b < ctx.batchSize && 0 <= h < ctx.numHeads && 0 <= q < GetBatchParams(ctx, b).qSeqlen
    ensures IsRow(ctx, b, h, q)
  {
    hide GetBatchParams;
  }

  lemma SharedTile(ctx: Context, cores: seq<CoreNode>, e: Seg, h: int, q: int)
    requires ctx.Valid() && 0 <= e.b < ctx.batchSize && |Owners(ShapeOf(ctx), cores, e)| >= 2
    requires SameTile(Seg(0, e.b, e.n1, e.s1), TileOfRow(ctx, e.b, h, q))
    ensures Shared(ctx, cores, e.b, h, q)
  {
    SameOwners(ShapeOf(ctx), cores, e, TileOfRow(ctx, e.b, h, q));
    hide Owners, ShapeOf;
  }

  /* The results. */

  /** The row holds attention over all its keys, if it sees any, in column d. */
  ghost predicate RowDone(ctx: Context, exp: real -> real, keys: RowKeys, out: seq<Row>, b: int, h: int, q: int, d: int)
    requires ctx.Valid() && 0 <= b < ctx.batchSize
  {
    var x := OutRow(ctx, b, h, q);
    && 0 <= x < |out| && 0 <= d < |out[x]|
    && (AllKeys(ctx, keys, b, h, q, d) != [] ==>
          && SumExp(exp, AllKeys(ctx, keys, b, h, q, d)) > 0.0
          && out[x][d] == Attention(exp, AllKeys(ctx, keys, b, h, q, d)))
  }

  ghost predicate LseDone(ctx: Context, exp: real -> real, ln: real -> real, keys: RowKeys, lses: seq<real>, b: int, h: int, q: int, d: int)
    requires ctx.Valid() && 0 <= b < ctx.batchSize
  {
    var x := LseAddress(ctx, b, h, q);
    && 0 <= x < |lses|
    && (AllKeys(ctx, keys, b, h, q, d) != [] ==> lses[x] == Lse(exp, ln, AllKeys(ctx, keys, b, h, q, d)))
  }

  /** What becomes of a row: done if its tile was shared, untouched if not. */
  ghost predicate RowSettled(ctx: Context, cores: seq<CoreNode>, exp: real -> real, ln: real -> real, keys: RowKeys, outputLse: bool,
                             o: seq<Row>, o': seq<Row>, l: seq<real>, l': seq<real>, b: int, h: int, q: int)
    requires ctx.Valid() && 0 <= b < ctx.batchSize && |o| == |o'| && |l| == |l'|
  {
    if Shared(ctx, cores, b, h, q) then
      forall d :: 0 <= d < ctx.headSizeV ==>
        RowDone(ctx, exp, keys, o', b, h, q, d) && (outputLse ==> LseDone(ctx, exp, ln, keys, l', b, h, q, d))
    else
      var x, y := OutRow(ctx, b, h, q), LseAddress(ctx, b, h, q);
      (0 <= x < |o| ==> o'[x] == o[x]) && (0 <= y < |l| ==> l'[y] == l[y])
  }

  ghost predicate AllSettled(ctx: Context, cores: seq<CoreNode>, exp: real -> real, ln: real -> real, keys: RowKeys, outputLse: bool,
                             o: seq<Row>, o': seq<Row>, l: seq<real>, l': seq<real>)
    requires ctx.Valid() && |o| == |o'| && |l| == |l'|
  {
    forall b, h, q :: IsRow(ctx, b, h, q) ==> RowSettled(ctx, cores, exp, ln, keys, outputLse, o, o', l, l', b, h, q)
  }

  /** What the combine step has done with the records. */
  ghost predicate Combined(ctx: Context, cores: seq<CoreNode>, segs: seq<Seg>, env: Env, keys: RowKeys, parts: (int, int, int) -> seq<seq<Key>>,
                           outputLse: bool, o: seq<Row>, o': seq<Row>, l: seq<real>, l': seq<real>)
    requires ctx.Valid()
  {
    && Scheduled(ctx, cores, segs) && InBatches(ctx, segs) && env.qHeads == ctx.numHeads && env.headSizeV == ctx.headSizeV && ctx.headSizeV >= 1
    && (forall k :: 0 <= k < |Records(ctx, segs)| ==>
          Ready(env, Records(ctx, segs)[k]) && NLen(Records(ctx, segs)[k]) >= 1 && HasBatch(LayoutOf(ctx), Records(ctx, segs)[k]))
    && AllHold(env, LayoutOf(ctx), Records(ctx, segs), o', l', outputLse, parts)
    && RestKept(env, LayoutOf(ctx), Records(ctx, segs), o, o', l, l', outputLse)
    && forall k, a, d :: parts(k, a, d) == PartsFor(ctx, cores, segs, keys, k, a, d)
  }

  lemma CombinedParts(ctx: Context, cores: seq<CoreNode>, segs: seq<Seg>, env: Env, keys: RowKeys, parts: (int, int, int) -> seq<seq<Key>>,
                      outputLse: bool, o: seq<Row>, o': seq<Row>, l: seq<real>, l': seq<real>)
    requires ctx.Valid() && Combined(ctx, cores, segs, env, keys, parts, outputLse, o, o', l, l')
    ensures Scheduled(ctx, cores, segs) && InBatches(ctx, segs) && env.qHeads == ctx.numHeads && env.headSizeV == ctx.headSizeV && ctx.headSizeV >= 1
    ensures |o| == |o'| && |l| == |l'| && RestKept(env, LayoutOf(ctx), Records(ctx, segs), o, o', l, l', outputLse)
  {
    hide Scheduled, InBatches, Records, Ready, NLen, HasBatch, AllHold, PartsFor, AtRow, AtLse;
  }

  /** One flat row of a record, after combining. */
  lemma RecordRowDone(ctx: Context, cores: seq<CoreNode>, segs: seq<Seg>, env: Env, keys: RowKeys, parts: (int, int, int) -> seq<seq<Key>>,
                      outputLse: bool, o: seq<Row>, o': seq<Row>, l: seq<real>, l': seq<real>, r: int, a: int, d: int)
    requires ctx.Valid() && Combined(ctx, cores, segs, env, keys, parts, outputLse, o, o', l, l') && InBatches(ctx, segs)
    requires 0 <= r < |Runs(segs)| && 0 <= a < Rows(RecordAt(ctx, segs, r)) && 0 <= d < ctx.headSizeV
    ensures var t := RecordAt(ctx, segs, r);
            && Ready(env, t) && NLen(t) >= 1 && HasBatch(LayoutOf(ctx), t)
            && RowHolds(env, LayoutOf(ctx), t, a, d, o', Flatten(PartsFor(ctx, cores, segs, keys, r, a, d)))
            && (outputLse ==> LseHolds(env, LayoutOf(ctx), t, a, l', Flatten(PartsFor(ctx, cores, segs, keys, r, a, d))))
  {
    hide Scheduled, Ready, NLen, Rows, HasBatch, RowHolds, LseHolds, PartsFor, Flatten, RecordAt, Runs, LayoutOf, RestKept, InBatches;
    assert Records(ctx, segs)[r] == RecordAt(ctx, segs, r);
    assert parts(r, a, d) == PartsFor(ctx, cores, segs, keys, r, a, d);
  }

  lemma DoneAt(ctx: Context, env: Env, keys: RowKeys, t: SplitNode, a: int, d: int, out: seq<Row>, b: int, h: int, q: int)
    requires ctx.Valid() && Ready(env, t) && NLen(t) >= 1 && HasBatch(LayoutOf(ctx), t) && env.qHeads == ctx.numHeads
    requires t.batchIdx == b && 0 <= b < ctx.batchSize && HeadOf(t, a) == h && QueryOf(t, a) == q
    requires RowHolds(env, LayoutOf(ctx), t, a, d, out, AllKeys(ctx, keys, b, h, q, d))
    ensures RowDone(ctx, env.exp, keys, out, b, h, q, d)
  {
    RowIndexIs(ctx, t, a);
    hide Ready, NLen, HasBatch, LayoutOf, HeadOf, QueryOf, OutRow, RowIndex, AllKeys, SumExp, Attention;
  }

  lemma LseDoneAt(ctx: Context, env: Env, keys: RowKeys, t: SplitNode, a: int, d: int, lses: seq<real>, b: int, h: int, q: int)
    requires ctx.Valid() && Ready(env, t) && NLen(t) >= 1 && HasBatch(LayoutOf(ctx), t) && env.qHeads == ctx.numHeads
    requires t.batchIdx == b && 0 <= b < ctx.batchSize && HeadOf(t, a) == h && QueryOf(t, a) == q
    requires LseHolds(env, LayoutOf(ctx), t, a, lses, AllKeys(ctx, keys, b, h, q, d))
    ensures LseDone(ctx, env.exp, env.ln, keys, lses, b, h, q, d)
  {
    RowIndexIs(ctx, t, a);
    hide Ready, NLen, HasBatch, LayoutOf, HeadOf, QueryOf, LseAddress, LseIndex, AllKeys, Lse;
  }

  /** A row of a shared tile, after combining. */
  lemma SharedDone(ctx: Context, cores: seq<CoreNode>, segs: seq<Seg>, env: Env, keys: RowKeys, parts: (int, int, int) -> seq<seq<Key>>,
                   outputLse: bool, o: seq<Row>, o': seq<Row>, l: seq<real>, l': seq<real>, b: int, h: int, q: int, d: int)
    requires ctx.Valid() && Combined(ctx, cores, segs, env, keys, parts, outputLse, o, o', l, l')
    requires IsRow(ctx, b, h, q) && 0 <= b < ctx.batchSize && Shared(ctx, cores, b, h, q) && 0 <= d < ctx.headSizeV
    ensures RowDone(ctx, env.exp, keys, o', b, h, q, d) && (outputLse ==> LseDone(ctx, env.exp, env.ln, keys, l', b, h, q, d))
  {
    CombinedParts(ctx, cores, segs, env, keys, parts, outputLse, o, o', l, l');
    ScheduledIs(ctx, cores, segs);
    hide *;
    var r, a := FindRecord(ctx, cores, segs, b, h, q);
    RecordsRowMeans(ctx, segs, r, a, b, h, q);
    var t := RecordAt(ctx, segs, r);
    RecordRowDone(ctx, cores, segs, env, keys, parts, outputLse, o, o', l, l', r, a, d);
    PartsAreAll(ctx, cores, segs, keys, r, a, d);
    DoneAt(ctx, env, keys, t, a, d, o', b, h, q);
    if outputLse {
      LseDoneAt(ctx, env, keys, t, a, d, l', b, h, q);
    }
  }

  lemma RecordsRowMeans(ctx: Context, segs: seq<Seg>, r: int, a: int, b: int, h: int, q: int)
    requires ctx.Valid() && InBatches(ctx, segs) && RecordsRow(ctx, segs, r, a, b, h, q)
    ensures 0 <= r < |Runs(segs)|
    ensures var t := RecordAt(ctx, segs, r);
            NLen(t) >= 1 && 0 <= a < Rows(t) && t.batchIdx == b && HeadOf(t, a) == h && QueryOf(t, a) == q
  {
    hide RecordAt, Runs, NLen, Rows, HeadOf, QueryOf;
  }

  /** A row of any other tile belongs to no record. */
  lemma UnsharedApart(ctx: Context, cores: seq<CoreNode>, segs: seq<Seg>, env: Env, b: int, h: int, q: int, k: int, a: int)
    requires ctx.Valid() && Scheduled(ctx, cores, segs) && InBatches(ctx, segs) && env.qHeads == ctx.numHeads && ctx.headSizeV >= 1
    requires IsRow(ctx, b, h, q) && 0 <= b < ctx.batchSize && !Shared(ctx, cores, b, h, q) && 0 <= k < |Runs(segs)|
    requires ctx.isVarlenQ ==> ctx.cuSeqlenQ[0] == 0
    ensures !AtRow(env, LayoutOf(ctx), RecordAt(ctx, segs, k), a, OutRow(ctx, b, h, q))
    ensures !AtLse(env, LayoutOf(ctx), RecordAt(ctx, segs, k), a, LseAddress(ctx, b, h, q))
  {
    hide *;
    var t := RecordAt(ctx, segs, k);
    AtMeans(env, LayoutOf(ctx), t, a, OutRow(ctx, b, h, q), LseAddress(ctx, b, h, q));
    if NLen(t) >= 1 && HasBatch(LayoutOf(ctx), t) && 0 <= a < Rows(t) {
      RecordIsShared(ctx, cores, segs, k, a);
      RowIndexIs(ctx, t, a);
      PlacesDiffer(ctx, b, h, q, t.batchIdx, HeadOf(t, a), QueryOf(t, a));
    }
  }

  lemma AtMeans(env: Env, lay: Layout, t: SplitNode, a: int, x: int, y: int)
    ensures AtRow(env, lay, t, a, x) ==> NLen(t) >= 1 && HasBatch(lay, t) && 0 <= a < Rows(t) && RowIndex(t, env.qHeads, PrevQ(lay, t), a) == x
    ensures AtLse(env, lay, t, a, y) ==> NLen(t) >= 1 && HasBatch(lay, t) && 0 <= a < Rows(t) && LseIndex(lay, env.qHeads, t, a) == y
  {
    hide NLen, HasBatch, Rows, RowIndex, LseIndex, PrevQ;
  }

  lemma UnsharedKept(ctx: Context, cores: seq<CoreNode>, segs: seq<Seg>, env: Env, keys: RowKeys, parts: (int, int, int) -> seq<seq<Key>>,
                     outputLse: bool, o: seq<Row>, o': seq<Row>, l: seq<real>, l': seq<real>, b: int, h: int, q: int)
    requires ctx.Valid() && Combined(ctx, cores, segs, env, keys, parts, outputLse, o, o', l, l')
    requires IsRow(ctx, b, h, q) && 0 <= b < ctx.batchSize && !Shared(ctx, cores, b, h, q) && (ctx.isVarlenQ ==> ctx.cuSeqlenQ[0] == 0)
    ensures |o| == |o'| && |l| == |l'|
    ensures 0 <= OutRow(ctx, b, h, q) < |o| ==> o'[OutRow(ctx, b, h, q)] == o[OutRow(ctx, b, h, q)]
    ensures 0 <= LseAddress(ctx, b, h, q) < |l| ==> l'[LseAddress(ctx, b, h, q)] == l[LseAddress(ctx, b, h, q)]
  {
    CombinedParts(ctx, cores, segs, env, keys, parts, outputLse, o, o', l, l');
    hide *;
    var x, y, lay, tasks := OutRow(ctx, b, h, q), LseAddress(ctx, b, h, q), LayoutOf(ctx), Records(ctx, segs);
    forall k, a | 0 <= k < |tasks|
      ensures !AtRow(env, lay, tasks[k], a, x) && !AtLse(env, lay, tasks[k], a, y)
    {
      UnsharedApart(ctx, cores, segs, env, b, h, q, k, a);
    }
    KeptAt(env, lay, tasks, o, o', l, l', outputLse, x, y);
  }

  lemma KeptAt(env: Env, lay: Layout, tasks: seq<SplitNode>, o: seq<Row>, o': seq<Row>, l: seq<real>, l': seq<real>, outputLse: bool, x: int, y: int)
    requires RestKept(env, lay, tasks, o, o', l, l', outputLse)
    requires forall k, r :: 0 <= k < |tasks| ==> !AtRow(env, lay, tasks[k], r, x) && !AtLse(env, lay, tasks[k], r, y)
    ensures |o| == |o'| && |l| == |l'| && (0 <= x < |o| ==> o'[x] == o[x]) && (0 <= y < |l| ==> l'[y] == l[y])
  {
    hide AtRow, AtLse;
  }

  lemma Settled(ctx: Context, cores: seq<CoreNode>, segs: seq<Seg>, env: Env, keys: RowKeys, parts: (int, int, int) -> seq<seq<Key>>,
                outputLse: bool, o: seq<Row>, o': seq<Row>, l: seq<real>, l': seq<real>)
    requires ctx.Valid() && Combined(ctx, cores, segs, env, keys, parts, outputLse, o, o', l, l') && (ctx.isVarlenQ ==> ctx.cuSeqlenQ[0] == 0)
    ensures |o| == |o'| && |l| == |l'| && AllSettled(ctx, cores, env.exp, env.ln, keys, outputLse, o, o', l, l')
  {
    CombinedParts(ctx, cores, segs, env, keys, parts, outputLse, o, o', l, l');
    hide *;
    forall b, h, q | IsRow(ctx, b, h, q)
      ensures 0 <= b < ctx.batchSize && RowSettled(ctx, cores, env.exp, env.ln, keys, outputLse, o, o', l, l', b, h, q)
    {
      RowOf(ctx, b, h, q);
      if Shared(ctx, cores, b, h, q) {
        forall d | 0 <= d < ctx.headSizeV
          ensures RowDone(ctx, env.exp, keys, o', b, h, q, d) && (outputLse ==> LseDone(ctx, env.exp, env.ln, keys, l', b, h, q, d))
        {
          SharedDone(ctx, cores, segs, env, keys, parts, outputLse, o, o', l, l', b, h, q, d);
        }
      } else {
        UnsharedKept(ctx, cores, segs, env, keys, parts, outputLse, o, o', l, l', b, h, q);
      }
      SettledIs(ctx, cores, env.exp, env.ln, keys, outputLse, o, o', l, l', b, h, q);
    }
    AllSettledIs(ctx, cores, env.exp, env.ln, keys, outputLse, o, o', l, l');
  }

  lemma SettledIs(ctx: Context, cores: seq<CoreNode>, exp: real -> real, ln: real -> real, keys: RowKeys, outputLse: bool,
                  o: seq<Row>, o': seq<Row>, l: seq<real>, l': seq<real>, b: int, h: int, q: int)
    requires ctx.Valid() && 0 <= b < ctx.batchSize && |o| == |o'| && |l| == |l'|
    requires Shared(ctx, cores, b, h, q) ==> forall d :: 0 <= d < ctx.headSizeV ==>
               RowDone(ctx, exp, keys, o', b, h, q, d) && (outputLse ==> LseDone(ctx, exp, ln, keys, l', b, h, q, d))
    requires !Shared(ctx, cores, b, h, q) ==>
               && (0 <= OutRow(ctx, b, h, q) < |o| ==> o'[OutRow(ctx, b, h, q)] == o[OutRow(ctx, b, h, q)])
               && (0 <= LseAddress(ctx, b, h, q) < |l| ==> l'[LseAddress(ctx, b, h, q)] == l[LseAddress(ctx, b, h, q)])
    ensures RowSettled(ctx, cores, exp, ln, keys, outputLse, o, o', l, l', b, h, q)
  {
    hide Shared, OutRow, LseAddress, RowDone, LseDone;
  }

  lemma AllSettledIs(ctx: Context, cores: seq<CoreNode>, exp: real -> real, ln: real -> real, keys: RowKeys, outputLse: bool,
                     o: seq<Row>, o': seq<Row>, l: seq<real>, l': seq<real>)
    requires ctx.Valid() && |o| == |o'| && |l| == |l'|
    requires forall b, h, q :: IsRow(ctx, b, h, q) ==>
               0 <= b < ctx.batchSize && RowSettled(ctx, cores, exp, ln, keys, outputLse, o, o', l, l', b, h, q)
    ensures AllSettled(ctx, cores, exp, ln, keys, outputLse, o, o', l, l')
  {
    hide RowSettled, IsRow;
  }

  /* The run. */

  lemma RecordsReady(ctx: Context, cores: seq<CoreNode>, segs: seq<Seg>, env: Env, outLen: int, lseLen: int, tasks: seq<SplitNode>)
    requires ctx.Valid() && Scheduled(ctx, cores, segs) && InBatches(ctx, segs) && Buffers(ctx, segs, env, outLen, lseLen)
    requires tasks == Records(ctx, segs)
    ensures forall k :: 0 <= k < |tasks| ==> Ready(env, tasks[k]) && NLen(tasks[k]) >= 1 && HasBatch(LayoutOf(ctx), tasks[k])
  {
    ScheduledIs(ctx, cores, segs);
    hide *;
    RecordsAreTasks(ctx, cores, segs, env, outLen, lseLen);
    AllReady(env, LayoutOf(ctx), tasks, outLen, lseLen);
  }

  lemma RecordsPartial(ctx: Context, cores: seq<CoreNode>, segs: seq<Seg>, env: Env, partial: Partial, keys: RowKeys,
                       tasks: seq<SplitNode>, parts: (int, int, int) -> seq<seq<Key>>)
    requires ctx.Valid() && KernelDone(ctx, cores, segs, env, partial, keys) && InBatches(ctx, segs) && tasks == Records(ctx, segs)
    requires forall k :: 0 <= k < |tasks| ==> Ready(env, tasks[k])
    requires forall k, a, d :: parts(k, a, d) == PartsFor(ctx, cores, segs, keys, k, a, d)
    ensures Partials(env, tasks, parts)
  {
    DoneParts(ctx, cores, segs, env, partial, keys);
    hide *;
    forall k, a, d | 0 <= k < |tasks| && 0 <= a < Rows(tasks[k]) && 0 <= d < env.headSizeV
      ensures PartialRow(env, tasks[k], a, d, parts(k, a, d))
    {
      RecordPartial(ctx, cores, segs, env, partial, keys, k, a, d);
    }
    PartialsAre(env, tasks, parts);
  }

  lemma PartialsAre(env: Env, tasks: seq<SplitNode>, parts: (int, int, int) -> seq<seq<Key>>)
    requires forall k :: 0 <= k < |tasks| ==> Ready(env, tasks[k])
    requires forall k, a, d :: 0 <= k < |tasks| && 0 <= a < Rows(tasks[k]) && 0 <= d < env.headSizeV ==>
               PartialRow(env, tasks[k], a, d, parts(k, a, d))
    ensures Partials(env, tasks, parts)
  {
    hide Ready, Rows, PartialRow;
  }

  lemma CombinedIs(ctx: Context, cores: seq<CoreNode>, segs: seq<Seg>, env: Env, keys: RowKeys, parts: (int, int, int) -> seq<seq<Key>>,
                   outputLse: bool, o: seq<Row>, o': seq<Row>, l: seq<real>, l': seq<real>)
    requires ctx.Valid() && Scheduled(ctx, cores, segs) && InBatches(ctx, segs)
    requires env.qHeads == ctx.numHeads && env.headSizeV == ctx.headSizeV && ctx.headSizeV >= 1
    requires forall k :: 0 <= k < |Records(ctx, segs)| ==>
               Ready(env, Records(ctx, segs)[k]) && NLen(Records(ctx, segs)[k]) >= 1 && HasBatch(LayoutOf(ctx), Records(ctx, segs)[k])
    requires AllHold(env, LayoutOf(ctx), Records(ctx, segs), o', l', outputLse, parts)
    requires RestKept(env, LayoutOf(ctx), Records(ctx, segs), o, o', l, l', outputLse)
    requires forall k, a, d :: parts(k, a, d) == PartsFor(ctx, cores, segs, keys, k, a, d)
    ensures Combined(ctx, cores, segs, env, keys, parts, outputLse, o, o', l, l')
  {
    hide Scheduled, InBatches, Records, Ready, NLen, HasBatch, AllHold, RestKept, PartsFor;
  }

  /** The combine step after the kernel. */
  method CombineAfterKernel(ctx: Context, ghost cores: seq<CoreNode>, ghost segs: seq<Seg>, records: seq<SplitNode>, n: nat, env: Env,
                            ghost partial: Partial, ghost keys: RowKeys, subBlockNum: int, outputLse: bool,
                            oGm: array<Row>, lseOut: array<real>)
    requires ctx.Valid() && KernelDone(ctx, cores, segs, env, partial, keys)
    requires InBatches(ctx, segs) && Listed(ctx, segs, records) && n == |Runs(segs)|
    requires Roomy(ctx, oGm.Length, lseOut.Length)
    requires subBlockNum > 0 && subBlockNum % 2 == 0 && ExpLn(env.exp, env.ln)
    modifies oGm, lseOut
    ensures AllSettled(ctx, cores, env.exp, env.ln, keys, outputLse, old(oGm[..]), oGm[..], old(lseOut[..]), lseOut[..])
  {
    DoneParts(ctx, cores, segs, env, partial, keys);
    RoomyIs(ctx, oGm.Length, lseOut.Length);
    hide *;
    DoneScheduled(ctx, cores, segs, env, partial, keys);
    BuffersFilled(ctx, cores, segs, env, partial, keys, oGm.Length, lseOut.Length);
    TasksAreRecords(ctx, segs, records);
    ghost var tasks := records[..n];
    RecordsReady(ctx, cores, segs, env, oGm.Length, lseOut.Length, tasks);
    ghost var parts := (k: int, a: int, d: int) => PartsFor(ctx, cores, segs, keys, k, a, d);
    RecordsPartial(ctx, cores, segs, env, partial, keys, tasks, parts);
    assert forall k :: 0 <= k < n ==> records[k] == tasks[k];
    ghost var o, l := oGm[..], lseOut[..];
    CombineRecords(ctx, cores, segs, records, n, env, subBlockNum, outputLse, oGm, lseOut, parts);
    CombinedIs(ctx, cores, segs, env, keys, parts, outputLse, o, oGm[..], l, lseOut[..]);
    Settled(ctx, cores, segs, env, keys, parts, outputLse, o, oGm[..], l, lseOut[..]);
  }

  lemma RoomyIs(ctx: Context, outLen: int, lseLen: int)
    requires ctx.Valid() && Roomy(ctx, outLen, lseLen)
    ensures 1 <= ctx.headSizeV && (ctx.isVarlenQ ==> ctx.cuSeqlenQ[0] == 0)
  {
    hide Tokens;
  }

  lemma DoneScheduled(ctx: Context, cores: seq<CoreNode>, segs: seq<Seg>, env: Env, partial: Partial, keys: RowKeys)
    requires ctx.Valid() && KernelDone(ctx, cores, segs, env, partial, keys)
    ensures Scheduled(ctx, cores, segs)
  {
    hide SoundTable, AllSegs, InBatches, TilesIn, KernelRight, Filled, SizeOf, ShapeOf;
  }

  lemma TableGiven(ctx: Context, table: seq<CoreNode>, segs: seq<Seg>)
    requires ctx.Valid() && SoundTable(ShapeOf(ctx), table) && AllSegs(ShapeOf(ctx), table, segs) && InBatches(ctx, segs)
    requires FirstsAre(ctx, table, segs)
    ensures Given(ctx, table, segs) && TilesIn(ctx, segs)
  {
    AllIsList(ShapeOf(ctx), table, segs);
    ListedTilesIn(ctx, table, segs, Seg(|table|, 0, 0, 0));
    hide SoundTable, AllSegs, SegList, InBatches, TilesIn, FirstOffset, ShapeOf;
    assert forall c :: 0 <= c < |table| ==> NotedFirst(ctx, table[c], segs, c);
  }

  lemma ScratchSize(ctx: Context, segs: seq<Seg>, totals: Totals)
    requires ctx.Valid() && InBatches(ctx, segs) && TilesIn(ctx, segs)
    requires totals.splitLseTotalSize == SizeOf(ctx, segs) * SIZE_OF_32BIT
    ensures totals.splitLseTotalSize / SIZE_OF_32BIT == SizeOf(ctx, segs) >= 0
  {
    SlotWithin(ctx, segs, 0);
    hide SizeOf, TilesIn, InBatches;
  }

  lemma KernelIsDone(ctx: Context, cores: seq<CoreNode>, segs: seq<Seg>, env: Env, partial: Partial, keys: RowKeys)
    requires ctx.Valid() && SoundTable(ShapeOf(ctx), cores) && AllSegs(ShapeOf(ctx), cores, segs) && InBatches(ctx, segs) && TilesIn(ctx, segs)
    requires env.qHeads == ctx.numHeads && env.headSizeV == ctx.headSizeV && ctx.headSizeV >= 1
    requires KernelRight(ctx, env.exp, env.ln, env.low, partial, keys)
    requires Filled(ctx, cores, segs, partial, |segs|, env.lse, env.out) && |env.lse| == |env.out| == SizeOf(ctx, segs)
    ensures KernelDone(ctx, cores, segs, env, partial, keys)
  {
    hide SoundTable, AllSegs, InBatches, TilesIn, KernelRight, Filled, SizeOf, ShapeOf;
  }

  /** Schedule a decoding request, let every core leave its partial results, and combine them. If
      the kernel's partial results are right, every row that sees a key and whose tile several
      cores share holds attention over all its keys, and its log-sum-exp if asked for. All other
      tiles are left to the cores that hold them alone. */
  method DecodeRun(ctx: Context, coreInfo: array<CoreNode>, splitInfo: array<SplitNode>, partial: Partial, exp: real -> real, ln: real -> real,
                   low: real, subBlockNum: int, outputLse: bool, oGm: array<Row>, lseOut: array<real>, ghost keys: RowKeys)
    returns (needCoreNum: nat)
    requires ctx.Valid() && HasQueries(ctx) && Roomy(ctx, oGm.Length, lseOut.Length)
    requires coreInfo.Length >= ctx.blockDim && splitInfo.Length >= ctx.blockDim + 1
    requires subBlockNum > 0 && subBlockNum % 2 == 0 && ExpLn(exp, ln)
    requires KernelRight(ctx, exp, ln, low, partial, keys)
    modifies coreInfo, splitInfo, oGm, lseOut
    ensures needCoreNum <= ctx.blockDim && SoundTable(ShapeOf(ctx), coreInfo[..ctx.blockDim])
    ensures AllSettled(ctx, coreInfo[..ctx.blockDim], exp, ln, keys, outputLse, old(oGm[..]), oGm[..], old(lseOut[..]), lseOut[..])
  {
    RoomyIs(ctx, oGm.Length, lseOut.Length);
    hide *;
    ghost var segs;
    var totals;
    needCoreNum, totals, segs := SplitBN2S1GS2(ctx, coreInfo, splitInfo);
    var table, records := coreInfo[..ctx.blockDim], splitInfo[..ctx.blockDim + 1];
    TableGiven(ctx, table, segs);
    ScratchSize(ctx, segs, totals);
    var size: nat := totals.splitLseTotalSize / SIZE_OF_32BIT;
    var lse := new LogSum[size](_ => Nothing);
    var zeros: Row := seq(ctx.headSizeV, _ => 0.0);
    var out := new Row[size](_ => zeros);
    RunKernel(ctx, table, partial, lse, out, segs);
    var env := Env(ctx.numHeads, ctx.headSizeV, exp, ln, low, lse[..], out[..]);
    KernelIsDone(ctx, table, segs, env, partial, keys);
    CombineAfterKernel(ctx, table, segs, records, totals.totalSplitNodeNum, env, partial, keys, subBlockNum, outputLse, oGm, lseOut);
  }
}
