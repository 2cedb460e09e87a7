/** From the schedule to the output: after scheduling, the kernel and the combine step, every
    row of every tile that several cores share holds attention over all keys of the row. */
module SplitAttention {
  import opened Arith
  import opened Cover
  import opened SplitParams
  import opened Tiles
  import opened SplitSegments
  import opened SplitRecords
  import opened ScratchLayout
  import opened SplitKeys
  import opened KeyBlocks
  import opened KernelRun
  import opened CombineMath
  import opened CombineRows
  import opened CombineMerge
  import opened CombineLink
  import opened CombineResult

  /** What query row q of head h and batch b sees of key j, with its value in output column d: the
      key, or nothing if it is masked. */
  datatype RowKey = RowKey(b: int, h: int, q: int, d: int, j: int)
  type RowKeys = RowKey -> seq<Key>

  ghost function KeyAt(keys: RowKeys, b: int, h: int, q: int, d: int): int -> seq<Key> {
    j => keys(RowKey(b, h, q, d, j))
  }

  function Cached(ctx: Context, b: int): nat { if 0 <= b < |ctx.seqlensK| then ctx.seqlensK[b] else 0 }

  /** The same, block by block. */
  ghost function BlockKeys(ctx: Context, keys: RowKeys, b: int, h: int, q: int, d: int): int -> seq<Key> {
    KeysOfBlocks(KeyAt(keys, b, h, q, d), Cached(ctx, b), ctx.kvNewSeqlen)
  }

  ghost function KeysOfBlocks(f: int -> seq<Key>, cached: nat, added: nat): int -> seq<Key> {
    k => KeysBetween(f, FirstKey(cached, k), LimitKey(cached, added, k))
  }

  /** All keys of a row, cached and appended. */
  ghost function AllKeys(ctx: Context, keys: RowKeys, b: int, h: int, q: int, d: int): seq<Key>
    requires ctx.Valid() && 0 <= b < ctx.batchSize
  {
    KeysBetween(KeyAt(keys, b, h, q, d), 0, KeyCount(ctx, b))
  }

  /** The first k blocks together. */
  lemma {:induction false} BlocksJoin(f: int -> seq<Key>, cached: nat, added: nat, k: nat)
    requires k <= (cached + 511) / 512 + (added + 511) / 512
    ensures k > 0 ==> 0 <= LimitKey(cached, added, k - 1)
    ensures KeysBetween(KeysOfBlocks(f, cached, added), 0, k) == KeysBetween(f, 0, if k == 0 then 0 else LimitKey(cached, added, k - 1))
    decreases k
  {
    hide FirstKey, LimitKey;
    if k > 0 {
      BlocksJoin(f, cached, added, k - 1);
      KeyBlockAt(cached, added, k - 1);
      BlocksFollow(cached, added, k - 1);
      if k > 1 { BlocksFollow(cached, added, k - 2); }
      KeysJoin(f, 0, FirstKey(cached, k - 1), LimitKey(cached, added, k - 1));
    }
  }

  /* What the kernel promises. */

  /** A row of a tile, and a stretch of its KV blocks. */
  ghost predicate TileStretch(ctx: Context, x: KernelRun.Stretch)
    requires ctx.Valid()
  {
    && TileIn(ShapeOf(ctx), x.b, x.n1, x.s1)
    && 0 <= x.lo < x.hi <= ShapeOf(ctx).s2[x.b]
    && 0 <= x.row < TileSize(ctx, x.b, x.n1, x.s1)
  }

  /** The pair is the partial result over `part` in column d. */
  ghost predicate ResultRight(exp: real -> real, ln: real -> real, r: (LogSum, Row), d: int, part: seq<Key>) {
    0 <= d < |r.1| && r.0 == LseOfKeys(exp, ln, part) && IsOut(exp, part, r.1[d])
  }

  /** Flat rows of a tile run over its heads first, then over its query rows. */
  function HeadAt(ctx: Context, x: KernelRun.Stretch): int
    requires ctx.Valid() && 0 <= x.b < ctx.batchSize
  {
    var p := GetBatchParams(ctx, x.b);
    var n := HeadEnd(ctx, p, x.n1) - HeadStart(ctx, p, x.n1);
    if n >= 1 then HeadStart(ctx, p, x.n1) + x.row % n else HeadStart(ctx, p, x.n1)
  }

  function QueryAt(ctx: Context, x: KernelRun.Stretch): int
    requires ctx.Valid() && 0 <= x.b < ctx.batchSize
  {
    var p := GetBatchParams(ctx, x.b);
    var n := HeadEnd(ctx, p, x.n1) - HeadStart(ctx, p, x.n1);
    if n >= 1 then QStart(p, x.s1) + x.row / n else QStart(p, x.s1)
  }

  /** The keys of a stretch, in column d. */
  ghost function StretchKeys(ctx: Context, keys: RowKeys, x: KernelRun.Stretch, d: int): seq<Key>
    requires ctx.Valid() && 0 <= x.b < ctx.batchSize
  {
    KeysBetween(BlockKeys(ctx, keys, x.b, HeadAt(ctx, x), QueryAt(ctx, x), d), x.lo, x.hi)
  }

  ghost predicate StretchRight(ctx: Context, exp: real -> real, ln: real -> real, low: real, partial: Partial, keys: RowKeys,
                               x: KernelRun.Stretch)
    requires ctx.Valid() && 0 <= x.b < ctx.batchSize
  {
    && |partial(x).1| == ctx.headSizeV && NotBelow(partial(x).0, low)
    && forall d :: 0 <= d < ctx.headSizeV ==> ResultRight(exp, ln, partial(x), d, StretchKeys(ctx, keys, x, d))
  }

  /** The kernel computes, for every row and stretch, the partial result over its keys. */
  ghost predicate KernelRight(ctx: Context, exp: real -> real, ln: real -> real, low: real, partial: Partial, keys: RowKeys)
    requires ctx.Valid()
  {
    forall x :: TileStretch(ctx, x) ==> StretchRight(ctx, exp, ln, low, partial, keys, x)
  }

  /** A query row of a head and batch. */
  predicate IsRow(ctx: Context, b: int, h: int, q: int)
    requires ctx.Valid()
  {
    0 <= b < ctx.batchSize && 0 <= h < ctx.numHeads && 0 <= q < GetBatchParams(ctx, b).qSeqlen
  }

  /* The scratch rows of a record. */

  /** Everything known after the kernel. */
  ghost predicate KernelDone(ctx: Context, cores: seq<CoreNode>, segs: seq<Seg>, env: Env, partial: Partial, keys: RowKeys)
    requires ctx.Valid()
  {
    && SoundTable(ShapeOf(ctx), cores) && AllSegs(ShapeOf(ctx), cores, segs) && InBatches(ctx, segs) && TilesIn(ctx, segs)
    && env.qHeads == ctx.numHeads && env.headSizeV == ctx.headSizeV && ctx.headSizeV >= 1
    && KernelRight(ctx, env.exp, env.ln, env.low, partial, keys)
    && Filled(ctx, cores, segs, partial, |segs|, env.lse, env.out) && |env.lse| == |env.out| == SizeOf(ctx, segs)
  }

  /** Segment s of record r, for flat row a. */
  ghost function StretchOf(ctx: Context, cores: seq<CoreNode>, segs: seq<Seg>, r: int, s: int, a: int): KernelRun.Stretch
    requires ctx.Valid() && 0 <= r < |Runs(segs)| && 0 <= Runs(segs)[r] + s < |segs|
    requires var e := segs[Runs(segs)[r] + s]; 0 <= e.core < |cores| && 0 <= e.b < ctx.batchSize
  {
    PartOf(ctx, cores, segs[Runs(segs)[r] + s], a)
  }

  /** The tile of a record and its segments. */
  lemma SegmentOfRecord(ctx: Context, cores: seq<CoreNode>, segs: seq<Seg>, r: int, s: int)
    requires ctx.Valid() && SoundTable(ShapeOf(ctx), cores) && AllSegs(ShapeOf(ctx), cores, segs) && InBatches(ctx, segs) && TilesIn(ctx, segs)
    requires 0 <= r < |Runs(segs)| && 0 <= s < RecordAt(ctx, segs, r).splitNum
    ensures var i, t := Runs(segs)[r] + s, RecordAt(ctx, segs, r);
            && InRun(segs, r, i) && 0 <= segs[i].core < |cores| && segs[i].b == t.batchIdx && 0 <= t.batchIdx < ctx.batchSize
            && SameTile(segs[i], segs[Runs(segs)[r]])
            && 0 <= FirstBlock(cores, segs[i]) < LimitBlock(ShapeOf(ctx), cores, segs[i]) <= ShapeOf(ctx).s2[t.batchIdx]
            && TileIn(ShapeOf(ctx), segs[i].b, segs[i].n1, segs[i].s1)
            && Rows(t) == TileSize(ctx, segs[i].b, segs[i].n1, segs[i].s1) && NLen(t) >= 1
  {
    hide *;
    var i, t := Runs(segs)[r] + s, RecordAt(ctx, segs, r);
    RunIsOwners(ShapeOf(ctx), cores, segs, r);
    RecordFields(ctx, segs, r);
    RunEndBelow(segs, r, i);
    RunFrom(segs, r, i);
    RunIsOneTile(segs, r, i);
    StretchIn(ShapeOf(ctx), cores, segs, i);
    SameTileMeans(segs[Runs(segs)[r]], segs[i]);
    RecordShape(ctx, segs, r);
    RecordRows(ctx, segs, r);
    RowsAre(t);
    RunRowsIs(ctx, segs, r);
    NLenIs(t);
    SameBatches(ctx);
  }

  lemma SameTileMeans(e: Seg, f: Seg)
    requires SameTile(e, f)
    ensures e.b == f.b && e.n1 == f.n1 && e.s1 == f.s1 && SameTile(f, e)
  {
  }

  lemma NLenIs(t: SplitNode)
    ensures NLen(t) == t.headEndIdx - t.headStartIdx
  {
  }

  lemma RunRowsIs(ctx: Context, segs: seq<Seg>, r: int)
    requires ctx.Valid() && InBatches(ctx, segs) && 0 <= r < |Runs(segs)|
    ensures var e := segs[Runs(segs)[r]]; 0 <= e.b < ctx.batchSize && RunRows(ctx, segs, r) == TileSize(ctx, e.b, e.n1, e.s1)
  {
    hide TileSize, Runs;
  }

  lemma SameBatches(ctx: Context)
    requires ctx.Valid()
    ensures |ShapeOf(ctx).s2| == |ShapeOf(ctx).n1| == ctx.batchSize
  {
  }

  /** What the scratch buffers hold for segment s and flat row a of a record. */
  lemma SlotHolds(ctx: Context, cores: seq<CoreNode>, segs: seq<Seg>, env: Env, partial: Partial, keys: RowKeys, r: int, s: int, a: int)
    requires ctx.Valid() && KernelDone(ctx, cores, segs, env, partial, keys)
    requires 0 <= r < |Runs(segs)| && 0 <= s < RecordAt(ctx, segs, r).splitNum && 0 <= a < Rows(RecordAt(ctx, segs, r))
    ensures 0 <= Runs(segs)[r] + s < |segs| && 0 <= segs[Runs(segs)[r] + s].core < |cores|
    ensures 0 <= segs[Runs(segs)[r] + s].b < ctx.batchSize
    ensures var t, x := RecordAt(ctx, segs, r), PartOf(ctx, cores, segs[Runs(segs)[r] + s], a);
            var y := SlotRow(t, s, a);
            && 0 <= y < |env.lse| == |env.out| && env.lse[y] == partial(x).0 && env.out[y] == partial(x).1
            && StretchRight(ctx, env.exp, env.ln, env.low, partial, keys, x)
  {
    DoneParts(ctx, cores, segs, env, partial, keys);
    hide *;
    var i := Runs(segs)[r] + s;
    SegmentOfRecord(ctx, cores, segs, r, s);
    InRunIs(segs, r, i);
    SlotOfSegment(ctx, segs, r, i);
    FilledAt(ctx, cores, segs, partial, i, a, env.lse, env.out);
    SlotRowIs(ctx, segs, r, s, a);
    PartIsStretch(ctx, cores, segs[i], a);
    RightAt(ctx, env.exp, env.ln, env.low, partial, keys, PartOf(ctx, cores, segs[i], a));
  }

  lemma DoneParts(ctx: Context, cores: seq<CoreNode>, segs: seq<Seg>, env: Env, partial: Partial, keys: RowKeys)
    requires ctx.Valid() && KernelDone(ctx, cores, segs, env, partial, keys)
    ensures SoundTable(ShapeOf(ctx), cores) && AllSegs(ShapeOf(ctx), cores, segs) && InBatches(ctx, segs) && TilesIn(ctx, segs)
    ensures env.qHeads == ctx.numHeads && env.headSizeV == ctx.headSizeV && ctx.headSizeV >= 1
    ensures KernelRight(ctx, env.exp, env.ln, env.low, partial, keys)
    ensures Filled(ctx, cores, segs, partial, |segs|, env.lse, env.out) && |env.lse| == |env.out| == SizeOf(ctx, segs)
  {
    hide SoundTable, AllSegs, InBatches, TilesIn, KernelRight, Filled, SizeOf, ShapeOf;
  }

  lemma InRunIs(segs: seq<Seg>, r: int, i: int)
    requires InRun(segs, r, i)
    ensures 0 <= r < |Runs(segs)| && Runs(segs)[r] <= i < RunEnd(segs, r) && 0 <= i < |segs|
  {
  }

  lemma FilledAt(ctx: Context, cores: seq<CoreNode>, segs: seq<Seg>, partial: Partial, i: int, a: int, lse: seq<LogSum>, out: seq<Row>)
    requires ctx.Valid() && InBatches(ctx, segs) && 0 <= i < |segs| && Filled(ctx, cores, segs, partial, |segs|, lse, out)
    requires 0 <= a < TileSize(ctx, segs[i].b, segs[i].n1, segs[i].s1)
    ensures 0 <= segs[i].core < |cores| && 0 <= segs[i].b < ctx.batchSize
    ensures var y, x := SlotStart(ctx, segs, i) + a, PartOf(ctx, cores, segs[i], a);
            0 <= y < |lse| == |out| && lse[y] == partial(x).0 && out[y] == partial(x).1
  {
    assert SlotFilled(ctx, cores, segs, partial, i, lse, out);
    assert RowFilled(ctx, cores, segs, partial, i, a, lse, out);
    hide Filled, TileSize, PartOf, SlotStart;
  }

  lemma SlotRowIs(ctx: Context, segs: seq<Seg>, r: int, s: int, a: int)
    requires ctx.Valid() && InBatches(ctx, segs) && TilesIn(ctx, segs)
    requires 0 <= r < |Runs(segs)| && 0 <= s && Runs(segs)[r] + s < RunEnd(segs, r)
    ensures 0 <= Runs(segs)[r] + s < |segs|
    ensures SlotRow(RecordAt(ctx, segs, r), s, a) == SlotStart(ctx, segs, Runs(segs)[r] + s) + a
  {
    hide *;
    var i, t := Runs(segs)[r] + s, RecordAt(ctx, segs, r);
    RunEndBound(segs, r);
    SlotOfSegment(ctx, segs, r, i);
    RowsAre(t);
    SlotRowDef(t, s, a);
    assert i - Runs(segs)[r] == s;
  }

  lemma SlotRowDef(t: SplitNode, s: int, a: int)
    ensures SlotRow(t, s, a) == t.lseTaskOffset + s * Rows(t) + a
  {
    hide Rows;
  }

  lemma PartIsStretch(ctx: Context, cores: seq<CoreNode>, e: Seg, a: int)
    requires ctx.Valid() && 0 <= e.core < |cores| && 0 <= e.b < ctx.batchSize && TileIn(ShapeOf(ctx), e.b, e.n1, e.s1)
    requires 0 <= FirstBlock(cores, e) < LimitBlock(ShapeOf(ctx), cores, e) <= ShapeOf(ctx).s2[e.b]
    requires 0 <= a < TileSize(ctx, e.b, e.n1, e.s1)
    ensures TileStretch(ctx, PartOf(ctx, cores, e, a))
  {
    hide TileIn, TileSize, FirstBlock, LimitBlock, ShapeOf;
  }

  lemma RightAt(ctx: Context, exp: real -> real, ln: real -> real, low: real, partial: Partial, keys: RowKeys, x: KernelRun.Stretch)
    requires ctx.Valid() && KernelRight(ctx, exp, ln, low, partial, keys) && TileStretch(ctx, x)
    ensures 0 <= x.b < ctx.batchSize && StretchRight(ctx, exp, ln, low, partial, keys, x)
  {
    assert 0 <= x.b < ctx.batchSize;
    hide StretchRight, TileStretch;
  }

  /* The keys behind a record. */

  /** The keys of segment i's stretch of blocks. */
  ghost function SegmentKeys(ctx: Context, cores: seq<CoreNode>, segs: seq<Seg>, block: int -> seq<Key>, i: int): seq<Key>
    requires ctx.Valid()
  {
    if 0 <= i < |segs| && 0 <= segs[i].core < |cores| && 0 <= segs[i].b < ctx.batchSize then
      KeysBetween(block, FirstBlock(cores, segs[i]), LimitBlock(ShapeOf(ctx), cores, segs[i]))
    else []
  }

  /** Keys of the segments of record k, for flat row a and column d. */
  ghost function PartsFor(ctx: Context, cores: seq<CoreNode>, segs: seq<Seg>, keys: RowKeys, k: int, a: int, d: int): seq<seq<Key>>
    requires ctx.Valid() && InBatches(ctx, segs)
  {
    if 0 <= k < |Runs(segs)| && RecordAt(ctx, segs, k).splitNum >= 0 && NLen(RecordAt(ctx, segs, k)) >= 1 then
      var t := RecordAt(ctx, segs, k);
      seq(t.splitNum, s => SegmentKeys(ctx, cores, segs, BlockKeys(ctx, keys, t.batchIdx, HeadOf(t, a), QueryOf(t, a), d), Runs(segs)[k] + s))
    else []
  }

  lemma PartsForIs(ctx: Context, cores: seq<CoreNode>, segs: seq<Seg>, keys: RowKeys, k: int, a: int, d: int)
    requires ctx.Valid() && InBatches(ctx, segs) && 0 <= k < |Runs(segs)|
    requires RecordAt(ctx, segs, k).splitNum >= 0 && NLen(RecordAt(ctx, segs, k)) >= 1
    ensures var t, parts := RecordAt(ctx, segs, k), PartsFor(ctx, cores, segs, keys, k, a, d);
            && |parts| == t.splitNum
            && forall s :: 0 <= s < t.splitNum ==>
                 parts[s] == SegmentKeys(ctx, cores, segs, BlockKeys(ctx, keys, t.batchIdx, HeadOf(t, a), QueryOf(t, a), d), Runs(segs)[k] + s)
  {
    hide RecordAt, Runs, SegmentKeys, BlockKeys, HeadOf, QueryOf, NLen;
  }

  /** A flat row of a segment is the row of the record. */
  lemma SameFlatRow(ctx: Context, cores: seq<CoreNode>, segs: seq<Seg>, r: int, s: int, a: int)
    requires ctx.Valid() && SoundTable(ShapeOf(ctx), cores) && AllSegs(ShapeOf(ctx), cores, segs) && InBatches(ctx, segs) && TilesIn(ctx, segs)
    requires 0 <= r < |Runs(segs)| && 0 <= s < RecordAt(ctx, segs, r).splitNum
    ensures 0 <= Runs(segs)[r] + s < |segs| && 0 <= segs[Runs(segs)[r] + s].core < |cores|
    ensures NLen(RecordAt(ctx, segs, r)) >= 1 && 0 <= segs[Runs(segs)[r] + s].b < ctx.batchSize
    ensures var t, x := RecordAt(ctx, segs, r), PartOf(ctx, cores, segs[Runs(segs)[r] + s], a);
            && x.b == t.batchIdx && HeadAt(ctx, x) == HeadOf(t, a) && QueryAt(ctx, x) == QueryOf(t, a)
  {
    hide *;
    var i, t := Runs(segs)[r] + s, RecordAt(ctx, segs, r);
    SegmentOfRecord(ctx, cores, segs, r, s);
    InRunIs(segs, r, i);
    RecordFields(ctx, segs, r);
    SameTileMeans(segs[i], segs[Runs(segs)[r]]);
    PartFields(ctx, cores, segs[i], a);
    FlatRow(ctx, PartOf(ctx, cores, segs[i], a), t, a);
  }

  lemma PartFields(ctx: Context, cores: seq<CoreNode>, e: Seg, a: int)
    requires ctx.Valid() && 0 <= e.core < |cores| && 0 <= e.b < ctx.batchSize
    ensures var x := PartOf(ctx, cores, e, a);
            && x.b == e.b && x.n1 == e.n1 && x.s1 == e.s1 && x.row == a
            && x.lo == FirstBlock(cores, e) && x.hi == LimitBlock(ShapeOf(ctx), cores, e)
  {
    hide FirstBlock, LimitBlock, ShapeOf;
  }

  lemma FlatRow(ctx: Context, x: KernelRun.Stretch, t: SplitNode, a: int)
    requires ctx.Valid() && 0 <= x.b < ctx.batchSize && x.row == a && NLen(t) >= 1
    requires t.headStartIdx == HeadStart(ctx, GetBatchParams(ctx, x.b), x.n1)
    requires t.headEndIdx == HeadEnd(ctx, GetBatchParams(ctx, x.b), x.n1)
    requires t.qStartIdx == QStart(GetBatchParams(ctx, x.b), x.s1)
    ensures HeadAt(ctx, x) == HeadOf(t, a) && QueryAt(ctx, x) == QueryOf(t, a)
  {
    hide GetBatchParams, HeadStart, HeadEnd, QStart;
  }

  /** The keys of a segment's stretch are those the kernel works on. */
  lemma StretchKeysAre(ctx: Context, cores: seq<CoreNode>, segs: seq<Seg>, keys: RowKeys, r: int, s: int, a: int, d: int)
    requires ctx.Valid() && SoundTable(ShapeOf(ctx), cores) && AllSegs(ShapeOf(ctx), cores, segs) && InBatches(ctx, segs) && TilesIn(ctx, segs)
    requires 0 <= r < |Runs(segs)| && 0 <= s < RecordAt(ctx, segs, r).splitNum
    ensures 0 <= Runs(segs)[r] + s < |segs| && 0 <= segs[Runs(segs)[r] + s].core < |cores|
    ensures NLen(RecordAt(ctx, segs, r)) >= 1 && 0 <= segs[Runs(segs)[r] + s].b < ctx.batchSize
    ensures var t, i := RecordAt(ctx, segs, r), Runs(segs)[r] + s;
            StretchKeys(ctx, keys, PartOf(ctx, cores, segs[i], a), d)
              == SegmentKeys(ctx, cores, segs, BlockKeys(ctx, keys, t.batchIdx, HeadOf(t, a), QueryOf(t, a), d), i)
  {
    hide *;
    var t, i := RecordAt(ctx, segs, r), Runs(segs)[r] + s;
    SameFlatRow(ctx, cores, segs, r, s, a);
    PartFields(ctx, cores, segs[i], a);
    KeysUnfold(ctx, cores, segs, keys, i, PartOf(ctx, cores, segs[i], a), d);
  }

  lemma KeysUnfold(ctx: Context, cores: seq<CoreNode>, segs: seq<Seg>, keys: RowKeys, i: int, x: KernelRun.Stretch, d: int)
    requires ctx.Valid() && 0 <= i < |segs| && 0 <= segs[i].core < |cores| && 0 <= segs[i].b < ctx.batchSize && x.b == segs[i].b
    requires x.lo == FirstBlock(cores, segs[i]) && x.hi == LimitBlock(ShapeOf(ctx), cores, segs[i])
    ensures StretchKeys(ctx, keys, x, d)
         == SegmentKeys(ctx, cores, segs, BlockKeys(ctx, keys, x.b, HeadAt(ctx, x), QueryAt(ctx, x), d), i)
  {
    hide FirstBlock, LimitBlock, ShapeOf, HeadAt, QueryAt, KeysBetween, BlockKeys;
  }

  /** The segments of a record stand for all keys of the row. */
  lemma PartsAreAll(ctx: Context, cores: seq<CoreNode>, segs: seq<Seg>, keys: RowKeys, r: int, a: int, d: int)
    requires ctx.Valid() && SoundTable(ShapeOf(ctx), cores) && AllSegs(ShapeOf(ctx), cores, segs) && InBatches(ctx, segs) && TilesIn(ctx, segs)
    requires 0 <= r < |Runs(segs)|
    ensures var t := RecordAt(ctx, segs, r);
            && NLen(t) >= 1 && t.splitNum >= 1 && 0 <= t.batchIdx < ctx.batchSize
            && Flatten(PartsFor(ctx, cores, segs, keys, r, a, d)) == AllKeys(ctx, keys, t.batchIdx, HeadOf(t, a), QueryOf(t, a), d)
  {
    hide *;
    var t, parts := RecordAt(ctx, segs, r), PartsFor(ctx, cores, segs, keys, r, a, d);
    RunIsOwners(ShapeOf(ctx), cores, segs, r);
    RecordFields(ctx, segs, r);
    SegmentOfRecord(ctx, cores, segs, r, 0);
    var block := BlockKeys(ctx, keys, t.batchIdx, HeadOf(t, a), QueryOf(t, a), d);
    PartsForIs(ctx, cores, segs, keys, r, a, d);
    PartsFollow(ctx, cores, segs, r, block, parts);
    RunHasAllKeys(ShapeOf(ctx), cores, segs, r, block, parts);
    AllKeysIs(ctx, keys, t.batchIdx, HeadOf(t, a), QueryOf(t, a), d);
  }

  lemma AllKeysIs(ctx: Context, keys: RowKeys, b: int, h: int, q: int, d: int)
    requires ctx.Valid() && 0 <= b < ctx.batchSize
    ensures b < |ShapeOf(ctx).s2|
    ensures AllKeys(ctx, keys, b, h, q, d) == KeysBetween(BlockKeys(ctx, keys, b, h, q, d), 0, ShapeOf(ctx).s2[b])
  {
    BlockCount(ctx, b);
    ShapeOfBatch(ctx, b);
    var f, cached, added, n := KeyAt(keys, b, h, q, d), ctx.seqlensK[b], ctx.kvNewSeqlen, ShapeOf(ctx).s2[b];
    assert BlockKeys(ctx, keys, b, h, q, d) == KeysOfBlocks(f, cached, added);
    hide GetBatchParams, ShapeOf, KeysOfBlocks, KeyAt, KeysBetween, FirstKey, LimitKey;
    BlocksJoin(f, cached, added, n);
    if n > 0 { BlocksFollow(cached, added, n - 1); }
  }

  lemma PartsFollow(ctx: Context, cores: seq<CoreNode>, segs: seq<Seg>, r: int, block: int -> seq<Key>, parts: seq<seq<Key>>)
    requires ctx.Valid() && SoundTable(ShapeOf(ctx), cores) && AllSegs(ShapeOf(ctx), cores, segs) && InBatches(ctx, segs) && TilesIn(ctx, segs)
    requires 0 <= r < |Runs(segs)| && |parts| == RecordAt(ctx, segs, r).splitNum
    requires forall s :: 0 <= s < |parts| ==> parts[s] == SegmentKeys(ctx, cores, segs, block, Runs(segs)[r] + s)
    ensures PartsOfRun(ShapeOf(ctx), cores, segs, r, block, parts)
  {
    hide *;
    RecordFields(ctx, segs, r);
    SameBatches(ctx);
    forall s | 0 <= s < |parts|
      ensures PartOfRun(ShapeOf(ctx), cores, segs, r, block, parts, s)
    {
      SegmentOfRecord(ctx, cores, segs, r, s);
      InRunIs(segs, r, Runs(segs)[r] + s);
      PartIs(ctx, cores, segs, r, block, parts, s);
    }
    PartsIs(ctx, cores, segs, r, block, parts);
  }

  lemma PartIs(ctx: Context, cores: seq<CoreNode>, segs: seq<Seg>, r: int, block: int -> seq<Key>, parts: seq<seq<Key>>, s: int)
    requires ctx.Valid() && 0 <= r < |Runs(segs)| && 0 <= s < |parts|
    requires var i := Runs(segs)[r] + s; 0 <= i < |segs| && 0 <= segs[i].core < |cores| && 0 <= segs[i].b < ctx.batchSize
    requires parts[s] == SegmentKeys(ctx, cores, segs, block, Runs(segs)[r] + s)
    ensures PartOfRun(ShapeOf(ctx), cores, segs, r, block, parts, s)
  {
    SameBatches(ctx);
    hide ShapeOf, Runs, FirstBlock, LimitBlock, KeysBetween;
  }

  lemma PartsIs(ctx: Context, cores: seq<CoreNode>, segs: seq<Seg>, r: int, block: int -> seq<Key>, parts: seq<seq<Key>>)
    requires ctx.Valid() && 0 <= r < |Runs(segs)| && |parts| == RunEnd(segs, r) - Runs(segs)[r]
    requires forall s :: 0 <= s < |parts| ==> PartOfRun(ShapeOf(ctx), cores, segs, r, block, parts, s)
    ensures PartsOfRun(ShapeOf(ctx), cores, segs, r, block, parts)
  {
    hide PartOfRun, ShapeOf, Runs, RunEnd;
  }

  /* After the kernel the combine step can run. */

  lemma RecordValid(ctx: Context, cores: seq<CoreNode>, segs: seq<Seg>, r: int)
    requires ctx.Valid() && SoundTable(ShapeOf(ctx), cores) && AllSegs(ShapeOf(ctx), cores, segs) && InBatches(ctx, segs) && TilesIn(ctx, segs)
    requires 0 <= r < |Runs(segs)| && ctx.headSizeV >= 1
    ensures ValidTask(RecordAt(ctx, segs, r), ctx.numHeads, ctx.headSizeV)
  {
    hide *;
    RunIsOwners(ShapeOf(ctx), cores, segs, r);
    RecordShape(ctx, segs, r);
    RecordScratch(ctx, segs, r);
    ValidTaskIs(RecordAt(ctx, segs, r), ctx.numHeads, ctx.headSizeV);
  }

  lemma ValidTaskIs(t: SplitNode, qHeads: int, headSizeV: int)
    requires 0 <= t.qStartIdx < t.qEndIdx && 0 <= t.headStartIdx < t.headEndIdx <= qHeads && t.splitNum >= 1 && t.lseTaskOffset >= 0
    requires headSizeV >= 1 && t.oTaskOffset == t.lseTaskOffset * headSizeV
    ensures ValidTask(t, qHeads, headSizeV)
  {
  }

  lemma ColumnRight(ctx: Context, exp: real -> real, ln: real -> real, low: real, partial: Partial, keys: RowKeys, x: KernelRun.Stretch, d: int)
    requires ctx.Valid() && 0 <= x.b < ctx.batchSize && StretchRight(ctx, exp, ln, low, partial, keys, x) && 0 <= d < ctx.headSizeV
    ensures d < |partial(x).1| == ctx.headSizeV
    ensures partial(x).0 == LseOfKeys(exp, ln, StretchKeys(ctx, keys, x, d)) && IsOut(exp, StretchKeys(ctx, keys, x, d), partial(x).1[d])
  {
    assert ResultRight(exp, ln, partial(x), d, StretchKeys(ctx, keys, x, d));
    hide StretchKeys, LseOfKeys, IsOut;
  }

  /** Every scratch row holds a result of the kernel. */
  lemma ScratchRow(ctx: Context, cores: seq<CoreNode>, segs: seq<Seg>, env: Env, partial: Partial, keys: RowKeys, y: int)
    requires ctx.Valid() && KernelDone(ctx, cores, segs, env, partial, keys) && 0 <= y < |env.lse|
    ensures y < |env.out| && |env.out[y]| == ctx.headSizeV && NotBelow(env.lse[y], env.low)
  {
    DoneParts(ctx, cores, segs, env, partial, keys);
    hide *;
    var i := RowHasOneSlot(ctx, segs, y);
    var a := y - SlotStart(ctx, segs, i);
    SlotStep(ctx, segs, i);
    FilledAt(ctx, cores, segs, partial, i, a, env.lse, env.out);
    StretchIn(ShapeOf(ctx), cores, segs, i);
    PartIsStretch(ctx, cores, segs[i], a);
    var x := PartOf(ctx, cores, segs[i], a);
    RightAt(ctx, env.exp, env.ln, env.low, partial, keys, x);
    WidthRight(ctx, env.exp, env.ln, env.low, partial, keys, x);
  }

  lemma WidthRight(ctx: Context, exp: real -> real, ln: real -> real, low: real, partial: Partial, keys: RowKeys, x: KernelRun.Stretch)
    requires ctx.Valid() && 0 <= x.b < ctx.batchSize && StretchRight(ctx, exp, ln, low, partial, keys, x)
    ensures |partial(x).1| == ctx.headSizeV && NotBelow(partial(x).0, low)
  {
    hide ResultRight, StretchKeys, NotBelow;
  }

  /** Outputs long enough for all tokens. */
  predicate Roomy(ctx: Context, outLen: int, lseLen: int)
    requires ctx.Valid()
  {
    && 1 <= ctx.headSizeV <= 8192 && Tokens(ctx) * ctx.numHeads <= outLen && Tokens(ctx) * ctx.numHeads <= lseLen
    && (ctx.isVarlenQ ==> ctx.cuSeqlenQ[0] == 0)
  }

  lemma BuffersFilled(ctx: Context, cores: seq<CoreNode>, segs: seq<Seg>, env: Env, partial: Partial, keys: RowKeys, outLen: int, lseLen: int)
    requires ctx.Valid() && KernelDone(ctx, cores, segs, env, partial, keys) && Roomy(ctx, outLen, lseLen)
    ensures InBatches(ctx, segs) && Buffers(ctx, segs, env, outLen, lseLen)
  {
    DoneParts(ctx, cores, segs, env, partial, keys);
    hide *;
    forall y | 0 <= y < |env.lse|
      ensures |env.out[y]| == ctx.headSizeV && NotBelow(env.lse[y], env.low)
    {
      ScratchRow(ctx, cores, segs, env, partial, keys, y);
    }
    BuffersAre(ctx, segs, env, outLen, lseLen);
  }

  lemma BuffersAre(ctx: Context, segs: seq<Seg>, env: Env, outLen: int, lseLen: int)
    requires ctx.Valid() && InBatches(ctx, segs) && Roomy(ctx, outLen, lseLen)
    requires env.qHeads == ctx.numHeads && env.headSizeV == ctx.headSizeV && |env.lse| == |env.out| == SizeOf(ctx, segs)
    requires forall y :: 0 <= y < |env.lse| ==> |env.out[y]| == ctx.headSizeV && NotBelow(env.lse[y], env.low)
    ensures Buffers(ctx, segs, env, outLen, lseLen)
  {
    hide SizeOf, NotBelow, Tokens;
  }

  /** The scratch rows of a record are the partial results over the parts of the row's keys. */
  lemma RecordPartial(ctx: Context, cores: seq<CoreNode>, segs: seq<Seg>, env: Env, partial: Partial, keys: RowKeys, r: int, a: int, d: int)
    requires ctx.Valid() && KernelDone(ctx, cores, segs, env, partial, keys) && InBatches(ctx, segs)
    requires 0 <= r < |Runs(segs)| && 0 <= a < Rows(RecordAt(ctx, segs, r)) && 0 <= d < ctx.headSizeV
    requires Ready(env, RecordAt(ctx, segs, r)) && env.headSizeV == ctx.headSizeV
    ensures PartialRow(env, RecordAt(ctx, segs, r), a, d, PartsFor(ctx, cores, segs, keys, r, a, d))
  {
    DoneParts(ctx, cores, segs, env, partial, keys);
    hide *;
    var t, parts := RecordAt(ctx, segs, r), PartsFor(ctx, cores, segs, keys, r, a, d);
    PartsAreAll(ctx, cores, segs, keys, r, a, d);
    PartsForIs(ctx, cores, segs, keys, r, a, d);
    forall s | 0 <= s < t.splitNum
      ensures LseOf(env, t, s, a) == LseOfKeys(env.exp, env.ln, parts[s]) && IsOut(env.exp, parts[s], OutOf(env, t, s, a)[d])
    {
      SlotHolds(ctx, cores, segs, env, partial, keys, r, s, a);
      StretchKeysAre(ctx, cores, segs, keys, r, s, a, d);
      ColumnRight(ctx, env.exp, env.ln, env.low, partial, keys, PartOf(ctx, cores, segs[Runs(segs)[r] + s], a), d);
      SlotContents(env, t, s, a);
    }
    PartialRowIs(env, t, a, d, parts);
  }

  lemma SlotContents(env: Env, t: SplitNode, s: int, a: int)
    requires Ready(env, t) && 0 <= s < t.splitNum && 0 <= a < Rows(t)
    ensures var y := SlotRow(t, s, a);
            0 <= y < |env.lse| == |env.out| && LseOf(env, t, s, a) == env.lse[y] && OutOf(env, t, s, a) == env.out[y]
  {
    SlotRowIn(env, t, s, a);
    hide Ready, Rows, SlotRow;
  }

  lemma PartialRowIs(env: Env, t: SplitNode, a: int, d: int, parts: seq<seq<Key>>)
    requires Ready(env, t) && 0 <= a < Rows(t) && 0 <= d < env.headSizeV && |parts| == t.splitNum
    requires forall s :: 0 <= s < t.splitNum ==>
               LseOf(env, t, s, a) == LseOfKeys(env.exp, env.ln, parts[s]) && IsOut(env.exp, parts[s], OutOf(env, t, s, a)[d])
    ensures PartialRow(env, t, a, d, parts)
  {
    hide Ready, Rows, LseOf, OutOf, LseOfKeys, IsOut;
  }
}
