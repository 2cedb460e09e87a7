/** The consumer of the table: a core walks its range, and for every tile it holds only in
    part it writes partial results at a running scratch offset. */
module KernelWalk {
  import opened Arith
  import opened Cover
  import opened SplitParams
  import opened Tiles
  import opened KeyBlocks
  import opened SplitSegments
  import opened SplitRecords
  import opened ScratchLayout

  /** Partial results of one tile and the scratch rows they go to. */
  datatype Write = Write(b: int, n1: int, s1: int, lse: int, o: int)

  /** Query rows, heads and (head, row) pairs of a tile as the kernel computes them. */
  function KernelQ(p: BatchParams, s1: int): int {
    if s1 == p.curQSBlockNum - 1 then p.qSeqlen - s1 * p.curQSBlockTile else p.curQSBlockTile
  }

  function KernelN(ctx: Context, p: BatchParams, n1: int): int
    requires ctx.Valid() && p.qNBlockNumPerGroup >= 1
  {
    var qNBlockIdx := n1 % p.qNBlockNumPerGroup;
    if qNBlockIdx == p.qNBlockNumPerGroup - 1 then ctx.GroupSize() - qNBlockIdx * p.curQNBlockTile
    else p.curQNBlockTile
  }

  function KernelRows(ctx: Context, p: BatchParams, n1: int, s1: int): int
    requires ctx.Valid() && p.qNBlockNumPerGroup >= 1
  {
    KernelQ(p, s1) * KernelN(ctx, p, n1)
  }

  /** Kernel and scheduler agree on the rows of every tile, with or without a short last
      head tile. */
  lemma KernelRowsAgree(ctx: Context, b: int, n1: int, s1: int)
    requires ctx.Valid() && 0 <= b < ctx.batchSize && TileIn(ShapeOf(ctx), b, n1, s1)
    ensures KernelRows(ctx, GetBatchParams(ctx, b), n1, s1) == TileSize(ctx, b, n1, s1)
  {
    var p := GetBatchParams(ctx, b);
    KernelHeads(ctx, b, n1);
    assert QEnd(p, s1) - QStart(p, s1) == KernelQ(p, s1);
    TileSizeIs(ctx, b, n1, s1);
    KernelRowsIs(ctx, p, n1, s1);
    hide *;
    Commute(KernelQ(p, s1), KernelN(ctx, p, n1));
  }

  lemma TileSizeIs(ctx: Context, b: int, n1: int, s1: int)
    requires ctx.Valid() && 0 <= b < ctx.batchSize
    ensures var p := GetBatchParams(ctx, b);
            TileSize(ctx, b, n1, s1) == (HeadEnd(ctx, p, n1) - HeadStart(ctx, p, n1)) * (QEnd(p, s1) - QStart(p, s1))
  {
    hide GetBatchParams, HeadStart, HeadEnd, QStart, QEnd;
  }

  lemma KernelRowsIs(ctx: Context, p: BatchParams, n1: int, s1: int)
    requires ctx.Valid() && p.qNBlockNumPerGroup >= 1
    ensures KernelRows(ctx, p, n1, s1) == KernelQ(p, s1) * KernelN(ctx, p, n1)
  {
    hide KernelQ, KernelN;
  }

  lemma KernelHeads(ctx: Context, b: int, n1: int)
    requires ctx.Valid() && 0 <= b < ctx.batchSize
    ensures var p := GetBatchParams(ctx, b); HeadEnd(ctx, p, n1) - HeadStart(ctx, p, n1) == KernelN(ctx, p, n1)
  {
    var p := GetBatchParams(ctx, b);
    GroupIsPositive(ctx);
    var i, k, npg, tile, group := n1 % p.qNBlockNumPerGroup, n1 / p.qNBlockNumPerGroup, p.qNBlockNumPerGroup, p.curQNBlockTile, ctx.GroupSize();
    assert npg == CeilDiv(group, tile);
    hide GetBatchParams;
    CeilDivBounds(group, tile);
    HeadLength(group, k, i, tile, npg);
  }

  lemma HeadLength(group: int, k: int, i: int, tile: int, npg: int)
    requires tile >= 1 && 0 <= i < npg && (npg - 1) * tile < group <= npg * tile
    ensures Min(k * group + i * tile + tile, (k + 1) * group) - (k * group + i * tile)
         == if i == npg - 1 then group - i * tile else tile
  {
    assert (k + 1) * group == k * group + group;
    assert (i + 1) * tile == i * tile + tile;
    if i == npg - 1 {
      assert npg * tile == (npg - 1) * tile + tile;
    } else {
      MulMono(i + 1, npg - 1, tile);
    }
  }

  /** KV blocks of a batch as the kernel counts them. */
  function KernelKeyBlocks(ctx: Context, b: int): int
    requires ctx.Valid() && 0 <= b < ctx.batchSize
  {
    if ctx.kvNewSeqlen != 0 then CeilDiv(ctx.seqlensK[b], MAX_KV_STACK_LEN) + CeilDiv(ctx.kvNewSeqlen, MAX_KV_STACK_LEN)
    else CeilDiv(ctx.seqlensK[b], MAX_KV_STACK_LEN)
  }

  /** Kernel and scheduler agree on the KV blocks of every batch. */
  lemma KernelBlocksAgree(ctx: Context, b: int)
    requires ctx.Valid() && 0 <= b < ctx.batchSize
    ensures KernelKeyBlocks(ctx, b) == GetBatchParams(ctx, b).curKSBlockNum
  {
    BlockCount(ctx, b);
    hide GetBatchParams;
  }

  /** First key and number of keys of KV block k as the kernel reads them, if no mask cuts the keys. */
  function KernelStack(cached: nat, added: nat, k: int): (int, int) {
    var cachedBlocks, addedBlocks := CeilDiv(cached, MAX_KV_STACK_LEN), CeilDiv(added, MAX_KV_STACK_LEN);
    if added != 0 && k >= cachedBlocks then
      var local := k - cachedBlocks;
      (cached + local * MAX_KV_STACK_LEN,
       Min(MAX_KV_STACK_LEN, if local + 1 > addedBlocks - 1 then added - local * MAX_KV_STACK_LEN else MAX_KV_STACK_LEN))
    else
      (k * MAX_KV_STACK_LEN,
       Min(MAX_KV_STACK_LEN, if k + 1 > cachedBlocks - 1 then cached - k * MAX_KV_STACK_LEN else MAX_KV_STACK_LEN))
  }

  /** The kernel reads the keys of a block, no others and none twice. */
  lemma KernelReadsBlock(ctx: Context, b: int, k: int)
    requires ctx.Valid() && 0 <= b < ctx.batchSize && 0 <= k < KernelKeyBlocks(ctx, b)
    ensures var stack := KernelStack(ctx.seqlensK[b], ctx.kvNewSeqlen, k);
            stack.0 == FirstKey(ctx.seqlensK[b], k) && stack.0 + stack.1 == LimitKey(ctx.seqlensK[b], ctx.kvNewSeqlen, k)
  {
  }

  /** The writes follow the split segments of `all` from index `lo` on, at offsets that start
      from the ones noted for the core. */
  ghost predicate Follows(ctx: Context, core: CoreNode, all: seq<Seg>, lo: int, writes: seq<Write>)
    requires ctx.Valid() && InBatches(ctx, all)
  {
    && 0 <= lo && |all| == lo + |writes|
    && forall k :: 0 <= k < |writes| ==> WriteAt(ctx, core, all, lo, writes, k)
  }

  ghost predicate WriteAt(ctx: Context, core: CoreNode, all: seq<Seg>, lo: int, writes: seq<Write>, k: int)
    requires ctx.Valid() && InBatches(ctx, all) && 0 <= lo && |all| == lo + |writes| && 0 <= k < |writes|
  {
    var e := all[lo + k];
    var passed := SlotStart(ctx, all, lo + k) - SlotStart(ctx, all, lo);
    writes[k] == Write(e.b, e.n1, e.s1, core.firstLse + passed, core.firstO + passed * ctx.headSizeV)
  }

  lemma FollowsNext(ctx: Context, core: CoreNode, all: seq<Seg>, lo: int, writes: seq<Write>, e: Seg, w: Write)
    requires ctx.Valid() && InBatches(ctx, all) && Follows(ctx, core, all, lo, writes) && 0 <= e.b < ctx.batchSize
    requires var passed := SizeOf(ctx, all) - SlotStart(ctx, all, lo);
             w == Write(e.b, e.n1, e.s1, core.firstLse + passed, core.firstO + passed * ctx.headSizeV)
    ensures InBatches(ctx, all + [e]) && Follows(ctx, core, all + [e], lo, writes + [w])
    ensures SizeOf(ctx, all + [e]) == SizeOf(ctx, all) + TileSize(ctx, e.b, e.n1, e.s1)
    ensures SlotStart(ctx, all + [e], lo) == SlotStart(ctx, all, lo)
  {
    AppendSize(ctx, all, e);
    assert forall i :: 0 <= i <= |all| ==> (all + [e])[..i] == all[..i];
    assert all[..|all|] == all;
    hide SizeOf, TileSize;
    forall k | 0 <= k <= |writes|
      ensures WriteAt(ctx, core, all + [e], lo, writes + [w], k)
    {
      if k < |writes| { assert WriteAt(ctx, core, all, lo, writes, k); }
    }
  }

  /** What the kernel knows between two tiles. */
  ghost predicate WalkState(ctx: Context, cores: seq<CoreNode>, core: CoreNode, all: seq<Seg>, limit: Seg, lo: int,
                            gmLse: int, gmO: int, writes: seq<Write>)
    requires ctx.Valid()
  {
    && SegList(ShapeOf(ctx), cores, all, limit)
    && InBatches(ctx, all) && 0 <= lo <= |all|
    && Follows(ctx, core, all, lo, writes)
    && gmLse == core.firstLse + (SizeOf(ctx, all) - SlotStart(ctx, all, lo))
    && gmO == core.firstO + (SizeOf(ctx, all) - SlotStart(ctx, all, lo)) * ctx.headSizeV
  }

  lemma WalkMoves(ctx: Context, cores: seq<CoreNode>, core: CoreNode, all: seq<Seg>, limit: Seg, limit': Seg, lo: int,
                  gmLse: int, gmO: int, writes: seq<Write>)
    requires ctx.Valid() && WalkState(ctx, cores, core, all, limit, lo, gmLse, gmO, writes)
    requires NoneBetween(ctx, cores, limit, limit')
    ensures WalkState(ctx, cores, core, all, limit', lo, gmLse, gmO, writes)
  {
    hide ShapeOf, IsSplit;
    SegListMoves(ShapeOf(ctx), cores, all, limit, limit');
  }

  lemma NotSplit(ctx: Context, cores: seq<CoreNode>, e: Seg)
    requires ctx.Valid() && !IsSplit(ShapeOf(ctx), cores, e)
    ensures NoneBetween(ctx, cores, e, e.(s1 := e.s1 + 1))
  {
    hide ShapeOf, IsSplit;
    forall f | IsSplit(ShapeOf(ctx), cores, f) && !SegLess(f, e)
      ensures !SegLess(f, e.(s1 := e.s1 + 1))
    {
      assert f != e;
    }
  }

  method WalkTile(ctx: Context, c: int, core: CoreNode, b: int, n1: int, s1: int, lse: int, o: int, done: seq<Write>,
                  ghost cores: seq<CoreNode>, ghost before: seq<Seg>, ghost lo: int)
    returns (gmLse: int, gmO: int, writes: seq<Write>, ghost all: seq<Seg>)
    requires ctx.Valid() && 0 <= c < |cores| && core == cores[c] && 0 <= b < ctx.batchSize
    requires SoundTable(ShapeOf(ctx), cores) && Visits(ShapeOf(ctx), core, b, n1, s1)
    requires WalkState(ctx, cores, core, before, Seg(c, b, n1, s1), lo, lse, o, done)
    ensures WalkState(ctx, cores, core, all, Seg(c, b, n1, s1 + 1), lo, gmLse, gmO, writes)
  {
    ghost var sh, e, limit := ShapeOf(ctx), Seg(c, b, n1, s1), Seg(c, b, n1, s1 + 1);
    KernelBlocksAgree(ctx, b);
    ShapeOfBatch(ctx, b);
    var blocks := KernelKeyBlocks(ctx, b);
    var stS2 := FirstS2(core, b, n1, s1);
    var enS2 := if b == core.endB && n1 == core.endN1 && s1 == core.endS1 then core.endS2 else blocks;
    var isSplitKV := enS2 - stS2 > 0 && enS2 - stS2 < blocks;
    assert isSplitKV <==> IsSplit(sh, cores, e);
    gmLse, gmO, writes, all := lse, o, done, before;
    hide GetBatchParams, ShapeOf, IsSplit, SoundTable, Visits, WalkState;
    if isSplitKV {
      gmLse, gmO, writes, all := WriteSegment(ctx, c, core, b, n1, s1, lse, o, done, cores, before, lo);
    } else {
      assert NoneBetween(ctx, cores, e, limit) by { NotSplit(ctx, cores, e); }
      WalkMoves(ctx, cores, core, before, e, limit, lo, lse, o, done);
    }
  }

  /** Write one split tile at the running offset, then move on by the rows of the tile. */
  method WriteSegment(ctx: Context, c: int, core: CoreNode, b: int, n1: int, s1: int, lse: int, o: int, done: seq<Write>,
                      ghost cores: seq<CoreNode>, ghost before: seq<Seg>, ghost lo: int)
    returns (gmLse: int, gmO: int, writes: seq<Write>, ghost all: seq<Seg>)
    requires ctx.Valid() && 0 <= c < |cores| && core == cores[c] && 0 <= b < ctx.batchSize
    requires SoundTable(ShapeOf(ctx), cores) && IsSplit(ShapeOf(ctx), cores, Seg(c, b, n1, s1))
    requires WalkState(ctx, cores, core, before, Seg(c, b, n1, s1), lo, lse, o, done)
    ensures WalkState(ctx, cores, core, all, Seg(c, b, n1, s1 + 1), lo, gmLse, gmO, writes)
  {
    ghost var e, limit := Seg(c, b, n1, s1), Seg(c, b, n1, s1 + 1);
    HoldsIsCovering(ShapeOf(ctx), cores, e);
    KernelRowsAgree(ctx, b, n1, s1);
    hide GetBatchParams, ShapeOf, IsSplit, SoundTable, KernelRows, TileSize, SizeOf, SlotStart, Follows, SegList;
    var rows := KernelRows(ctx, GetBatchParams(ctx, b), n1, s1);
    var w := Write(b, n1, s1, lse, o);
    writes := done + [w];
    gmLse, gmO := lse + rows, o + rows * ctx.headSizeV;
    all := before + [e];
    hide WalkState;
    WalkStateNext(ctx, cores, core, before, e, limit, lo, lse, o, done, rows);
  }

  lemma WalkStateNext(ctx: Context, cores: seq<CoreNode>, core: CoreNode, before: seq<Seg>, e: Seg, limit: Seg, lo: int,
                      lse: int, o: int, done: seq<Write>, rows: int)
    requires ctx.Valid() && 0 <= e.b < ctx.batchSize && IsSplit(ShapeOf(ctx), cores, e)
    requires WalkState(ctx, cores, core, before, e, lo, lse, o, done) && rows == TileSize(ctx, e.b, e.n1, e.s1)
    requires limit == e.(s1 := e.s1 + 1)
    ensures WalkState(ctx, cores, core, before + [e], limit, lo, lse + rows, o + rows * ctx.headSizeV, done + [Write(e.b, e.n1, e.s1, lse, o)])
  {
    hide ShapeOf, IsSplit, TileSize, SizeOf, SlotStart, Follows, SegList;
    FollowsNext(ctx, core, before, lo, done, e, Write(e.b, e.n1, e.s1, lse, o));
    SegListExtends(ShapeOf(ctx), cores, before, e, limit);
    ScaleSum(SizeOf(ctx, before) - SlotStart(ctx, before, lo), rows, ctx.headSizeV);
  }

  /* No split segment lies in the stretches that the loops skip. */

  ghost predicate NoneBetween(ctx: Context, cores: seq<CoreNode>, limit: Seg, limit': Seg)
    requires ctx.Valid()
  {
    !SegLess(limit', limit) && forall f :: IsSplit(ShapeOf(ctx), cores, f) && !SegLess(f, limit) ==> !SegLess(f, limit')
  }

  lemma EnterHead(ctx: Context, cores: seq<CoreNode>, c: int, b: int, n1: int, s1: int)
    requires ctx.Valid() && 0 <= c < |cores| && s1 == FirstS1(cores[c], b, n1) >= 0
    ensures NoneBetween(ctx, cores, Seg(c, b, n1, 0), Seg(c, b, n1, s1))
  {
    hide ShapeOf, Covered;
  }

  lemma LeaveHead(ctx: Context, cores: seq<CoreNode>, c: int, b: int, n1: int, s1: int)
    requires ctx.Valid() && 0 <= c < |cores| && 0 <= b < |ShapeOf(ctx).s1| && SoundTable(ShapeOf(ctx), cores)
    requires s1 > LastS1(ShapeOf(ctx), cores[c], b, n1)
    ensures NoneBetween(ctx, cores, Seg(c, b, n1, s1), Seg(c, b, n1 + 1, 0))
  {
    SplitsAreNatural(ShapeOf(ctx), cores);
    hide ShapeOf, Covered, SoundTable;
  }

  lemma EnterBatch(ctx: Context, cores: seq<CoreNode>, c: int, b: int, n1: int)
    requires ctx.Valid() && 0 <= c < |cores| && n1 == FirstN1(cores[c], b) >= 0 && SoundTable(ShapeOf(ctx), cores)
    ensures NoneBetween(ctx, cores, Seg(c, b, 0, 0), Seg(c, b, n1, 0))
  {
    SplitsAreNatural(ShapeOf(ctx), cores);
    hide ShapeOf, Covered, SoundTable;
  }

  lemma LeaveBatch(ctx: Context, cores: seq<CoreNode>, c: int, b: int, n1: int)
    requires ctx.Valid() && 0 <= c < |cores| && 0 <= b < |ShapeOf(ctx).n1| && SoundTable(ShapeOf(ctx), cores)
    requires n1 > LastN1(ShapeOf(ctx), cores[c], b)
    ensures NoneBetween(ctx, cores, Seg(c, b, n1, 0), Seg(c, b + 1, 0, 0))
  {
    SplitsAreNatural(ShapeOf(ctx), cores);
    hide ShapeOf, Covered, SoundTable;
  }

  method WalkHeadTiles(ctx: Context, c: int, core: CoreNode, b: int, n1: int, lse: int, o: int, done: seq<Write>,
                       ghost cores: seq<CoreNode>, ghost before: seq<Seg>, ghost lo: int)
    returns (gmLse: int, gmO: int, writes: seq<Write>, ghost all: seq<Seg>)
    requires ctx.Valid() && 0 <= c < |cores| && core == cores[c] && 0 <= b < ctx.batchSize
    requires SoundTable(ShapeOf(ctx), cores) && core.startB <= b <= core.endB
    requires FirstN1(core, b) <= n1 <= LastN1(ShapeOf(ctx), core, b)
    requires WalkState(ctx, cores, core, before, Seg(c, b, n1, 0), lo, lse, o, done)
    ensures WalkState(ctx, cores, core, all, Seg(c, b, n1 + 1, 0), lo, gmLse, gmO, writes)
  {
    hide *;
    var p := GetBatchParams(ctx, b);
    var stS1 := FirstS1(core, b, n1);
    var enS1 := if b == core.endB && n1 == core.endN1 then core.endS1 else p.curQSBlockNum - 1;
    RowLoop(ctx, core, b, n1);
    FirstsNatural(ctx, cores, c, b, n1);
    gmLse, gmO, writes, all := lse, o, done, before;
    EnterHead(ctx, cores, c, b, n1, stS1);
    WalkMoves(ctx, cores, core, all, Seg(c, b, n1, 0), Seg(c, b, n1, stS1), lo, gmLse, gmO, writes);
    var s1 := stS1;
    while s1 <= enS1
      invariant stS1 <= s1
      invariant WalkState(ctx, cores, core, all, Seg(c, b, n1, s1), lo, gmLse, gmO, writes)
    {
      InLoops(ctx, core, b, n1, s1);
      gmLse, gmO, writes, all := WalkTile(ctx, c, core, b, n1, s1, gmLse, gmO, writes, cores, all, lo);
      s1 := s1 + 1;
    }
    LeaveHead(ctx, cores, c, b, n1, s1);
    WalkMoves(ctx, cores, core, all, Seg(c, b, n1, s1), Seg(c, b, n1 + 1, 0), lo, gmLse, gmO, writes);
  }

  method WalkBatchTiles(ctx: Context, c: int, core: CoreNode, b: int, lse: int, o: int, done: seq<Write>,
                        ghost cores: seq<CoreNode>, ghost before: seq<Seg>, ghost lo: int)
    returns (gmLse: int, gmO: int, writes: seq<Write>, ghost all: seq<Seg>)
    requires ctx.Valid() && 0 <= c < |cores| && core == cores[c] && 0 <= b < ctx.batchSize
    requires SoundTable(ShapeOf(ctx), cores) && core.startB <= b <= core.endB
    requires WalkState(ctx, cores, core, before, Seg(c, b, 0, 0), lo, lse, o, done)
    ensures WalkState(ctx, cores, core, all, Seg(c, b + 1, 0, 0), lo, gmLse, gmO, writes)
  {
    hide *;
    var p := GetBatchParams(ctx, b);
    var stN1 := FirstN1(core, b);
    var enN1 := if b == core.endB then core.endN1 else p.curQNBlockNum - 1;
    HeadLoop(ctx, core, b);
    FirstsNatural(ctx, cores, c, b, 0);
    gmLse, gmO, writes, all := lse, o, done, before;
    EnterBatch(ctx, cores, c, b, stN1);
    WalkMoves(ctx, cores, core, all, Seg(c, b, 0, 0), Seg(c, b, stN1, 0), lo, gmLse, gmO, writes);
    var n1 := stN1;
    while n1 <= enN1
      invariant stN1 <= n1
      invariant WalkState(ctx, cores, core, all, Seg(c, b, n1, 0), lo, gmLse, gmO, writes)
    {
      gmLse, gmO, writes, all := WalkHeadTiles(ctx, c, core, b, n1, gmLse, gmO, writes, cores, all, lo);
      n1 := n1 + 1;
    }
    LeaveBatch(ctx, cores, c, b, n1);
    WalkMoves(ctx, cores, core, all, Seg(c, b, n1, 0), Seg(c, b + 1, 0, 0), lo, gmLse, gmO, writes);
  }

  lemma SameSlice<T>(a: seq<T>, b: seq<T>, n: nat)
    requires n <= |a| && n <= |b| && a[..n] == b[..n]
    ensures forall k :: 0 <= k < n ==> a[k] == b[k]
  {
    forall k | 0 <= k < n
      ensures a[k] == b[k]
    {
      assert a[..n][k] == b[..n][k];
    }
  }

  /** A sorted list that keeps whatever is below its elements is a prefix. */
  lemma {:induction false} SortedPrefix(segs: seq<Seg>, all: seq<Seg>, i: nat)
    requires Sorted(segs) && Sorted(all) && i <= |all|
    requires forall k :: 0 <= k < |all| ==> all[k] in segs
    requires forall f, k :: f in segs && 0 <= k < |all| && SegLess(f, all[k]) ==> f in all
    ensures i <= |segs| && all[..i] == segs[..i]
  {
    if i > 0 {
      var n := i - 1;
      SortedPrefix(segs, all, n);
      SameSlice(all, segs, n);
      var j :| 0 <= j < |segs| && segs[j] == all[n];
      assert j >= n;
      assert n < |segs|;
      if j > n {
        assert segs[n] in segs && SegLess(segs[n], all[n]);
        var k :| 0 <= k < |all| && all[k] == segs[n];
      }
    }
  }

  /** The sorted list of split segments before a limit is unique. */
  lemma SegListPrefix(sh: Shape, cores: seq<CoreNode>, segs: seq<Seg>, all: seq<Seg>, limit: Seg)
    requires WellShaped(sh) && AllSegs(sh, cores, segs) && SegList(sh, cores, all, limit)
    ensures |all| <= |segs| && all == segs[..|all|]
  {
    forall k | 0 <= k < |all|
      ensures all[k] in segs
    {
      SplitsAreListed(sh, cores, segs, all[k]);
    }
    hide IsSplit;
    SortedPrefix(segs, all, |all|);
    assert all[..|all|] == all;
  }

  lemma SplitsAreListed(sh: Shape, cores: seq<CoreNode>, segs: seq<Seg>, e: Seg)
    requires WellShaped(sh) && AllSegs(sh, cores, segs) && IsSplit(sh, cores, e)
    ensures e in segs
  {
    assert SegLess(e, Seg(|cores|, 0, 0, 0));
  }

  /** The segments of the cores before c come first. */
  lemma {:induction false} CoreStart(segs: seq<Seg>, c: int) returns (lo: nat)
    requires Sorted(segs)
    ensures lo <= |segs|
    ensures forall i :: 0 <= i < |segs| ==> (i < lo <==> segs[i].core < c)
  {
    lo := 0;
    while lo < |segs| && segs[lo].core < c
      invariant lo <= |segs| && forall i :: 0 <= i < lo ==> segs[i].core < c
    {
      lo := lo + 1;
    }
  }

  lemma StartList(ctx: Context, cores: seq<CoreNode>, segs: seq<Seg>, c: int, lo: int, limit: Seg)
    requires ctx.Valid() && SoundTable(ShapeOf(ctx), cores) && AllSegs(ShapeOf(ctx), cores, segs) && InBatches(ctx, segs)
    requires 0 <= c < |cores| && 0 <= lo <= |segs| && limit == Seg(c, cores[c].startB, 0, 0)
    requires forall i :: 0 <= i < |segs| ==> (i < lo <==> segs[i].core < c)
    ensures WalkState(ctx, cores, cores[c], segs[..lo], limit, lo, cores[c].firstLse, cores[c].firstO, [])
  {
    hide *;
    var sh, front := ShapeOf(ctx), segs[..lo];
    SplitsAreNatural(sh, cores);
    forall e | IsSplit(sh, cores, e) && SegLess(e, limit)
      ensures e in front
    {
      SplitsAreListed(sh, cores, segs, e);
      var i :| 0 <= i < |segs| && segs[i] == e;
      NotBeforeStart(sh, cores, e, c);
      assert front[i] == e;
    }
    FrontList(sh, cores, segs, c, lo, limit);
    StartWalk(ctx, cores, segs, c, lo, limit);
  }

  lemma FrontList(sh: Shape, cores: seq<CoreNode>, segs: seq<Seg>, c: int, lo: int, limit: Seg)
    requires WellShaped(sh) && AllSegs(sh, cores, segs) && 0 <= c && 0 <= lo <= |segs| && limit.core == c
    requires forall i :: 0 <= i < |segs| ==> (i < lo <==> segs[i].core < c)
    requires forall e :: IsSplit(sh, cores, e) && SegLess(e, limit) ==> e in segs[..lo]
    ensures SegList(sh, cores, segs[..lo], limit)
  {
    hide IsSplit;
  }

  lemma StartWalk(ctx: Context, cores: seq<CoreNode>, segs: seq<Seg>, c: int, lo: int, limit: Seg)
    requires ctx.Valid() && InBatches(ctx, segs) && 0 <= c < |cores| && 0 <= lo <= |segs|
    requires SegList(ShapeOf(ctx), cores, segs[..lo], limit)
    ensures WalkState(ctx, cores, cores[c], segs[..lo], limit, lo, cores[c].firstLse, cores[c].firstO, [])
  {
    hide ShapeOf, SegList, SizeOf;
    assert segs[..lo][..lo] == segs[..lo];
  }

  lemma NotBeforeStart(sh: Shape, cores: seq<CoreNode>, e: Seg, c: int)
    requires WellShaped(sh) && IsSplit(sh, cores, e) && 0 <= c < |cores|
    requires e.n1 >= 0 && e.s1 >= 0
    requires SegLess(e, Seg(c, cores[c].startB, 0, 0))
    ensures e.core < c
  {
  }

  lemma SortedList(ctx: Context, cores: seq<CoreNode>, segs: seq<Seg>)
    requires ctx.Valid() && AllSegs(ShapeOf(ctx), cores, segs)
    ensures Sorted(segs)
  {
    hide ShapeOf, IsSplit;
  }

  lemma CoreBatches(ctx: Context, cores: seq<CoreNode>, c: int)
    requires ctx.Valid() && SoundTable(ShapeOf(ctx), cores) && 0 <= c < |cores|
    ensures 0 <= cores[c].startB && cores[c].endB < ctx.batchSize
  {
    assert SoundCore(ShapeOf(ctx), cores[c]);
    hide GetBatchParams;
  }

  /** A core's walk: the partial results of its split tiles go, in order, exactly to the slots
      the scheduler allotted to the core's segments. */
  method Walk(ctx: Context, c: int, core: CoreNode, ghost cores: seq<CoreNode>, ghost segs: seq<Seg>)
    returns (writes: seq<Write>, ghost lo: nat)
    requires ctx.Valid() && SoundTable(ShapeOf(ctx), cores) && AllSegs(ShapeOf(ctx), cores, segs) && InBatches(ctx, segs)
    requires 0 <= c < |cores| && core == cores[c]
    requires core.firstLse == FirstOffset(ctx, segs, c) && core.firstO == FirstOffset(ctx, segs, c) * ctx.headSizeV
    ensures lo + |writes| <= |segs|
    ensures forall i :: 0 <= i < |segs| ==> (segs[i].core == c <==> lo <= i < lo + |writes|)
    ensures forall k :: 0 <= k < |writes| ==> SlotWrite(ctx, segs, lo + k, writes[k])
  {
    hide *;
    SortedList(ctx, cores, segs);
    lo := CoreStart(segs, c);
    StartList(ctx, cores, segs, c, lo, Seg(c, core.startB, 0, 0));
    CoreBatches(ctx, cores, c);
    var gmLse, gmO := core.firstLse, core.firstO;
    writes := [];
    ghost var all := segs[..lo];
    var b := core.startB;
    while b <= core.endB
      invariant core.startB <= b
      invariant WalkState(ctx, cores, core, all, Seg(c, b, 0, 0), lo, gmLse, gmO, writes)
      decreases core.endB - b
    {
      gmLse, gmO, writes, all := WalkBatchTiles(ctx, c, core, b, gmLse, gmO, writes, cores, all, lo);
      b := b + 1;
    }
    WalkEnds(ctx, cores, core, segs, all, c, b, lo, gmLse, gmO, writes);
  }

  ghost predicate SlotWrite(ctx: Context, segs: seq<Seg>, i: int, w: Write)
    requires ctx.Valid() && InBatches(ctx, segs) && 0 <= i < |segs|
  {
    w == Write(segs[i].b, segs[i].n1, segs[i].s1, SlotStart(ctx, segs, i), SlotStart(ctx, segs, i) * ctx.headSizeV)
  }

  lemma WalkEnds(ctx: Context, cores: seq<CoreNode>, core: CoreNode, segs: seq<Seg>, all: seq<Seg>, c: int, b: int, lo: nat,
                 gmLse: int, gmO: int, writes: seq<Write>)
    requires ctx.Valid() && SoundTable(ShapeOf(ctx), cores) && AllSegs(ShapeOf(ctx), cores, segs) && InBatches(ctx, segs)
    requires 0 <= c < |cores| && core == cores[c] && b > core.endB
    requires core.firstLse == FirstOffset(ctx, segs, c) && core.firstO == FirstOffset(ctx, segs, c) * ctx.headSizeV
    requires WalkState(ctx, cores, core, all, Seg(c, b, 0, 0), lo, gmLse, gmO, writes)
    requires forall i :: 0 <= i < |segs| ==> (i < lo <==> segs[i].core < c)
    ensures lo + |writes| <= |segs|
    ensures forall i :: 0 <= i < |segs| ==> (segs[i].core == c <==> lo <= i < lo + |writes|)
    ensures forall k :: 0 <= k < |writes| ==> SlotWrite(ctx, segs, lo + k, writes[k])
  {
    EndList(ctx, cores, core, segs, all, c, b, lo, gmLse, gmO, writes);
    hide ShapeOf, SoundTable, AllSegs, SegList, SizeOf, FirstOffset, WriteAt, SlotWrite;
    forall k | 0 <= k < |writes|
      ensures SlotWrite(ctx, segs, lo + k, writes[k])
    {
      assert WriteAt(ctx, core, all, lo, writes, k);
      WriteIsSlot(ctx, core, segs, all, c, lo, writes, k);
    }
  }

  lemma WriteIsSlot(ctx: Context, core: CoreNode, segs: seq<Seg>, all: seq<Seg>, c: int, lo: nat, writes: seq<Write>, k: nat)
    requires ctx.Valid() && InBatches(ctx, segs) && InBatches(ctx, all) && Sorted(segs)
    requires |all| == lo + |writes| <= |segs| && all == segs[..|all|] && k < |writes|
    requires WriteAt(ctx, core, all, lo, writes, k)
    requires core.firstLse == FirstOffset(ctx, segs, c) && core.firstO == FirstOffset(ctx, segs, c) * ctx.headSizeV
    requires forall i :: 0 <= i < |segs| ==> (segs[i].core == c <==> lo <= i < |all|)
    ensures SlotWrite(ctx, segs, lo + k, writes[k])
  {
    assert all[..lo + k] == segs[..lo + k] && all[..lo] == segs[..lo];
    assert segs[lo].core == c;
    CoreSlots(ctx, segs, lo);
    hide SizeOf, FirstOffset;
    assert SlotStart(ctx, all, lo + k) == SlotStart(ctx, segs, lo + k);
    assert SlotStart(ctx, all, lo) == SlotStart(ctx, segs, lo);
    ScaleSum(SlotStart(ctx, segs, lo), SlotStart(ctx, segs, lo + k) - SlotStart(ctx, segs, lo), ctx.headSizeV);
  }

  lemma EndList(ctx: Context, cores: seq<CoreNode>, core: CoreNode, segs: seq<Seg>, all: seq<Seg>, c: int, b: int, lo: nat,
                gmLse: int, gmO: int, writes: seq<Write>)
    requires ctx.Valid() && SoundTable(ShapeOf(ctx), cores) && AllSegs(ShapeOf(ctx), cores, segs)
    requires 0 <= c < |cores| && core == cores[c] && b > core.endB
    requires WalkState(ctx, cores, core, all, Seg(c, b, 0, 0), lo, gmLse, gmO, writes)
    requires forall i :: 0 <= i < |segs| ==> (i < lo <==> segs[i].core < c)
    ensures |all| <= |segs| && all == segs[..|all|] && Sorted(segs)
    ensures forall i :: 0 <= i < |segs| ==> (segs[i].core == c <==> lo <= i < |all|)
  {
    var sh, limit := ShapeOf(ctx), Seg(c + 1, 0, 0, 0);
    SplitsAreNatural(sh, cores);
    hide ShapeOf, SoundTable, Follows, SizeOf, SlotStart;
    SegListMoves(sh, cores, all, Seg(c, b, 0, 0), limit);
    SegListPrefix(sh, cores, segs, all, limit);
    forall i | 0 <= i < |segs|
      ensures segs[i].core == c <==> lo <= i < |all|
    {
      InPrefix(sh, cores, segs, all, limit, i);
      hide IsSplit;
    }
  }

  lemma InPrefix(sh: Shape, cores: seq<CoreNode>, segs: seq<Seg>, all: seq<Seg>, limit: Seg, i: int)
    requires WellShaped(sh) && AllSegs(sh, cores, segs) && SegList(sh, cores, all, limit)
    requires |all| <= |segs| && all == segs[..|all|] && 0 <= i < |segs|
    ensures i < |all| <==> SegLess(segs[i], limit)
  {
    assert IsSplit(sh, cores, segs[i]);
    hide IsSplit;
    assert SegLess(segs[i], limit) ==> segs[i] in all;
    assert i < |all| ==> all[i] == segs[i];
  }
}
