/** Which keys a KV block stands for: the cached keys of a batch in blocks of 512, then the
    appended keys in blocks of their own. */
module KeyBlocks {
  import opened Arith
  import opened Cover
  import opened SplitParams
  import opened Tiles

  /** Query rows of a batch, and cached and appended keys together. */
  function QueryCount(ctx: Context, b: int): int
    requires ctx.Valid() && 0 <= b < ctx.batchSize
  {
    if ctx.isVarlenQ then ctx.cuSeqlenQ[b + 1] - ctx.cuSeqlenQ[b] else ctx.seqlenQ
  }

  function KeyCount(ctx: Context, b: int): int
    requires ctx.Valid() && 0 <= b < ctx.batchSize
  {
    ctx.seqlensK[b] + ctx.kvNewSeqlen
  }

  /** First key of block k, and one behind its last key, with `cached` cached and `added` appended
      keys. */
  function FirstKey(cached: nat, k: int): int {
    var n := (cached + 511) / 512;
    if k < n then 512 * k else cached + 512 * (k - n)
  }

  function LimitKey(cached: nat, added: nat, k: int): int {
    if k < (cached + 511) / 512 then Min(FirstKey(cached, k) + 512, cached) else Min(FirstKey(cached, k) + 512, cached + added)
  }

  /** The block that holds key j. */
  function BlockOfKey(cached: nat, j: int): int {
    if j < cached then j / 512 else (cached + 511) / 512 + (j - cached) / 512
  }

  /** A non-empty block of at most 512 keys, all cached or all appended; it is full unless the
      cached or the appended keys end with it. */
  predicate IsKeyBlock(cached: nat, added: nat, k: int) {
    var lo, hi := FirstKey(cached, k), LimitKey(cached, added, k);
    && 0 <= lo < hi <= cached + added && hi - lo <= 512
    && (hi <= cached || lo >= cached)
    && (hi - lo == 512 || hi == cached || hi == cached + added)
  }

  lemma KeyBlockAt(cached: nat, added: nat, k: int)
    requires 0 <= k < (cached + 511) / 512 + (added + 511) / 512
    ensures IsKeyBlock(cached, added, k)
  {
  }

  lemma KeyInBlock(cached: nat, added: nat, k: int, j: int)
    requires 0 <= k < (cached + 511) / 512 + (added + 511) / 512 && 0 <= j < cached + added
    ensures FirstKey(cached, k) <= j < LimitKey(cached, added, k) <==> k == BlockOfKey(cached, j)
  {
  }

  lemma BlockInRange(cached: nat, added: nat, j: int)
    requires 0 <= j < cached + added
    ensures 0 <= BlockOfKey(cached, j) < (cached + 511) / 512 + (added + 511) / 512
  {
  }

  lemma BlocksFollow(cached: nat, added: nat, k: int)
    requires 0 <= k < (cached + 511) / 512 + (added + 511) / 512
    ensures k == 0 ==> FirstKey(cached, k) == 0
    ensures LimitKey(cached, added, k) == if k == (cached + 511) / 512 + (added + 511) / 512 - 1 then cached + added else FirstKey(cached, k + 1)
  {
  }

  /** Rows, keys and blocks of a batch. */
  lemma BlockCount(ctx: Context, b: int)
    requires ctx.Valid() && 0 <= b < ctx.batchSize
    ensures var p := GetBatchParams(ctx, b);
            && p.qSeqlen == QueryCount(ctx, b) && p.kvSeqlen == KeyCount(ctx, b)
            && p.curKSBlockNum == (ctx.seqlensK[b] + 511) / 512 + (ctx.kvNewSeqlen + 511) / 512
            && p.curQSBlockNum == (QueryCount(ctx, b) + 127) / 128
  {
  }

  lemma TailIs(ctx: Context, b: int)
    requires ctx.Valid() && 0 <= b < ctx.batchSize
    ensures var p, cached, added := GetBatchParams(ctx, b), ctx.seqlensK[b], ctx.kvNewSeqlen;
            p.curKSBlockTail == if p.curKSBlockNum == 0 then 0
                                else LimitKey(cached, added, p.curKSBlockNum - 1) - FirstKey(cached, p.curKSBlockNum - 1)
  {
  }

  /** The KV blocks of a batch follow each other from its first key to its last. Each is non-empty,
      at most 512 keys long and full up to the end of the cached or appended keys, and none holds
      both; so every key is in exactly one block. The tail is the length of the last block. */
  lemma BlocksHoldKeys(ctx: Context, b: int)
    requires ctx.Valid() && 0 <= b < ctx.batchSize
    ensures var p, cached, added := GetBatchParams(ctx, b), ctx.seqlensK[b], ctx.kvNewSeqlen;
            && p.qSeqlen == QueryCount(ctx, b) && p.kvSeqlen == cached + added
            && (forall k :: 0 <= k < p.curKSBlockNum ==> IsKeyBlock(cached, added, k))
            && (forall j :: 0 <= j < cached + added ==> 0 <= BlockOfKey(cached, j) < p.curKSBlockNum)
            && (forall j, k :: 0 <= j < cached + added && 0 <= k < p.curKSBlockNum ==>
                  (FirstKey(cached, k) <= j < LimitKey(cached, added, k) <==> k == BlockOfKey(cached, j)))
            && p.curKSBlockTail == (if p.curKSBlockNum == 0 then 0
                                    else LimitKey(cached, added, p.curKSBlockNum - 1) - FirstKey(cached, p.curKSBlockNum - 1))
  {
    BlockCount(ctx, b);
    TailIs(ctx, b);
    var p, cached, added := GetBatchParams(ctx, b), ctx.seqlensK[b], ctx.kvNewSeqlen;
    hide *;
    forall k | 0 <= k < p.curKSBlockNum
      ensures IsKeyBlock(cached, added, k)
    {
      KeyBlockAt(cached, added, k);
    }
    forall j | 0 <= j < cached + added
      ensures 0 <= BlockOfKey(cached, j) < p.curKSBlockNum
    {
      BlockInRange(cached, added, j);
    }
    forall j, k | 0 <= j < cached + added && 0 <= k < p.curKSBlockNum
      ensures FirstKey(cached, k) <= j < LimitKey(cached, added, k) <==> k == BlockOfKey(cached, j)
    {
      KeyInBlock(cached, added, k, j);
    }
  }

  /* Every query row meets every key on one core. */

  /** Core c holds the block in which query row q of head h meets key j. */
  ghost predicate Meets(ctx: Context, core: CoreNode, b: int, h: int, q: int, j: int)
    requires ctx.Valid() && 0 <= b < ctx.batchSize
  {
    exists n1, s1, k ::
      && Covers(ShapeOf(ctx), core, Block(b, n1, s1, k))
      && InTile(ctx, GetBatchParams(ctx, b), n1, s1, h, q)
      && FirstKey(ctx.seqlensK[b], k) <= j < LimitKey(ctx.seqlensK[b], ctx.kvNewSeqlen, k)
  }

  /** The block of a query row and a key. */
  function MeetingBlock(ctx: Context, b: int, h: int, q: int, j: int): Block
    requires ctx.Valid() && 0 <= b < ctx.batchSize
  {
    Block(b, HeadBlock(ctx, GetBatchParams(ctx, b), h), q / Q_TILE_CEIL, BlockOfKey(ctx.seqlensK[b], j))
  }

  lemma ShapeOfBatch(ctx: Context, b: int)
    requires ctx.Valid() && 0 <= b < ctx.batchSize
    ensures var sh, p := ShapeOf(ctx), GetBatchParams(ctx, b);
            && WellShaped(sh) && |sh.n1| == |sh.s1| == |sh.s2| == ctx.batchSize
            && sh.n1[b] == p.curQNBlockNum && sh.s1[b] == p.curQSBlockNum && sh.s2[b] == p.curKSBlockNum
  {
    hide GetBatchParams;
  }

  lemma MeetsThere(ctx: Context, core: CoreNode, b: int, h: int, q: int, j: int)
    requires ctx.Valid() && 0 <= b < ctx.batchSize
    requires 0 <= h < ctx.GroupSize() * ctx.numHeadsK && 0 <= q < QueryCount(ctx, b) && 0 <= j < KeyCount(ctx, b)
    ensures ValidBlock(ShapeOf(ctx), MeetingBlock(ctx, b, h, q, j))
    ensures (Meets(ctx, core, b, h, q, j)) <==> Covers(ShapeOf(ctx), core, MeetingBlock(ctx, b, h, q, j))
  {
    BlocksHoldKeys(ctx, b);
    TilesPartition(ctx, b, h, q);
    ShapeOfBatch(ctx, b);
    hide GetBatchParams, ShapeOf, InTile, FirstKey, LimitKey, BlockOfKey, HeadBlock, Visits;
    var x := MeetingBlock(ctx, b, h, q, j);
    assert x == Block(b, x.n1, x.s1, x.s2);
    if Covers(ShapeOf(ctx), core, x) {
      assert InTile(ctx, GetBatchParams(ctx, b), x.n1, x.s1, h, q);
      assert Meets(ctx, core, b, h, q, j);
    }
  }

  /** In an exact cover every query row of every head meets every key of its batch, cached or
      appended, on exactly one core. */
  lemma KeyHasOneCore(ctx: Context, cores: seq<CoreNode>, b: int, h: int, q: int, j: int)
    requires ctx.Valid() && InOrderCover(ShapeOf(ctx), cores) && 0 <= b < ctx.batchSize
    requires 0 <= h < ctx.GroupSize() * ctx.numHeadsK && 0 <= q < QueryCount(ctx, b) && 0 <= j < KeyCount(ctx, b)
    ensures exists c ::
              && 0 <= c < |cores| && Meets(ctx, cores[c], b, h, q, j)
              && forall d :: 0 <= d < |cores| && Meets(ctx, cores[d], b, h, q, j) ==> d == c
  {
    var x := MeetingBlock(ctx, b, h, q, j);
    hide *;
    forall c | 0 <= c < |cores|
      ensures ValidBlock(ShapeOf(ctx), x)
      ensures Meets(ctx, cores[c], b, h, q, j) <==> Covers(ShapeOf(ctx), cores[c], x)
    {
      MeetsThere(ctx, cores[c], b, h, q, j);
    }
    MeetsThere(ctx, IDLE, b, h, q, j);
    OneOwner(ShapeOf(ctx), cores, x);
  }
}
