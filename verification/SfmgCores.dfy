/** The row sums of the backward pass on all vector cores: every core takes a stretch of ranks,
    gathers it burst by burst with the next burst read ahead, and stores one slot per rank. */
module SfmgCores {
  import opened Arith
  import opened SplitParams
  import opened SfmgRank
  import opened SfmgGather

  const BLOCK_SIZE := 8

  /** How the ranks are dealt to cores and bursts. */
  datatype Deal = Deal(total: int, coreNum: int, single: int)
  {
    ghost predicate Valid() { total >= 1 && coreNum >= 1 && single >= 1 }

    function CoreSize(): int
      requires coreNum >= 1
    {
      CeilDiv(total, coreNum)
    }

    function UsedCores(): int
      requires coreNum >= 1 && CoreSize() >= 1
    {
      CeilDiv(total, CoreSize())
    }

    /** Ranks of core c. */
    function SizeOf(c: int): int
      requires coreNum >= 1 && CoreSize() >= 1
    {
      if c == UsedCores() - 1 then total - (UsedCores() - 1) * CoreSize() else CoreSize()
    }

    function LoopsOf(c: int): int
      requires coreNum >= 1 && CoreSize() >= 1 && single >= 1
    {
      CeilDiv(SizeOf(c), single)
    }

    function LastBurst(c: int): int
      requires coreNum >= 1 && CoreSize() >= 1 && single >= 1
    {
      SizeOf(c) - (LoopsOf(c) - 1) * single
    }
  }

  /** The used cores' stretches follow each other and end at the total. */
  lemma Dealt(d: Deal, c: int)
    requires d.Valid()
    ensures d.CoreSize() >= 1 && 1 <= d.UsedCores() <= d.coreNum
    ensures (d.CoreSize() - 1) * d.coreNum < d.total <= d.CoreSize() * d.coreNum
    ensures 0 <= c < d.UsedCores() ==>
              && 0 <= c * d.CoreSize() && 1 <= d.SizeOf(c) <= d.CoreSize()
              && c * d.CoreSize() + d.SizeOf(c) == (if c == d.UsedCores() - 1 then d.total else (c + 1) * d.CoreSize())
              && c * d.CoreSize() + d.SizeOf(c) <= d.total
  {
    CeilDivBounds(d.total, d.coreNum);
    var size := d.CoreSize();
    assert size >= 1;
    CeilDivBounds(d.total, size);
    var used := d.UsedCores();
    assert (used - 1) * size < d.total <= used * size;
    Commute(size, d.coreNum);
    MulLess(used - 1, d.coreNum, size);
    assert used * size == (used - 1) * size + size;
    if 0 <= c < used {
      MulMono(0, c, size);
      assert (c + 1) * size == c * size + size;
      if c < used - 1 { MulMono(c + 1, used - 1, size); }
    }
  }

  /** A core's bursts: all full but the last. */
  lemma Bursts(d: Deal, c: int)
    requires d.Valid() && d.CoreSize() >= 1 && d.SizeOf(c) >= 1
    ensures d.LoopsOf(c) >= 1 && 1 <= d.LastBurst(c) <= d.single
    ensures (d.LoopsOf(c) - 1) * d.single + d.LastBurst(c) == d.SizeOf(c)
  {
    CeilDivBounds(d.SizeOf(c), d.single);
    var loops := d.LoopsOf(c);
    assert loops * d.single == (loops - 1) * d.single + d.single;
  }

  /** What a slot is made of: the row sum of the products of two rows, left abstract. */
  type Front = (Row, Row) -> Row

  /** The slot of rank k. */
  ghost predicate SlotIs(sq: Seqs, dout: Tensor, out: Tensor, front: Front, k: int, x: Row)
    requires ValidSeqs(sq)
  {
    forall b, n, s :: IsRow(sq, b, n, s) && Rank(sq, b, n, s) == k ==>
                        x == front(dout.row(Addr(sq, dout.strides, b, n, s)), out.row(Addr(sq, out.strides, b, n, s)))
  }

  lemma FrontIsSlot(sq: Seqs, dout: Tensor, out: Tensor, front: Front, k: int, x: Row, y: Row)
    requires ValidSeqs(sq) && IsRowOf(sq, dout, k, x) && IsRowOf(sq, out, k, y)
    ensures SlotIs(sq, dout, out, front, k, front(x, y))
  {
    hide Rank, IsRow, Addr;
  }

  /** Slots of the ranks lo, ..., hi - 1 are stored; all others are as before. */
  ghost predicate Stored(sq: Seqs, dout: Tensor, out: Tensor, front: Front, before: seq<Row>, after: seq<Row>, lo: int, hi: int)
    requires ValidSeqs(sq)
  {
    && |after| == |before| && 0 <= lo <= hi <= |after|
    && (forall k :: lo <= k < hi ==> SlotIs(sq, dout, out, front, k, after[k]))
    && (forall k :: (0 <= k < lo || hi <= k < |after|) ==> after[k] == before[k])
  }

  lemma StoredJoin(sq: Seqs, dout: Tensor, out: Tensor, front: Front, before: seq<Row>, mid: seq<Row>, after: seq<Row>, lo: int, at: int, hi: int)
    requires ValidSeqs(sq)
    requires Stored(sq, dout, out, front, before, mid, lo, at) && Stored(sq, dout, out, front, mid, after, at, hi)
    ensures Stored(sq, dout, out, front, before, after, lo, hi)
  {
    hide SlotIs;
  }

  /** Reduce a burst to its slots and store them at their ranks. */
  method StoreBurst(workspace: array<Row>, offset: int, clc1: seq<Row>, clc2: seq<Row>, front: Front,
                    ghost sq: Seqs, ghost dout: Tensor, ghost out: Tensor, ghost k: int)
    requires ValidSeqs(sq) && |clc1| == |clc2| && AreRowsOf(sq, dout, k, clc1) && AreRowsOf(sq, out, k, clc2)
    requires offset == k * BLOCK_SIZE && 0 <= k && k + |clc1| <= workspace.Length
    modifies workspace
    ensures Stored(sq, dout, out, front, old(workspace[..]), workspace[..], k, k + |clc1|)
  {
    var base := offset / BLOCK_SIZE;
    assert base == k;
    hide ValidSeqs, SlotIs, IsRowOf;
    for j := 0 to |clc1|
      invariant forall x :: 0 <= x < workspace.Length && !(k <= x < k + j) ==> workspace[x] == old(workspace[x])
      invariant forall x :: k <= x < k + j ==> SlotIs(sq, dout, out, front, x, workspace[x])
    {
      assert IsRowOf(sq, dout, k + j, clc1[j]) && IsRowOf(sq, out, k + j, clc2[j]);
      FrontIsSlot(sq, dout, out, front, k + j, clc1[j], clc2[j]);
      workspace[base + j] := front(clc1[j], clc2[j]);
    }
  }

  /** Position the odometer on rank k and gather `count` rows. */
  method Gather(odo: Odometer, k: int, count: int, curS: int, dout: Tensor, out: Tensor)
    returns (newS: int, rowsD: seq<Row>, rowsO: seq<Row>)
    requires odo.Valid() && 0 <= k && 0 < count && k + count <= Total(odo.sq) && odo.sq.nheads * StartOf(odo.sq, odo.bIdx) <= k
    requires !odo.sq.packed ==> curS == odo.sq.seqQ
    modifies odo
    ensures odo.Valid() && (!odo.sq.packed ==> newS == odo.sq.seqQ)
    ensures odo.sq.nheads * StartOf(odo.sq, odo.bIdx) <= k + count
    ensures |rowsD| == |rowsO| == count && AreRowsOf(odo.sq, dout, k, rowsD) && AreRowsOf(odo.sq, out, k, rowsO)
  {
    newS := odo.InitIndex(k * odo.headdim, curS, k);
    newS, rowsD, rowsO := odo.CopyInSfmg(count, newS, dout, out);
    RankAtLeast(odo.sq, odo.bIdx, odo.nIdx, odo.sIdx);
  }

  lemma RankAtLeast(sq: Seqs, b: int, n: int, s: int)
    requires ValidSeqs(sq) && 0 <= b < sq.batch && 0 <= n && 0 <= s
    ensures sq.nheads * StartOf(sq, b) <= Rank(sq, b, n, s)
  {
    StartNext(sq, b);
    MulMono(0, n, LenOf(sq, b));
  }

  /** Size of burst i of core c. */
  function BurstSize(d: Deal, c: int, i: int): int
    requires d.Valid() && d.CoreSize() >= 1
  {
    if i == d.LoopsOf(c) - 1 then d.LastBurst(c) else d.single
  }

  /** Burst i of core c is inside the core's stretch and the next burst follows it. */
  lemma BurstIn(d: Deal, c: int, i: int)
    requires d.Valid() && d.CoreSize() >= 1 && d.SizeOf(c) >= 1 && 0 <= i < d.LoopsOf(c)
    ensures 0 <= i * d.single && 1 <= BurstSize(d, c, i) && i * d.single + BurstSize(d, c, i) <= d.SizeOf(c)
    ensures i < d.LoopsOf(c) - 1 ==> i * d.single + BurstSize(d, c, i) == (i + 1) * d.single
    ensures i == d.LoopsOf(c) - 1 ==> i * d.single + BurstSize(d, c, i) == d.SizeOf(c)
  {
    Bursts(d, c);
    MulMono(0, i, d.single);
    assert (i + 1) * d.single == i * d.single + d.single;
    MulMono(i, d.LoopsOf(c) - 1, d.single);
    if i < d.LoopsOf(c) - 1 { MulMono(i + 1, d.LoopsOf(c) - 1, d.single); }
  }

  /** One core: the next burst is gathered before the current one is reduced and stored. */
  method RunCore(sq: Seqs, d: Deal, headdim: int, cBlockIdx: int, dout: Tensor, out: Tensor, front: Front, workspace: array<Row>)
    requires ValidSeqs(sq) && d.Valid() && d.total == Total(sq) <= workspace.Length && headdim >= 1
    requires d.CoreSize() >= 1 && 0 <= cBlockIdx < d.UsedCores()
    requires 0 <= cBlockIdx * d.CoreSize() && d.SizeOf(cBlockIdx) >= 1 && cBlockIdx * d.CoreSize() + d.SizeOf(cBlockIdx) <= d.total
    modifies workspace
    ensures Stored(sq, dout, out, front, old(workspace[..]), workspace[..],
                   cBlockIdx * d.CoreSize(), cBlockIdx * d.CoreSize() + d.SizeOf(cBlockIdx))
  {
    Bursts(d, cBlockIdx);
    StartZero(sq);
    hide *;
    var startIdx, loops := cBlockIdx * d.CoreSize(), d.LoopsOf(cBlockIdx);
    var odo := new Odometer(sq, headdim);
    var curS := sq.seqQ;
    BurstIn(d, cBlockIdx, 0);
    var input1, input2: seq<Row>;
    curS, input1, input2 := Gather(odo, startIdx, BurstSize(d, cBlockIdx, 0), curS, dout, out);
    NothingStored(sq, dout, out, front, workspace[..], startIdx);
    ghost var done := startIdx;
    for i := 0 to loops
      invariant odo.Valid() && odo.sq == sq && fresh(odo) && (!sq.packed ==> curS == sq.seqQ)
      invariant done == (if i < loops then startIdx + i * d.single else startIdx + d.SizeOf(cBlockIdx))
      invariant Stored(sq, dout, out, front, old(workspace[..]), workspace[..], startIdx, done)
      invariant i < loops ==> |input1| == |input2| == BurstSize(d, cBlockIdx, i)
      invariant i < loops ==> AreRowsOf(sq, dout, startIdx + i * d.single, input1) && AreRowsOf(sq, out, startIdx + i * d.single, input2)
      invariant i < loops ==> sq.nheads * StartOf(sq, odo.bIdx) <= startIdx + i * d.single + BurstSize(d, cBlockIdx, i)
    {
      BurstIn(d, cBlockIdx, i);
      var clc1, clc2 := input1, input2;
      if i < loops - 1 {
        BurstIn(d, cBlockIdx, i + 1);
        curS, input1, input2 := Gather(odo, startIdx + (i + 1) * d.single, BurstSize(d, cBlockIdx, i + 1), curS, dout, out);
      }
      ghost var mid := workspace[..];
      StoreBurst(workspace, (startIdx + i * d.single) * BLOCK_SIZE, clc1, clc2, front, sq, dout, out, startIdx + i * d.single);
      StoredJoin(sq, dout, out, front, old(workspace[..]), mid, workspace[..], startIdx, done, done + |clc1|);
      done := done + |clc1|;
    }
  }

  lemma StartZero(sq: Seqs)
    requires ValidSeqs(sq)
    ensures StartOf(sq, 0) == 0
  {
  }

  lemma NothingStored(sq: Seqs, dout: Tensor, out: Tensor, front: Front, now: seq<Row>, k: int)
    requires ValidSeqs(sq) && 0 <= k <= |now|
    ensures Stored(sq, dout, out, front, now, now, k, k)
  {
  }

  /** All cores: every rank's slot is stored, once, and nothing behind the total. */
  method RunCores(sq: Seqs, coreNum: int, single: int, headdim: int, dout: Tensor, out: Tensor, front: Front, workspace: array<Row>)
    requires ValidSeqs(sq) && coreNum >= 1 && single >= 1 && headdim >= 1 && 1 <= Total(sq) <= workspace.Length
    modifies workspace
    ensures Stored(sq, dout, out, front, old(workspace[..]), workspace[..], 0, Total(sq))
  {
    var d := Deal(Total(sq), coreNum, single);
    assert d.Valid();
    hide *;
    Dealt(d, 0);
    NothingStored(sq, dout, out, front, workspace[..], 0);
    ghost var done := 0;
    for c := 0 to coreNum
      invariant done == (if c < d.UsedCores() then c * d.CoreSize() else d.total)
      invariant Stored(sq, dout, out, front, old(workspace[..]), workspace[..], 0, done)
    {
      if c < d.UsedCores() {
        Dealt(d, c);
        ghost var mid := workspace[..];
        RunCore(sq, d, headdim, c, dout, out, front, workspace);
        StoredJoin(sq, dout, out, front, old(workspace[..]), mid, workspace[..], 0, done, c * d.CoreSize() + d.SizeOf(c));
        done := c * d.CoreSize() + d.SizeOf(c);
      }
    }
  }

  /* The consumer. */

  /** Offset of the slots of a tile: of query rows from s1oIdx * s1CvInner on, in head
      (n2Idx, gIdx) of batch bIdx. */
  function SfmgOffset(sq: Seqs, n2: int, g: int, bIdx: int, n2Idx: int, gIdx: int, s1oIdx: int, s1CvInner: int): int
    requires ValidSeqs(sq) && 0 <= bIdx < sq.batch
  {
    if sq.packed then
      (if bIdx > 0 then n2 * g * sq.ends[bIdx - 1] * 8 else 0)
      + ((n2Idx * g + gIdx) * LenOf(sq, bIdx) + s1oIdx * s1CvInner) * 8
    else (((bIdx * n2 + n2Idx) * g + gIdx) * sq.seqQ + s1oIdx * s1CvInner) * 8
  }

  /** Row i of vector step `curS1Idx` of the tile reads the slot of its own rank. */
  lemma ConsumerReadsRank(sq: Seqs, n2: int, g: int, bIdx: int, n2Idx: int, gIdx: int, s1oIdx: int, s1CvInner: int,
                          curS1Idx: int, s1VecSize: int, i: int)
    requires ValidSeqs(sq) && 0 <= bIdx < sq.batch && sq.nheads == n2 * g
    ensures SfmgOffset(sq, n2, g, bIdx, n2Idx, gIdx, s1oIdx, s1CvInner) + curS1Idx * s1VecSize * 8 + i * 8
         == Rank(sq, bIdx, n2Idx * g + gIdx, s1oIdx * s1CvInner + curS1Idx * s1VecSize + i) * BLOCK_SIZE
  {
    if !sq.packed {
      HeadRank(bIdx, n2, n2Idx, g, gIdx, sq.seqQ);
    }
  }

  lemma HeadRank(b: int, n2: int, n2Idx: int, g: int, gIdx: int, s: int)
    ensures ((b * n2 + n2Idx) * g + gIdx) * s == (n2 * g) * (b * s) + (n2Idx * g + gIdx) * s
  {
    assert (b * n2 + n2Idx) * g == b * n2 * g + n2Idx * g;
    assert (b * n2 * g + (n2Idx * g + gIdx)) * s == b * n2 * g * s + (n2Idx * g + gIdx) * s;
    assert b * n2 * g * s == (n2 * g) * (b * s);
  }

  /** After the row sums are stored, the consumer finds at the rank of a row what was made of
      that very row. */
  lemma ConsumerFindsRow(sq: Seqs, dout: Tensor, out: Tensor, front: Front, before: seq<Row>, after: seq<Row>, b: int, n: int, s: int)
    requires ValidSeqs(sq) && Stored(sq, dout, out, front, before, after, 0, Total(sq)) && IsRow(sq, b, n, s)
    ensures 0 <= Rank(sq, b, n, s) < Total(sq) <= |after|
    ensures after[Rank(sq, b, n, s)]
         == front(dout.row(Addr(sq, dout.strides, b, n, s)), out.row(Addr(sq, out.strides, b, n, s)))
  {
    RankInBatch(sq, b, n, s);
    StartMono(sq, b + 1, sq.batch);
    MulMonoLeft(sq.nheads, StartOf(sq, b + 1), StartOf(sq, sq.batch));
    StartMono(sq, b, b);
    MulMonoLeft(sq.nheads, 0, StartOf(sq, b));
    var k := Rank(sq, b, n, s);
    assert SlotIs(sq, dout, out, front, k, after[k]);
  }

  /** For dense tensors: what was made of the very values of token and head. */
  lemma ConsumerFindsToken(sq: Seqs, dout: Tensor, out: Tensor, front: Front, headdim: int, before: seq<Row>, after: seq<Row>,
                           b: int, n: int, s: int)
    requires ValidSeqs(sq) && Stored(sq, dout, out, front, before, after, 0, Total(sq)) && IsRow(sq, b, n, s)
    requires dout.strides == out.strides == Strides(sq.seqQ * sq.nheads * headdim, sq.nheads * headdim, headdim)
    ensures 0 <= Rank(sq, b, n, s) < |after|
    ensures var at := (((if !sq.packed then b * sq.seqQ else if b == 0 then 0 else sq.ends[b - 1]) + s) * sq.nheads + n) * headdim;
            after[Rank(sq, b, n, s)] == front(dout.row(at), out.row(at))
  {
    ConsumerFindsRow(sq, dout, out, front, before, after, b, n, s);
    DenseAddr(sq, dout.strides, headdim, b, n, s);
    hide Rank, Addr, Stored;
  }
}
