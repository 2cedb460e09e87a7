/** A request to normalise sparse metadata, with all its checks: tensors of any shape, fixed or
    packed layout, partial and full lists, forward and backward. */
module SparseRequest {
  import opened Arith
  import opened Wrappers
  import opened SparseLists
  import opened SparseGrid
  import opened SparsePacked

  /* Tensors. */

  datatype Data = Data(shape: seq<nat>, values: seq<int>)

  function Volume(shape: seq<nat>): (v: nat) {
    if shape == [] then 1
    else
      var n := |shape| - 1;
      MulMono(0, Volume(shape[..n]), shape[n]);
      Volume(shape[..n]) * shape[n]
  }

  /** The elements of a tensor in row-major order. */
  type Content = c: Data | |c.values| == Volume(c.shape) witness Data([0], [])

  lemma Volumes(a: nat, b: nat, c: nat, d: nat)
    ensures Volume([a]) == a && Volume([a, b]) == a * b && Volume([a, b, c]) == a * b * c && Volume([a, b, c, d]) == a * b * c * d
  {
    assert [a][..0] == [] && [a, b][..1] == [a] && [a, b, c][..2] == [a, b] && [a, b, c, d][..3] == [a, b, c];
  }

  /** The two tensors of a table. */
  function CountTensor(a: Grid): Content
    requires Shaped(a)
  {
    Volumes(a.batch, a.heads, a.rows, 0);
    Data([a.batch, a.heads, a.rows], a.cnt)
  }

  function IndexTensor(a: Grid): Content
    requires Shaped(a)
  {
    Volumes(a.batch, a.heads, a.rows, a.width);
    Data([a.batch, a.heads, a.rows, a.width], a.idx)
  }

  /** A tensor of rank 1. */
  function Line(xs: seq<int>): (c: Content)
    ensures c.shape == [|xs|] && c.values == xs
  {
    Volumes(|xs|, 0, 0, 0);
    Data([|xs|], xs)
  }

  /* The request. */

  /** The scalar arguments. */
  datatype Scalars = Scalars(batch: int, heads: int, seqQ: int, seqK: int, backward: bool, blockSize: Option<(int, int)>)

  /** The tensor arguments: counts and indices of partial lists, of full lists, block offsets of a
      packed layout, and cumulative sequence lengths. */
  datatype Fields = Fields(maskCnt: Content, maskIdx: Content, fullCnt: Option<Content>, fullIdx: Option<Content>,
                           cuRows: Option<Content>, cuIdx: Option<Content>, cuQ: Option<Content>, cuK: Option<Content>)

  const MAX_LENGTH := 0x8000_0000 - 128

  /** The checks made before anything else. */
  predicate Validated(g: Fields, s: Scalars) {
    && (s.blockSize.Some? ==> s.blockSize.value == (BLOCK, BLOCK))
    && (g.fullCnt.Some? <==> g.fullIdx.Some?) && (g.cuRows.Some? <==> g.cuIdx.Some?)
    && (g.cuRows.Some? ==> |g.cuRows.value.shape| == 1 && |g.cuIdx.value.shape| == 1)
  }

  predicate Sensible(s: Scalars) {
    s.batch >= 1 && s.heads >= 1 && 1 <= s.seqQ <= MAX_LENGTH && 1 <= s.seqK <= MAX_LENGTH
  }

  /** Cumulative lengths have one entry more than there are batches; where reading them needs no
      device synchronisation they must start at zero, with segments up to the maximum. */
  predicate BoundaryFits(cpu: bool, cu: Option<Content>, batch: int, max: int) {
    cu.Some? ==> |cu.value.shape| == 1 && cu.value.shape[0] == batch + 1 && (cpu ==> BoundaryValues(cu.value.values, max))
  }

  predicate BoundaryValues(values: seq<int>, max: int) {
    && |values| >= 1 && values[0] == 0
    && forall b :: 0 <= b < |values| - 1 ==> SegmentFits(values, b, max)
  }

  predicate SegmentFits(values: seq<int>, b: int, max: int)
    requires 0 <= b < |values| - 1
  {
    0 <= values[b + 1] - values[b] <= max
  }

  /* Rows and columns: queries and keys, or the other way round for the lists of the backward pass. */

  function RowBoundary(g: Fields, s: Scalars): Option<Content> { if s.backward then g.cuK else g.cuQ }

  function ColBoundary(g: Fields, s: Scalars): Option<Content> { if s.backward then g.cuQ else g.cuK }

  function RowBlocks(s: Scalars): nat
    requires Sensible(s)
  {
    Blocks(if s.backward then s.seqK else s.seqQ)
  }

  function ColBlocks(s: Scalars): nat
    requires Sensible(s)
  {
    Blocks(if s.backward then s.seqQ else s.seqK)
  }

  function BlocksAcross(n: int): nat { if n <= 0 then 0 else Blocks(n) }

  /** Blocks of every segment. */
  function Segments(cu: Option<Content>, blocks: nat, batch: nat): (r: seq<nat>)
    ensures |r| == batch
  {
    match cu
    case None => seq(batch, _ => blocks)
    case Some(c) => seq(batch, i requires 0 <= i < batch => BlocksAcross(At(c.values, i + 1) - At(c.values, i)))
  }

  function RowSegments(g: Fields, s: Scalars): (r: seq<nat>)
    requires Sensible(s)
    ensures |r| == s.batch
  {
    Segments(RowBoundary(g, s), RowBlocks(s), s.batch)
  }

  function ColSegments(g: Fields, s: Scalars): (r: seq<nat>)
    requires Sensible(s)
    ensures |r| == s.batch
  {
    Segments(ColBoundary(g, s), ColBlocks(s), s.batch)
  }

  /* Unpacking one pair of counts and indices. */

  function Max(a: nat, b: nat): nat { if a > b then a else b }

  predicate AxisFits(n: nat, N: int) { n == 1 || n == N }

  predicate FixedFits(cnt: Content, idx: Content, s: Scalars)
    requires Sensible(s)
  {
    && |cnt.shape| == 3 && |idx.shape| == 4
    && AxisFits(cnt.shape[0], s.batch) && AxisFits(cnt.shape[1], s.heads) && cnt.shape[2] == RowBlocks(s)
    && AxisFits(idx.shape[0], s.batch) && AxisFits(idx.shape[1], s.heads) && idx.shape[2] == RowBlocks(s)
    && idx.shape[3] <= ColBlocks(s)
  }

  function FixedCounts(cnt: Content): Counts
    requires |cnt.shape| == 3
  {
    (i, j, m) => At(cnt.values, RowNo(Bc(i, cnt.shape[0]), Bc(j, cnt.shape[1]), m, cnt.shape[1], cnt.shape[2]))
  }

  function FixedSlots(idx: Content): Slots
    requires |idx.shape| == 4
  {
    (i, j, m, w) => At(idx.values, RowNo(Bc(i, idx.shape[0]), Bc(j, idx.shape[1]), m, idx.shape[1], idx.shape[2]) * idx.shape[3] + w)
  }

  /** Fixed lists, with axes of length 1 expanded where counts and indices differ. */
  function UnpackFixed(cnt: Content, idx: Content, s: Scalars): (a: Grid)
    requires Sensible(s) && FixedFits(cnt, idx, s)
    ensures Shaped(a) && a.rows == RowBlocks(s) && a.width == idx.shape[3]
    ensures a.batch == Max(cnt.shape[0], idx.shape[0]) && a.heads == Max(cnt.shape[1], idx.shape[1])
  {
    Tabulate(Max(cnt.shape[0], idx.shape[0]), Max(cnt.shape[1], idx.shape[1]), RowBlocks(s), idx.shape[3], FixedCounts(cnt), FixedSlots(idx))
  }

  /** Cells of an unpacked fixed pair, with its axes of length 1 expanded. */
  lemma FixedCells(cnt: Content, idx: Content, s: Scalars, i: int, j: int, m: int)
    requires Sensible(s) && FixedFits(cnt, idx, s) && InGrid(UnpackFixed(cnt, idx, s), i, j, m)
    ensures var a := UnpackFixed(cnt, idx, s);
            && Cnt(a, i, j, m) == At(cnt.values, RowNo(Bc(i, cnt.shape[0]), Bc(j, cnt.shape[1]), m, cnt.shape[1], RowBlocks(s)))
            && forall w :: 0 <= w < a.width ==>
                 Idx(a, i, j, m, w) == At(idx.values, RowNo(Bc(i, idx.shape[0]), Bc(j, idx.shape[1]), m, idx.shape[1], RowBlocks(s)) * a.width + w)
  {
    var b, h := Max(cnt.shape[0], idx.shape[0]), Max(cnt.shape[1], idx.shape[1]);
    TabulatedCount(b, h, RowBlocks(s), idx.shape[3], FixedCounts(cnt), FixedSlots(idx), i, j, m);
    forall w | 0 <= w < idx.shape[3]
      ensures Idx(UnpackFixed(cnt, idx, s), i, j, m, w)
              == At(idx.values, RowNo(Bc(i, idx.shape[0]), Bc(j, idx.shape[1]), m, idx.shape[1], RowBlocks(s)) * idx.shape[3] + w)
    {
      TabulatedSlot(b, h, RowBlocks(s), idx.shape[3], FixedCounts(cnt), FixedSlots(idx), i, j, m, w);
    }
    hide Tabulate, Cnt, Idx, RowNo, At;
  }

  predicate PackedFits(cnt: Content, idx: Content, cuRows: Content, cuIdx: Content, s: Scalars) {
    && |cnt.shape| == 2 && |idx.shape| == 2 && AxisFits(cnt.shape[0], s.heads) && AxisFits(idx.shape[0], s.heads)
    && |cuRows.values| == s.batch + 1 && |cuIdx.values| == s.batch + 1
  }

  /** The packed values of head j. */
  function HeadOf(c: Content, j: int): (row: seq<int>)
    requires |c.shape| == 2
    ensures 0 <= Bc(j, c.shape[0]) < c.shape[0] ==> |row| == c.shape[1]
  {
    Volumes(c.shape[0], c.shape[1], 0, 0);
    assert c.shape == [c.shape[0], c.shape[1]];
    var r := Bc(j, c.shape[0]);
    if 0 <= r < c.shape[0] then RowFits(c.shape[0], c.shape[1], r); c.values[r * c.shape[1]..r * c.shape[1] + c.shape[1]] else []
  }

  function HeadLists(cnt: Content, idx: Content, j: int): Packed
    requires |cnt.shape| == 2 && |idx.shape| == 2
  {
    Packed(HeadOf(cnt, j), HeadOf(idx, j))
  }

  /** The unpacked layouts of all heads. */
  function UnpackHeads(cnt: Content, idx: Content, cuRows: Content, cuIdx: Content, rows: seq<nat>, cols: seq<nat>, M: nat, N: nat): (f: seq<Fixed>)
    requires |cnt.shape| == 2 && |idx.shape| == 2 && |rows| == |cols| && |cuRows.values| == |cuIdx.values| == |rows| + 1
    ensures |f| == Max(cnt.shape[0], idx.shape[0])
    ensures forall j :: 0 <= j < |f| ==> f[j] == Unpack(HeadLists(cnt, idx, j), cuRows.values, cuIdx.values, rows, cols, M, N)
  {
    seq(Max(cnt.shape[0], idx.shape[0]), j => Unpack(HeadLists(cnt, idx, j), cuRows.values, cuIdx.values, rows, cols, M, N))
  }

  function CountIn(f: Fixed, i: int, m: int): int {
    if 0 <= i < |f.cnt| && 0 <= m < |f.cnt[i]| then f.cnt[i][m] else 0
  }

  function SlotIn(f: Fixed, i: int, m: int, w: int): int {
    if 0 <= i < |f.idx| && 0 <= m < |f.idx[i]| && 0 <= w < |f.idx[i][m]| then f.idx[i][m][w] else 0
  }

  function HeadCounts(f: seq<Fixed>): Counts { (i, j, m) => if 0 <= j < |f| then CountIn(f[j], i, m) else 0 }

  function HeadSlots(f: seq<Fixed>): Slots { (i, j, m, w) => if 0 <= j < |f| then SlotIn(f[j], i, m, w) else 0 }

  /** The layouts of all heads as one table. */
  function JoinHeads(f: seq<Fixed>, B: nat, M: nat, N: nat): (a: Grid)
    ensures Shaped(a) && a.batch == B && a.heads == |f| && a.rows == M && a.width == N
  {
    Tabulate(B, |f|, M, N, HeadCounts(f), HeadSlots(f))
  }

  lemma JoinedCells(f: seq<Fixed>, B: nat, M: nat, N: nat, i: int, j: int, m: int)
    requires 0 <= i < B && 0 <= j < |f| && 0 <= m < M
    ensures Cnt(JoinHeads(f, B, M, N), i, j, m) == CountIn(f[j], i, m)
    ensures forall w :: 0 <= w < N ==> Idx(JoinHeads(f, B, M, N), i, j, m, w) == SlotIn(f[j], i, m, w)
  {
    TabulatedCount(B, |f|, M, N, HeadCounts(f), HeadSlots(f), i, j, m);
    forall w | 0 <= w < N
      ensures Idx(JoinHeads(f, B, M, N), i, j, m, w) == SlotIn(f[j], i, m, w)
    {
      TabulatedSlot(B, |f|, M, N, HeadCounts(f), HeadSlots(f), i, j, m, w);
    }
    hide Tabulate, Cnt, Idx, CountIn, SlotIn;
  }

  function UnpackPacked(cnt: Content, idx: Content, cuRows: Content, cuIdx: Content, rows: seq<nat>, cols: seq<nat>, M: nat, N: nat): (a: Grid)
    requires |cnt.shape| == 2 && |idx.shape| == 2 && |rows| == |cols| && |cuRows.values| == |cuIdx.values| == |rows| + 1
    ensures Shaped(a) && a.batch == |rows| && a.heads == Max(cnt.shape[0], idx.shape[0]) && a.rows == M && a.width == N
  {
    JoinHeads(UnpackHeads(cnt, idx, cuRows, cuIdx, rows, cols, M, N), |rows|, M, N)
  }

  /** The layout of a pair of tensors fits the request. */
  predicate PairFits(cnt: Content, idx: Content, g: Fields, s: Scalars)
    requires Sensible(s) && Validated(g, s)
  {
    if g.cuRows.None? then FixedFits(cnt, idx, s) else PackedFits(cnt, idx, g.cuRows.value, g.cuIdx.value, s)
  }

  function UnpackPair(cnt: Content, idx: Content, g: Fields, s: Scalars): (r: Option<Grid>)
    requires Sensible(s) && Validated(g, s)
    ensures r.Some? <==> PairFits(cnt, idx, g, s)
    ensures r.Some? ==> Shaped(r.value) && r.value.rows == RowBlocks(s)
  {
    if !PairFits(cnt, idx, g, s) then None
    else if g.cuRows.None? then Some(UnpackFixed(cnt, idx, s))
    else Some(UnpackPacked(cnt, idx, g.cuRows.value, g.cuIdx.value, RowSegments(g, s), ColSegments(g, s), RowBlocks(s), ColBlocks(s)))
  }

  /* Partial and full lists. */

  /** Partial and full lists with common axes; without full lists these are empty. */
  function UnpackBoth(g: Fields, s: Scalars): (r: Option<(Grid, Grid)>)
    requires Sensible(s) && Validated(g, s)
    ensures r.Some? <==> PairFits(g.maskCnt, g.maskIdx, g, s) && (g.fullCnt.Some? ==> PairFits(g.fullCnt.value, g.fullIdx.value, g, s))
    ensures r.Some? ==> Shaped(r.value.0) && Shaped(r.value.1) && r.value.0.rows == r.value.1.rows == RowBlocks(s)
    ensures r.Some? ==> r.value.0.batch == r.value.1.batch && r.value.0.heads == r.value.1.heads
  {
    match UnpackPair(g.maskCnt, g.maskIdx, g, s)
    case None => None
    case Some(p) =>
      if g.fullCnt.None? then Some((p, Empty(p)))
      else
        match UnpackPair(g.fullCnt.value, g.fullIdx.value, g, s)
        case None => None
        case Some(f) =>
          var b, h := Max(p.batch, f.batch), Max(p.heads, f.heads);
          Some((Spread(p, b, h), Spread(f, b, h)))
  }

  /** More elements than a 32-bit index reaches. */
  predicate TooBig(numel: int, width: int) { numel * width >= 0x8000_0000 }

  predicate Checked(cpu: bool, g: Fields, s: Scalars) {
    Validated(g, s) && Sensible(s) && BoundaryFits(cpu, g.cuQ, s.batch, s.seqQ) && BoundaryFits(cpu, g.cuK, s.batch, s.seqK)
  }

  /** Exchange rows and columns of the lists of the backward pass. */
  function Turned(a: Grid, s: Scalars): (r: Grid)
    requires Sensible(s) && Shaped(a)
    ensures Shaped(r) && r.batch == a.batch && r.heads == a.heads
    ensures r.rows == (if s.backward then ColBlocks(s) else a.rows)
  {
    if s.backward then Transpose(a, ColBlocks(s)) else a
  }

  function Finished(p: Grid, f: Grid, s: Scalars): (r: Option<(Grid, Grid)>)
    requires Sensible(s) && Shaped(p) && Shaped(f)
    ensures r.Some? ==> Shaped(r.value.0) && Shaped(r.value.1)
  {
    var x, y := Turned(p, s), Turned(f, s);
    var width := Max(Max(1, x.width), y.width);
    if TooBig(x.batch * x.heads * x.rows, width) then None else Some((Padded(x, width), Padded(y, width)))
  }

  /** The normalised partial and full lists, or an error. */
  function Normalised(cpu: bool, g: Fields, s: Scalars): (r: Option<(Grid, Grid)>)
    ensures r.Some? ==> Shaped(r.value.0) && Shaped(r.value.1)
  {
    if !Checked(cpu, g, s) then None
    else
      match UnpackBoth(g, s)
      case None => None
      case Some(x) => Finished(x.0, x.1, s)
  }

  /* Exactly which requests are accepted. */

  function PairBatch(cnt: Content, idx: Content, g: Fields, s: Scalars): nat
    requires Sensible(s) && Validated(g, s) && PairFits(cnt, idx, g, s)
  {
    if g.cuRows.None? then Max(cnt.shape[0], idx.shape[0]) else s.batch
  }

  function PairHeads(cnt: Content, idx: Content, g: Fields, s: Scalars): nat
    requires Sensible(s) && Validated(g, s) && PairFits(cnt, idx, g, s)
  {
    if g.cuRows.None? then Max(cnt.shape[1], idx.shape[1]) else Max(cnt.shape[0], idx.shape[0])
  }

  function PairWidth(cnt: Content, idx: Content, g: Fields, s: Scalars): nat
    requires Sensible(s) && Validated(g, s) && PairFits(cnt, idx, g, s)
  {
    if g.cuRows.None? then idx.shape[3] else ColBlocks(s)
  }

  predicate BothFit(g: Fields, s: Scalars)
    requires Sensible(s) && Validated(g, s)
  {
    PairFits(g.maskCnt, g.maskIdx, g, s) && (g.fullCnt.Some? ==> PairFits(g.fullCnt.value, g.fullIdx.value, g, s))
  }

  /** Axes and width of the result. */
  function OutBatch(g: Fields, s: Scalars): nat
    requires Sensible(s) && Validated(g, s) && BothFit(g, s)
  {
    var p := PairBatch(g.maskCnt, g.maskIdx, g, s);
    if g.fullCnt.None? then p else Max(p, PairBatch(g.fullCnt.value, g.fullIdx.value, g, s))
  }

  function OutHeads(g: Fields, s: Scalars): nat
    requires Sensible(s) && Validated(g, s) && BothFit(g, s)
  {
    var p := PairHeads(g.maskCnt, g.maskIdx, g, s);
    if g.fullCnt.None? then p else Max(p, PairHeads(g.fullCnt.value, g.fullIdx.value, g, s))
  }

  function OutWidth(g: Fields, s: Scalars): nat
    requires Sensible(s) && Validated(g, s) && BothFit(g, s)
  {
    var p := PairWidth(g.maskCnt, g.maskIdx, g, s);
    if s.backward then AtLeast1(RowBlocks(s))
    else Max(Max(1, p), if g.fullCnt.None? then p else PairWidth(g.fullCnt.value, g.fullIdx.value, g, s))
  }

  /** What a caller can check before the call: shapes, lengths and boundaries, but no list. */
  predicate Accepted(cpu: bool, g: Fields, s: Scalars) {
    Checked(cpu, g, s) && BothFit(g, s) && !TooBig(OutBatch(g, s) * OutHeads(g, s) * Blocks(s.seqQ), OutWidth(g, s))
  }

  lemma PairShape(cnt: Content, idx: Content, g: Fields, s: Scalars)
    requires Sensible(s) && Validated(g, s) && PairFits(cnt, idx, g, s)
    ensures var a := UnpackPair(cnt, idx, g, s);
            && a.Some? && a.value.batch == PairBatch(cnt, idx, g, s) && a.value.heads == PairHeads(cnt, idx, g, s)
            && a.value.width == PairWidth(cnt, idx, g, s)
  {
  }

  lemma BothShape(g: Fields, s: Scalars)
    requires Sensible(s) && Validated(g, s) && BothFit(g, s)
    ensures var x := UnpackBoth(g, s);
            && x.Some? && x.value.0.batch == x.value.1.batch == OutBatch(g, s) && x.value.0.heads == x.value.1.heads == OutHeads(g, s)
            && x.value.0.width == PairWidth(g.maskCnt, g.maskIdx, g, s)
            && x.value.1.width == (if g.fullCnt.None? then x.value.0.width else PairWidth(g.fullCnt.value, g.fullIdx.value, g, s))
  {
    PairShape(g.maskCnt, g.maskIdx, g, s);
    if g.fullCnt.Some? { PairShape(g.fullCnt.value, g.fullIdx.value, g, s); }
    hide PairFits, PairBatch, PairHeads, PairWidth, UnpackPair;
  }

  /** Normalisation succeeds exactly for the accepted requests. */
  lemma AcceptedIff(cpu: bool, g: Fields, s: Scalars)
    ensures Normalised(cpu, g, s).Some? <==> Accepted(cpu, g, s)
  {
    if Checked(cpu, g, s) && BothFit(g, s) {
      BothShape(g, s);
      hide PairFits, PairBatch, PairHeads, PairWidth, UnpackBoth, OutBatch, OutHeads, BoundaryFits, Validated;
    }
  }

  /* The lists of the result. */

  /** Row m of x is that of the pair p, its axes of length 1 expanded. */
  ghost predicate SameAsPair(x: Grid, p: Grid, i: int, j: int, m: int) {
    && Cnt(x, i, j, m) == Cnt(p, Bc(i, p.batch), Bc(j, p.heads), m)
    && Live(x, i, j, m) == Live(p, Bc(i, p.batch), Bc(j, p.heads), m)
  }

  lemma BothLists(g: Fields, s: Scalars, i: int, j: int, m: int)
    requires Sensible(s) && Validated(g, s) && UnpackBoth(g, s).Some? && InGrid(UnpackBoth(g, s).value.0, i, j, m)
    ensures UnpackPair(g.maskCnt, g.maskIdx, g, s).Some?
    ensures g.fullCnt.Some? ==> UnpackPair(g.fullCnt.value, g.fullIdx.value, g, s).Some?
    ensures var x := UnpackBoth(g, s).value;
            && SameAsPair(x.0, UnpackPair(g.maskCnt, g.maskIdx, g, s).value, i, j, m)
            && x.0.width == UnpackPair(g.maskCnt, g.maskIdx, g, s).value.width
            && (g.fullCnt.Some? ==>
                  var f := UnpackPair(g.fullCnt.value, g.fullIdx.value, g, s).value; SameAsPair(x.1, f, i, j, m) && x.1.width == f.width)
            && (g.fullCnt.None? ==> Cnt(x.1, i, j, m) == 0 && Live(x.1, i, j, m) == [])
  {
    var p := UnpackPair(g.maskCnt, g.maskIdx, g, s).value;
    if g.fullCnt.None? {
      EmptyList(p, i, j, m);
    } else {
      var f := UnpackPair(g.fullCnt.value, g.fullIdx.value, g, s).value;
      SpreadList(p, Max(p.batch, f.batch), Max(p.heads, f.heads), i, j, m);
      SpreadList(f, Max(p.batch, f.batch), Max(p.heads, f.heads), i, j, m);
    }
    hide UnpackPair, PairFits, Validated, Spread, Empty, Live, Cnt;
  }

  lemma NormalisedParts(cpu: bool, g: Fields, s: Scalars)
    requires Normalised(cpu, g, s).Some?
    ensures Sensible(s) && Validated(g, s) && UnpackBoth(g, s).Some?
    ensures var x := UnpackBoth(g, s).value;
            && Shaped(x.0) && Shaped(x.1) && x.0.batch == x.1.batch && x.0.heads == x.1.heads && x.0.rows == x.1.rows == RowBlocks(s)
            && Normalised(cpu, g, s) == Finished(x.0, x.1, s)
  {
    hide UnpackBoth, Finished, Validated, BoundaryFits;
  }

  /** Row m of x is that of the pair p, if its count is within the slots. */
  ghost predicate KeepsPair(x: Grid, p: Grid, i: int, j: int, m: int) {
    && Cnt(x, i, j, m) == Cnt(p, Bc(i, p.batch), Bc(j, p.heads), m)
    && (Cnt(x, i, j, m) <= p.width ==> SameAsPair(x, p, i, j, m))
  }

  /** Forward, every list is the one that was given; missing full lists are empty. */
  lemma ForwardList(cpu: bool, g: Fields, s: Scalars, i: int, j: int, m: int)
    requires Normalised(cpu, g, s).Some? && !s.backward && InGrid(Normalised(cpu, g, s).value.0, i, j, m)
    ensures Sensible(s) && Validated(g, s) && UnpackPair(g.maskCnt, g.maskIdx, g, s).Some?
    ensures g.fullCnt.Some? ==> UnpackPair(g.fullCnt.value, g.fullIdx.value, g, s).Some?
    ensures var x := Normalised(cpu, g, s).value;
            && KeepsPair(x.0, UnpackPair(g.maskCnt, g.maskIdx, g, s).value, i, j, m)
            && (g.fullCnt.Some? ==> KeepsPair(x.1, UnpackPair(g.fullCnt.value, g.fullIdx.value, g, s).value, i, j, m))
            && (g.fullCnt.None? ==> Live(x.1, i, j, m) == [])
  {
    NormalisedParts(cpu, g, s);
    var x := UnpackBoth(g, s).value;
    var width := Max(Max(1, x.0.width), x.1.width);
    assert Normalised(cpu, g, s) == Some((Padded(x.0, width), Padded(x.1, width)));
    BothLists(g, s, i, j, m);
    hide UnpackBoth, UnpackPair, Padded, Live, Normalised;
    WidenedList(x.0, width, i, j, m);
    WidenedList(x.1, width, i, j, m);
  }

  lemma WidenedList(a: Grid, width: nat, i: int, j: int, m: int)
    requires InGrid(a, i, j, m) && a.width <= width
    ensures Cnt(Padded(a, width), i, j, m) == Cnt(a, i, j, m)
    ensures Cnt(a, i, j, m) <= a.width ==> Live(Padded(a, width), i, j, m) == Live(a, i, j, m)
  {
    PaddedCells(a, width, i, j, m);
    if Cnt(a, i, j, m) <= a.width { PaddedList(a, width, i, j, m); }
  }

  /** The list ascends and holds exactly the rows whose own list in the pair p holds c. */
  ghost predicate NamesRows(list: seq<int>, p: Grid, i: int, j: int, c: int) {
    && Ascending(list) && InRange(list, p.rows)
    && forall m :: 0 <= m < p.rows ==> (m in list <==> c in Live(p, Bc(i, p.batch), Bc(j, p.heads), m))
  }

  lemma NamingPair(x: Grid, p: Grid, i: int, j: int, c: int)
    requires x.rows == p.rows && forall m :: 0 <= m < p.rows ==> SameAsPair(x, p, i, j, m)
    ensures NamesRows(Naming(x, i, j, c, x.rows), p, i, j, c)
  {
    hide Live, Cnt;
    forall m | 0 <= m < p.rows
      ensures m in Naming(x, i, j, c, x.rows) <==> c in Live(p, Bc(i, p.batch), Bc(j, p.heads), m)
    {
      assert SameAsPair(x, p, i, j, m);
    }
  }

  /** Backward, the lists of the given key blocks are exchanged: query block c gets the key blocks
      whose list names it. */
  lemma BackwardList(cpu: bool, g: Fields, s: Scalars, i: int, j: int, c: int)
    requires Normalised(cpu, g, s).Some? && s.backward && InGrid(Normalised(cpu, g, s).value.0, i, j, c)
    ensures Sensible(s) && Validated(g, s) && UnpackPair(g.maskCnt, g.maskIdx, g, s).Some?
    ensures g.fullCnt.Some? ==> UnpackPair(g.fullCnt.value, g.fullIdx.value, g, s).Some?
    ensures var x := Normalised(cpu, g, s).value;
            && NamesRows(Live(x.0, i, j, c), UnpackPair(g.maskCnt, g.maskIdx, g, s).value, i, j, c)
            && (g.fullCnt.Some? ==> NamesRows(Live(x.1, i, j, c), UnpackPair(g.fullCnt.value, g.fullIdx.value, g, s).value, i, j, c))
            && (g.fullCnt.None? ==> Live(x.1, i, j, c) == [])
  {
    NormalisedParts(cpu, g, s);
    var x, N := UnpackBoth(g, s).value, ColBlocks(s);
    var t, u := Transpose(x.0, N), Transpose(x.1, N);
    var width := Max(Max(1, t.width), u.width);
    assert Normalised(cpu, g, s) == Some((Padded(t, width), Padded(u, width)));
    TransposedList(x.0, N, i, j, c);
    TransposedList(x.1, N, i, j, c);
    hide UnpackBoth, UnpackPair, Padded, Live, Normalised, Transpose, Naming, Cnt;
    forall m | 0 <= m < x.0.rows
      ensures SameAsPair(x.0, UnpackPair(g.maskCnt, g.maskIdx, g, s).value, i, j, m)
      ensures g.fullCnt.Some? ==> SameAsPair(x.1, UnpackPair(g.fullCnt.value, g.fullIdx.value, g, s).value, i, j, m)
      ensures g.fullCnt.None? ==> Live(x.1, i, j, m) == []
    {
      BothLists(g, s, i, j, m);
    }
    WidenedList(t, width, i, j, c);
    WidenedList(u, width, i, j, c);
    NamingPair(x.0, UnpackPair(g.maskCnt, g.maskIdx, g, s).value, i, j, c);
    if g.fullCnt.Some? {
      NamingPair(x.1, UnpackPair(g.fullCnt.value, g.fullIdx.value, g, s).value, i, j, c);
    } else {
      NamingNone(x.1, i, j, c, x.1.rows);
    }
  }

  lemma {:induction false} NamingNone(a: Grid, i: int, j: int, c: int, n: nat)
    requires forall m :: 0 <= m < n ==> Live(a, i, j, m) == []
    ensures Naming(a, i, j, c, n) == []
    decreases n
  {
    hide Live;
    if n > 0 { NamingNone(a, i, j, c, n - 1); }
  }
}
