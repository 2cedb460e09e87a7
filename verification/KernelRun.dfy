/** The attention kernel up to the scratch buffers: every core walks its range and leaves the
    partial result of each of its split tiles in the tile's slot. What the kernel computes for a
    row over a stretch of KV blocks is a parameter; where it puts the result is modelled. */
module KernelRun {
  import opened Arith
  import opened Cover
  import opened SplitParams
  import opened Tiles
  import opened SplitSegments
  import opened SplitRecords
  import opened ScratchLayout
  import opened KernelWalk
  import opened SplitKeys
  import opened CombineMath
  import opened CombineRows

  /** Log-sum-exp and output row of flat row `row` of tile (b, n1, s1) over the KV blocks
      lo, ..., hi - 1. */
  datatype Stretch = Stretch(b: int, n1: int, s1: int, lo: int, hi: int, row: int)
  type Partial = Stretch -> (LogSum, Row)

  /** The part of a tile that belongs to segment e, for one row. */
  ghost function PartOf(ctx: Context, cores: seq<CoreNode>, e: Seg, row: int): Stretch
    requires ctx.Valid() && 0 <= e.core < |cores| && 0 <= e.b < ctx.batchSize
  {
    Stretch(e.b, e.n1, e.s1, FirstBlock(cores, e), LimitBlock(ShapeOf(ctx), cores, e), row)
  }

  /** The slot of segment i holds the partial results of the segment. */
  ghost predicate SlotFilled(ctx: Context, cores: seq<CoreNode>, segs: seq<Seg>, partial: Partial, i: int, lse: seq<LogSum>, out: seq<Row>)
    requires ctx.Valid() && InBatches(ctx, segs) && 0 <= i < |segs|
  {
    && 0 <= segs[i].core < |cores| && |lse| == |out|
    && forall a :: 0 <= a < TileSize(ctx, segs[i].b, segs[i].n1, segs[i].s1) ==> RowFilled(ctx, cores, segs, partial, i, a, lse, out)
  }

  ghost predicate RowFilled(ctx: Context, cores: seq<CoreNode>, segs: seq<Seg>, partial: Partial, i: int, a: int, lse: seq<LogSum>, out: seq<Row>)
    requires ctx.Valid() && InBatches(ctx, segs) && 0 <= i < |segs| && 0 <= segs[i].core < |cores| && |lse| == |out|
  {
    var y := SlotStart(ctx, segs, i) + a;
    0 <= y < |lse| && (lse[y], out[y]) == partial(PartOf(ctx, cores, segs[i], a))
  }

  /** The slots of the first n segments are filled. */
  ghost predicate Filled(ctx: Context, cores: seq<CoreNode>, segs: seq<Seg>, partial: Partial, n: int, lse: seq<LogSum>, out: seq<Row>)
    requires ctx.Valid() && InBatches(ctx, segs) && 0 <= n <= |segs|
  {
    forall i :: 0 <= i < n ==> SlotFilled(ctx, cores, segs, partial, i, lse, out)
  }

  /** The KV blocks of a tile that a core walks. */
  function LastBlock(ctx: Context, core: CoreNode, b: int, n1: int, s1: int): int
    requires ctx.Valid() && 0 <= b < ctx.batchSize
  {
    if b == core.endB && n1 == core.endN1 && s1 == core.endS1 then core.endS2 else KernelKeyBlocks(ctx, b)
  }

  /** Rows from `at` on hold the partial results of a stretch of blocks of a tile. */
  ghost predicate Replaced(partial: Partial, x: Stretch, at: int, rows: int,
                           lse: seq<LogSum>, lse': seq<LogSum>, out: seq<Row>, out': seq<Row>) {
    && |lse| == |lse'| == |out| == |out'|
    && forall y :: 0 <= y < |lse| ==>
         (lse'[y], out'[y]) == if at <= y < at + rows then partial(x.(row := y - at)) else (lse[y], out[y])
  }

  lemma RowOffset(at: int, a: int, h: int)
    requires 0 <= at && 0 <= a && h >= 1
    ensures (at * h + a * h) / h == at + a
  {
    AddMultiples(at, a, h);
    DivideBetween((at + a) * h, h, at + a);
  }

  /** Write the partial results of one split tile. */
  method WritePartials(ctx: Context, core: CoreNode, w: Write, partial: Partial, lse: array<LogSum>, out: array<Row>, rows: int, lo: int, hi: int)
    requires ctx.Valid() && ctx.headSizeV >= 1 && 0 <= w.lse && w.o == w.lse * ctx.headSizeV && 0 <= rows
    requires w.lse + rows <= lse.Length == out.Length
    modifies lse, out
    ensures Replaced(partial, Stretch(w.b, w.n1, w.s1, lo, hi, 0), w.lse, rows, old(lse[..]), lse[..], old(out[..]), out[..])
  {
    ghost var lse0, out0 := lse[..], out[..];
    for a := 0 to rows
      invariant forall y :: 0 <= y < lse.Length ==>
        (lse[y], out[y]) == if w.lse <= y < w.lse + a then partial(Stretch(w.b, w.n1, w.s1, lo, hi, y - w.lse)) else (lse0[y], out0[y])
    {
      RowOffset(w.lse, a, ctx.headSizeV);
      var r := partial(Stretch(w.b, w.n1, w.s1, lo, hi, a));
      lse[w.lse + a] := r.0;
      out[(w.o + a * ctx.headSizeV) / ctx.headSizeV] := r.1;
    }
  }

  /** Filling the next slot leaves the earlier ones alone. */
  lemma FilledNext(ctx: Context, cores: seq<CoreNode>, segs: seq<Seg>, partial: Partial, n: int, x: Stretch, rows: int,
                   lse: seq<LogSum>, lse': seq<LogSum>, out: seq<Row>, out': seq<Row>)
    requires ctx.Valid() && InBatches(ctx, segs) && TilesIn(ctx, segs) && 0 <= n < |segs|
    requires Filled(ctx, cores, segs, partial, n, lse, out) && SizeOf(ctx, segs) <= |lse| == |out|
    requires 0 <= segs[n].core < |cores| && x == PartOf(ctx, cores, segs[n], 0)
    requires rows == TileSize(ctx, segs[n].b, segs[n].n1, segs[n].s1)
    requires Replaced(partial, x, SlotStart(ctx, segs, n), rows, lse, lse', out, out')
    ensures Filled(ctx, cores, segs, partial, n + 1, lse', out')
  {
    hide SizeOf, SlotStart, TileSize, PartOf, Replaced, RowFilled;
    forall i | 0 <= i < n + 1
      ensures SlotFilled(ctx, cores, segs, partial, i, lse', out')
    {
      if i < n {
        assert SlotFilled(ctx, cores, segs, partial, i, lse, out);
        SlotKept(ctx, cores, segs, partial, n, i, x, rows, lse, lse', out, out');
      } else {
        SlotWritten(ctx, cores, segs, partial, n, x, rows, lse, lse', out, out');
      }
    }
  }

  lemma SlotKept(ctx: Context, cores: seq<CoreNode>, segs: seq<Seg>, partial: Partial, n: int, i: int, x: Stretch, rows: int,
                 lse: seq<LogSum>, lse': seq<LogSum>, out: seq<Row>, out': seq<Row>)
    requires ctx.Valid() && InBatches(ctx, segs) && TilesIn(ctx, segs) && 0 <= i < n < |segs|
    requires SlotFilled(ctx, cores, segs, partial, i, lse, out)
    requires Replaced(partial, x, SlotStart(ctx, segs, n), rows, lse, lse', out, out')
    ensures SlotFilled(ctx, cores, segs, partial, i, lse', out')
  {
    SlotsAscend(ctx, segs, i + 1, n);
    SlotStep(ctx, segs, i);
    hide SizeOf, SlotStart, TileSize, PartOf, TilesIn, InBatches;
    forall a | 0 <= a < TileSize(ctx, segs[i].b, segs[i].n1, segs[i].s1)
      ensures RowFilled(ctx, cores, segs, partial, i, a, lse', out')
    {
      assert RowFilled(ctx, cores, segs, partial, i, a, lse, out);
    }
  }

  lemma {:induction false} SlotWritten(ctx: Context, cores: seq<CoreNode>, segs: seq<Seg>, partial: Partial, n: int, x: Stretch, rows: int,
                    lse: seq<LogSum>, lse': seq<LogSum>, out: seq<Row>, out': seq<Row>)
    requires ctx.Valid() && InBatches(ctx, segs) && TilesIn(ctx, segs) && 0 <= n < |segs| && SizeOf(ctx, segs) <= |lse|
    requires 0 <= segs[n].core < |cores| && x == PartOf(ctx, cores, segs[n], 0)
    requires rows == TileSize(ctx, segs[n].b, segs[n].n1, segs[n].s1)
    requires Replaced(partial, x, SlotStart(ctx, segs, n), rows, lse, lse', out, out')
    ensures SlotFilled(ctx, cores, segs, partial, n, lse', out')
  {
    SlotEnds(ctx, segs, n);
    hide SizeOf, SlotStart, TileSize, TilesIn, InBatches, FirstBlock, LimitBlock, ShapeOf;
  }

  lemma SlotEnds(ctx: Context, segs: seq<Seg>, n: int)
    requires ctx.Valid() && InBatches(ctx, segs) && TilesIn(ctx, segs) && 0 <= n < |segs|
    ensures 0 <= SlotStart(ctx, segs, n)
    ensures SlotStart(ctx, segs, n) + TileSize(ctx, segs[n].b, segs[n].n1, segs[n].s1) <= SizeOf(ctx, segs)
  {
    SlotStep(ctx, segs, n);
    SlotsAscend(ctx, segs, n + 1, |segs|);
    SlotsAscend(ctx, segs, 0, n);
    assert segs[..|segs|] == segs && segs[..0] == [];
  }

  /* The cores. */

  /** What a core is given: its row of the table, with the scratch offsets noted there. */
  ghost predicate Given(ctx: Context, cores: seq<CoreNode>, segs: seq<Seg>)
    requires ctx.Valid()
  {
    && SoundTable(ShapeOf(ctx), cores) && AllSegs(ShapeOf(ctx), cores, segs) && InBatches(ctx, segs) && TilesIn(ctx, segs)
    && forall c :: 0 <= c < |cores| ==> NotedFirst(ctx, cores[c], segs, c)
  }

  ghost predicate NotedFirst(ctx: Context, core: CoreNode, segs: seq<Seg>, c: int)
    requires ctx.Valid() && InBatches(ctx, segs)
  {
    core.firstLse == FirstOffset(ctx, segs, c) && core.firstO == FirstOffset(ctx, segs, c) * ctx.headSizeV
  }

  lemma GivenParts(ctx: Context, cores: seq<CoreNode>, segs: seq<Seg>, c: int)
    requires ctx.Valid() && Given(ctx, cores, segs) && 0 <= c < |cores|
    ensures SoundTable(ShapeOf(ctx), cores) && AllSegs(ShapeOf(ctx), cores, segs) && InBatches(ctx, segs) && TilesIn(ctx, segs)
    ensures cores[c].firstLse == FirstOffset(ctx, segs, c) && cores[c].firstO == FirstOffset(ctx, segs, c) * ctx.headSizeV
  {
    assert NotedFirst(ctx, cores[c], segs, c);
    hide SoundTable, AllSegs, InBatches, TilesIn, FirstOffset;
  }

  /** The first n segments are those of the cores before c. */
  ghost predicate UpTo(segs: seq<Seg>, c: int, n: nat) {
    n <= |segs| && forall i :: 0 <= i < |segs| ==> (i < n <==> Earlier(segs, c, i))
  }

  predicate Earlier(segs: seq<Seg>, c: int, i: int) { 0 <= i < |segs| && segs[i].core < c }

  lemma CoresAscend(segs: seq<Seg>)
    requires Sorted(segs)
    ensures forall i, j :: 0 <= i <= j < |segs| ==> segs[i].core <= segs[j].core
  {
    forall i, j | 0 <= i <= j < |segs|
      ensures segs[i].core <= segs[j].core
    {
      assert i < j ==> SegLess(segs[i], segs[j]);
    }
  }

  /** The segments of a core start where those of the earlier cores end. */
  lemma CoreRange(segs: seq<Seg>, c: int, done: nat, lo: nat, n: nat)
    requires Sorted(segs) && UpTo(segs, c, done) && lo + n <= |segs|
    requires forall i :: 0 <= i < |segs| ==> (segs[i].core == c <==> lo <= i < lo + n)
    ensures n > 0 ==> lo == done
    ensures UpTo(segs, c + 1, done + n)
  {
    CoresAscend(segs);
    assert n > 0 ==> segs[lo].core == c;
    assert n > 0 ==> !Earlier(segs, c, lo) && !Earlier(segs, c, done);
    assert n > 0 ==> segs[done].core == c;
    assert n > 0 ==> lo == done;
    var d := c + 1;
    forall i | 0 <= i < |segs|
      ensures i < done + n <==> Earlier(segs, d, i)
    {
      assert segs[i].core == c <==> lo <= i < lo + n;
      assert i < done <==> Earlier(segs, c, i);
    }
  }

  /** The stretch of a segment, as the kernel's loops compute it. */
  lemma SegmentStretch(ctx: Context, cores: seq<CoreNode>, segs: seq<Seg>, i: int)
    requires ctx.Valid() && InBatches(ctx, segs) && TilesIn(ctx, segs) && 0 <= i < |segs| && 0 <= segs[i].core < |cores|
    ensures var e := segs[i]; var core := cores[e.core]; var p := GetBatchParams(ctx, e.b);
            && PartOf(ctx, cores, e, 0) == Stretch(e.b, e.n1, e.s1, FirstS2(core, e.b, e.n1, e.s1), LastBlock(ctx, core, e.b, e.n1, e.s1), 0)
            && p.qNBlockNumPerGroup >= 1 && KernelRows(ctx, p, e.n1, e.s1) == TileSize(ctx, e.b, e.n1, e.s1)
  {
    var e := segs[i];
    assert TileIn(ShapeOf(ctx), e.b, e.n1, e.s1);
    assert ShapeOf(ctx).s2[e.b] == GetBatchParams(ctx, e.b).curKSBlockNum;
    KernelBlocksAgree(ctx, e.b);
    hide TileIn, TilesIn, TileSize, KernelRows, GetBatchParams, KernelKeyBlocks;
    KernelRowsAgree(ctx, e.b, e.n1, e.s1);
  }

  /** Leave the partial results of one segment in its slot. */
  method RunSegment(ctx: Context, core: CoreNode, w: Write, partial: Partial, lse: array<LogSum>, out: array<Row>,
                    ghost cores: seq<CoreNode>, ghost segs: seq<Seg>, ghost i: int)
    requires ctx.Valid() && ctx.headSizeV >= 1 && InBatches(ctx, segs) && TilesIn(ctx, segs) && 0 <= i < |segs|
    requires 0 <= segs[i].core < |cores| && core == cores[segs[i].core] && SlotWrite(ctx, segs, i, w)
    requires SizeOf(ctx, segs) <= lse.Length == out.Length
    requires Filled(ctx, cores, segs, partial, i, lse[..], out[..])
    modifies lse, out
    ensures Filled(ctx, cores, segs, partial, i + 1, lse[..], out[..])
  {
    SegmentStretch(ctx, cores, segs, i);
    SlotEnds(ctx, segs, i);
    hide SizeOf, SlotStart, TileSize, PartOf, Filled, TilesIn, KernelRows, GetBatchParams, LastBlock, FirstS2, Replaced;
    SlotWriteIs(ctx, segs, i, w);
    var p := GetBatchParams(ctx, w.b);
    var rows := KernelRows(ctx, p, w.n1, w.s1);
    var lo, hi := FirstS2(core, w.b, w.n1, w.s1), LastBlock(ctx, core, w.b, w.n1, w.s1);
    RowsNatural(ctx, segs, i);
    ghost var lse0, out0 := lse[..], out[..];
    WritePartials(ctx, core, w, partial, lse, out, rows, lo, hi);
    FilledNext(ctx, cores, segs, partial, i, Stretch(w.b, w.n1, w.s1, lo, hi, 0), rows, lse0, lse[..], out0, out[..]);
  }

  lemma SlotWriteIs(ctx: Context, segs: seq<Seg>, i: int, w: Write)
    requires ctx.Valid() && InBatches(ctx, segs) && 0 <= i < |segs| && SlotWrite(ctx, segs, i, w)
    ensures 0 <= w.b < ctx.batchSize && w.b == segs[i].b && w.n1 == segs[i].n1 && w.s1 == segs[i].s1
    ensures w.lse == SlotStart(ctx, segs, i) && w.o == w.lse * ctx.headSizeV
  {
    hide SlotStart;
  }

  lemma RowsNatural(ctx: Context, segs: seq<Seg>, i: int)
    requires ctx.Valid() && InBatches(ctx, segs) && TilesIn(ctx, segs) && 0 <= i < |segs|
    ensures TileSize(ctx, segs[i].b, segs[i].n1, segs[i].s1) >= 1
  {
    assert TileIn(ShapeOf(ctx), segs[i].b, segs[i].n1, segs[i].s1);
    TileShape(ctx, segs[i].b, segs[i].n1, segs[i].s1);
  }

  /** One core: walk the range, and leave every split tile's partial results in its slot. */
  method RunCore(ctx: Context, c: int, core: CoreNode, partial: Partial, lse: array<LogSum>, out: array<Row>,
                 ghost cores: seq<CoreNode>, ghost segs: seq<Seg>, ghost done: nat) returns (ghost next: nat)
    requires ctx.Valid() && ctx.headSizeV >= 1 && 0 <= c < |cores| && core == cores[c] && Given(ctx, cores, segs)
    requires InBatches(ctx, segs) && SizeOf(ctx, segs) <= lse.Length == out.Length
    requires UpTo(segs, c, done) && done <= |segs|
    requires Filled(ctx, cores, segs, partial, done, lse[..], out[..])
    modifies lse, out
    ensures next <= |segs| && UpTo(segs, c + 1, next)
    ensures Filled(ctx, cores, segs, partial, next, lse[..], out[..])
  {
    GivenParts(ctx, cores, segs, c);
    SortedList(ctx, cores, segs);
    hide *;
    var writes;
    ghost var lo;
    writes, lo := Walk(ctx, c, core, cores, segs);
    CoreRange(segs, c, done, lo, |writes|);
    next := done + |writes|;
    for k := 0 to |writes|
      invariant Filled(ctx, cores, segs, partial, done + k, lse[..], out[..])
    {
      assert segs[lo + k].core == c;
      RunSegment(ctx, core, writes[k], partial, lse, out, cores, segs, lo + k);
    }
  }

  /** All cores: every slot holds the partial results of its segment. */
  method RunKernel(ctx: Context, table: seq<CoreNode>, partial: Partial, lse: array<LogSum>, out: array<Row>, ghost segs: seq<Seg>)
    requires ctx.Valid() && ctx.headSizeV >= 1 && Given(ctx, table, segs)
    requires InBatches(ctx, segs) && SizeOf(ctx, segs) <= lse.Length == out.Length
    modifies lse, out
    ensures Filled(ctx, table, segs, partial, |segs|, lse[..], out[..])
  {
    hide *;
    ghost var done: nat := NoneUpTo(ctx, table, segs);
    NothingFilled(ctx, table, segs, partial, lse[..], out[..]);
    for c := 0 to |table|
      invariant done <= |segs| && UpTo(segs, c, done)
      invariant Filled(ctx, table, segs, partial, done, lse[..], out[..])
    {
      done := RunCore(ctx, c, table[c], partial, lse, out, table, segs, done);
    }
    AllUpTo(ctx, table, segs, done);
  }

  lemma SegmentCores(ctx: Context, cores: seq<CoreNode>, segs: seq<Seg>)
    requires ctx.Valid() && Given(ctx, cores, segs)
    ensures forall i :: 0 <= i < |segs| ==> 0 <= segs[i].core < |cores|
  {
    forall i | 0 <= i < |segs|
      ensures 0 <= segs[i].core < |cores|
    {
      assert IsSplit(ShapeOf(ctx), cores, segs[i]);
    }
  }

  lemma NoneUpTo(ctx: Context, cores: seq<CoreNode>, segs: seq<Seg>) returns (n: nat)
    requires ctx.Valid() && Given(ctx, cores, segs)
    ensures UpTo(segs, 0, n) && n == 0
  {
    n := 0;
    SegmentCores(ctx, cores, segs);
    hide Given;
  }

  lemma AllUpTo(ctx: Context, cores: seq<CoreNode>, segs: seq<Seg>, n: nat)
    requires ctx.Valid() && Given(ctx, cores, segs) && UpTo(segs, |cores|, n)
    ensures n == |segs|
  {
    SegmentCores(ctx, cores, segs);
    hide Given;
    assert n == |segs| || Earlier(segs, |cores|, n);
  }

  lemma NothingFilled(ctx: Context, cores: seq<CoreNode>, segs: seq<Seg>, partial: Partial, lse: seq<LogSum>, out: seq<Row>)
    requires ctx.Valid() && InBatches(ctx, segs)
    ensures Filled(ctx, cores, segs, partial, 0, lse, out)
  {
  }
}
