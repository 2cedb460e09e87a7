/** The two operations on sparse metadata as they are carried out: tables are exchanged by sorting
    their edges, and packed segment by segment. */
module SparseOperations {
  import opened Arith
  import opened Wrappers
  import opened SparseLists
  import opened SparseGrid
  import opened SparseGridTranspose
  import opened SparsePacked
  import opened SparseRequest
  import opened SparseExchange

  /** The caller's promise about lists: counts fit the slots, and every list names distinct columns. */
  ghost predicate ListsValid(g: Fields, s: Scalars) {
    Sensible(s) && Validated(g, s) && BothFit(g, s) ==>
      ValidGrid(UnpackBoth(g, s).value.0, ColBlocks(s)) && ValidGrid(UnpackBoth(g, s).value.1, ColBlocks(s))
  }

  /** `_canonical`. */
  method Normalise(cpu: bool, g: Fields, s: Scalars) returns (r: Option<(Grid, Grid)>)
    requires s.backward ==> ListsValid(g, s)
    ensures r == Normalised(cpu, g, s)
  {
    if !Checked(cpu, g, s) { return None; }
    var x := UnpackBoth(g, s);
    if x.None? { return None; }
    assert s.backward ==> ValidGrid(x.value.0, ColBlocks(s)) && ValidGrid(x.value.1, ColBlocks(s));
    var p, f := x.value.0, x.value.1;
    hide ListsValid, ValidGrid, UnpackBoth, BoundaryFits, Validated, Transpose, Padded;
    if s.backward {
      assert ColBlocks(s) > 0;
      p := TransposeGrid(p, ColBlocks(s));
      f := TransposeGrid(f, ColBlocks(s));
    }
    var width := Max(Max(1, p.width), f.width);
    if TooBig(p.batch * p.heads * p.rows, width) { return None; }
    r := Some((Padded(p, width), Padded(f, width)));
  }

  /* Packing all heads. */

  /** The first lines of a stack. */
  ghost predicate StartsWith(values: seq<int>, n: nat, line: Lines, h: nat) {
    h * n >= 0 && |values| == h * n && forall j, x :: 0 <= j < h && 0 <= x < n ==> HasLine(values, n, line, j, x)
  }

  ghost predicate HasLine(values: seq<int>, n: nat, line: Lines, j: int, x: int) {
    At(values, j * n + x) == At(line(j), x)
  }

  lemma NextLine(values: seq<int>, n: nat, line: Lines, h: nat)
    requires StartsWith(values, n, line, h) && |line(h)| == n
    ensures StartsWith(values + line(h), n, line, h + 1)
  {
    var all := values + line(h);
    NextMultiple(h, n);
    forall j, x | 0 <= j < h + 1 && 0 <= x < n
      ensures HasLine(all, n, line, j, x)
    {
      if j < h {
        RowFits(h, n, j);
        assert HasLine(values, n, line, j, x);
      }
    }
  }

  lemma StackIs(values: seq<int>, n: nat, line: Lines, h: nat)
    requires StartsWith(values, n, line, h)
    ensures Stack(h, n, line).values == values
  {
    Volumes(h, n, 0, 0);
    var c := Stack(h, n, line);
    forall e | 0 <= e < h * n
      ensures c.values[e] == values[e]
    {
      SlotParts(e, h, n);
      assert HasLine(values, n, line, e / n, e % n);
    }
    hide Volume;
  }

  method PackHeads(a: Grid, rows: seq<nat>, cols: seq<nat>) returns (cnt: Content, idx: Content)
    requires Counted(a, rows, cols)
    ensures cnt == PackedCounts(a, rows, cols) && idx == PackedIndices(a, rows, cols)
  {
    var counts: seq<int>, slots: seq<int> := [], [];
    var n, k := SumTo(rows, |rows|), AreaTo(rows, cols, |rows|);
    hide SumTo, AreaTo;
    for j := 0 to a.heads
      invariant StartsWith(counts, n, CountLines(a, rows, cols), j)
      invariant StartsWith(slots, k, IndexLines(a, rows, cols), j)
    {
      var p := Pack(HeadRows(a, j), rows, cols, a.rows, a.width);
      assert p == HeadPacked(a, j, rows, cols) by { hide HeadRows; }
      hide StartsWith, HeadRows, HeadPacked;
      NextLine(counts, n, CountLines(a, rows, cols), j);
      NextLine(slots, k, IndexLines(a, rows, cols), j);
      counts, slots := counts + p.cnt, slots + p.idx;
    }
    StackIs(counts, n, CountLines(a, rows, cols), a.heads);
    StackIs(slots, k, IndexLines(a, rows, cols), a.heads);
    Volumes(a.heads, n, 0, 0);
    Volumes(a.heads, k, 0, 0);
    cnt, idx := Data([a.heads, n], counts), Data([a.heads, k], slots);
    hide StartsWith, HeadRows, HeadPacked, Stack, Volume;
    SameData(cnt, PackedCounts(a, rows, cols));
    SameData(idx, PackedIndices(a, rows, cols));
  }

  lemma SameData(a: Data, b: Data)
    ensures a == b <==> a.shape == b.shape && a.values == b.values
  {
  }

  /** `transpose_block_sparsity`. */
  method TransposeBlockSparsity(cpu: bool, g: Fields, s: Scalars) returns (r: Option<Fields>)
    requires !s.backward && Promised(g, s)
    requires Normalised(cpu, g, s).Some? ==>
               var x := Normalised(cpu, g, s).value; Sensible(s) && ValidGrid(x.0, Blocks(s.seqK)) && ValidGrid(x.1, Blocks(s.seqK))
    ensures r == Transposition(cpu, g, s)
  {
    var x := Normalise(cpu, g, s);
    if x.None? { return None; }
    ForwardShape(cpu, g, s);
    hide Normalised, ValidGrid;
    assert Blocks(s.seqK) > 0;
    hide Blocks, Transpose;
    var p := TransposeGrid(x.value.0, Blocks(s.seqK));
    var f := TransposeGrid(x.value.1, Blocks(s.seqK));
    if g.cuK.None? { return Some(FixedResult(p, f, g)); }
    hide Spread, PackedCounts, PackedIndices, Sums, Areas, Narrow, Segments, Promised, SumTo, AreaTo;
    var rows, cols := KeySegments(g, s), QuerySegments(g, s);
    SegmentsBelow(g.cuK, s.batch, s.seqK);
    r := ExportTables(Spread(p, s.batch, p.heads), Spread(f, s.batch, f.heads), rows, cols, g);
  }

  /** `_packed_export`, for the tables of all heads. */
  method ExportTables(a: Grid, b: Grid, rows: seq<nat>, cols: seq<nat>, g: Fields) returns (r: Option<Fields>)
    requires Counted(a, rows, cols) && Counted(b, rows, cols)
    ensures r == if Narrow(rows, cols) then Some(PackedResult(a, b, rows, cols, g)) else None
  {
    var offsetsR, offsetsI := Offsets(rows, cols);
    if offsetsR[|rows|] >= 0x8000_0000 || offsetsI[|rows|] >= 0x8000_0000 { return None; }
    assert Narrow(rows, cols);
    assert offsetsR == Sums(rows) && offsetsI == Areas(rows, cols);
    hide Sums, Areas, Narrow, SumTo, AreaTo, PackedCounts, PackedIndices;
    var cnt, idx := PackHeads(a, rows, cols);
    var fullCnt, fullIdx := PackHeads(b, rows, cols);
    r := Some(Fields(cnt, idx, Some(fullCnt), Some(fullIdx), Some(Line(offsetsR)), Some(Line(offsetsI)), g.cuQ, g.cuK));
  }
}
