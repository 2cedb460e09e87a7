/** `transpose_block_sparsity`: the lists of a request with rows and columns exchanged, in the fixed
    layout or, if the new rows have boundaries, in the packed one. */
module SparseExchange {
  import opened Arith
  import opened Wrappers
  import opened SparseLists
  import opened SparseGrid
  import opened SparsePacked
  import opened SparseRequest

  /* Packing a table, head by head. */

  /** The fixed layout of head j. */
  function HeadRows(a: Grid, j: int): (f: Fixed)
    ensures FixedShape(f, a.batch, a.rows, a.width)
  {
    var f := Fixed(seq(a.batch, i => seq(a.rows, m => Cnt(a, i, j, m))),
                   seq(a.batch, i => seq(a.rows, m => seq(a.width, w => Idx(a, i, j, m, w)))));
    assert forall i :: 0 <= i < a.batch ==> SegmentShape(f, i, a.rows, a.width);
    f
  }

  /** Block counts of the segments of a table. */
  predicate Counted(a: Grid, rows: seq<nat>, cols: seq<nat>) {
    |rows| == |cols| == a.batch && AllBelow(rows, a.rows)
  }

  function HeadPacked(a: Grid, j: int, rows: seq<nat>, cols: seq<nat>): (p: Packed)
    requires Counted(a, rows, cols)
    ensures |p.cnt| == SumTo(rows, |rows|) && |p.idx| == AreaTo(rows, cols, |rows|)
  {
    RowsFit(HeadRows(a, j), rows, a.rows, a.width);
    Packed(PackCounts(HeadRows(a, j).cnt, rows, |rows|), PackIndices(HeadRows(a, j).idx, rows, cols, |rows|))
  }

  type Lines = int -> seq<int>

  /** A tensor of rank 2, line by line. */
  function Stack(h: nat, n: nat, line: Lines): (c: Content)
    ensures c.shape == [h, n]
  {
    Volumes(h, n, 0, 0);
    MulMono(0, h, n);
    Data([h, n], seq(h * n, e requires 0 <= e < h * n => SlotParts(e, h, n); At(line(e / n), e % n)))
  }

  lemma StackedLine(h: nat, n: nat, line: Lines, j: int)
    requires 0 <= j < h && |line(j)| == n
    ensures HeadOf(Stack(h, n, line), j) == line(j)
  {
    var c := Stack(h, n, line);
    RowFits(h, n, j);
    assert Bc(j, h) == j;
    forall x | 0 <= x < n
      ensures c.values[j * n + x] == line(j)[x]
    {
      NextMultiple(j, n);
      DivideBetween(j * n + x, n, j);
    }
    hide Volume;
  }

  function CountLines(a: Grid, rows: seq<nat>, cols: seq<nat>): Lines
    requires Counted(a, rows, cols)
  {
    j => HeadPacked(a, j, rows, cols).cnt
  }

  function IndexLines(a: Grid, rows: seq<nat>, cols: seq<nat>): Lines
    requires Counted(a, rows, cols)
  {
    j => HeadPacked(a, j, rows, cols).idx
  }

  function PackedCounts(a: Grid, rows: seq<nat>, cols: seq<nat>): (c: Content)
    requires Counted(a, rows, cols)
    ensures c.shape == [a.heads, SumTo(rows, |rows|)]
  {
    Stack(a.heads, SumTo(rows, |rows|), CountLines(a, rows, cols))
  }

  function PackedIndices(a: Grid, rows: seq<nat>, cols: seq<nat>): (c: Content)
    requires Counted(a, rows, cols)
    ensures c.shape == [a.heads, AreaTo(rows, cols, |rows|)]
  {
    Stack(a.heads, AreaTo(rows, cols, |rows|), IndexLines(a, rows, cols))
  }

  function Sums(rows: seq<nat>): (r: seq<int>)
    ensures |r| == |rows| + 1
  {
    seq(|rows| + 1, b requires 0 <= b <= |rows| => SumTo(rows, b))
  }

  function Areas(rows: seq<nat>, cols: seq<nat>): (r: seq<int>)
    requires |rows| == |cols|
    ensures |r| == |rows| + 1
  {
    seq(|rows| + 1, b requires 0 <= b <= |rows| => AreaTo(rows, cols, b))
  }

  lemma HeadOfPacked(a: Grid, rows: seq<nat>, cols: seq<nat>, j: int)
    requires Counted(a, rows, cols) && 0 <= j < a.heads
    ensures HeadLists(PackedCounts(a, rows, cols), PackedIndices(a, rows, cols), j) == HeadPacked(a, j, rows, cols)
  {
    StackedLine(a.heads, SumTo(rows, |rows|), CountLines(a, rows, cols), j);
    StackedLine(a.heads, AreaTo(rows, cols, |rows|), IndexLines(a, rows, cols), j);
    hide Stack, HeadOf, Counted, HeadPacked;
  }

  /* Unpacking it again. */

  /** The packed form of a table, unpacked to `high` rows and `wide` slots. */
  function Reread(a: Grid, rows: seq<nat>, cols: seq<nat>, high: nat, wide: nat): (u: Grid)
    requires Counted(a, rows, cols)
    ensures Shaped(u) && u.batch == a.batch && u.heads == a.heads && u.rows == high && u.width == wide
  {
    UnpackPacked(PackedCounts(a, rows, cols), PackedIndices(a, rows, cols), Line(Sums(rows)), Line(Areas(rows, cols)), rows, cols, high, wide)
  }

  lemma RereadRow(a: Grid, rows: seq<nat>, cols: seq<nat>, high: nat, wide: nat, i: int, j: int, m: int)
    requires Counted(a, rows, cols) && 0 <= i < a.batch && 0 <= j < a.heads && 0 <= m < high
    ensures var u := Unpack(HeadPacked(a, j, rows, cols), Sums(rows), Areas(rows, cols), rows, cols, high, wide);
            && CountIn(u, i, m) == (if m < rows[i] then Cnt(a, i, j, m) else 0)
            && forall w :: 0 <= w < wide ==>
                 SlotIn(u, i, m, w) == if m < rows[i] && w < cols[i] && w < a.width then Idx(a, i, j, m, w) else 0
  {
    var f, p := HeadRows(a, j), HeadPacked(a, j, rows, cols);
    UnpackPack(f, rows, cols, Sums(rows), Areas(rows, cols), a.rows, a.width, p, high, wide, i, m);
    hide Unpack, PackCounts, PackIndices, Cnt, Idx;
  }

  /** Real rows come back as they were, cut to the columns of their segment; others are empty. */
  lemma RereadCells(a: Grid, rows: seq<nat>, cols: seq<nat>, high: nat, wide: nat, i: int, j: int, m: int)
    requires Counted(a, rows, cols) && 0 <= i < a.batch && 0 <= j < a.heads && 0 <= m < high
    ensures var u := Reread(a, rows, cols, high, wide);
            && Cnt(u, i, j, m) == (if m < rows[i] then Cnt(a, i, j, m) else 0)
            && forall w :: 0 <= w < wide ==>
                 Idx(u, i, j, m, w) == if m < rows[i] && w < cols[i] && w < a.width then Idx(a, i, j, m, w) else 0
  {
    var f := UnpackHeads(PackedCounts(a, rows, cols), PackedIndices(a, rows, cols), Line(Sums(rows)), Line(Areas(rows, cols)), rows, cols, high, wide);
    HeadOfPacked(a, rows, cols, j);
    JoinedCells(f, a.batch, high, wide, i, j, m);
    RereadRow(a, rows, cols, high, wide, i, j, m);
    hide UnpackHeads, JoinHeads, CountIn, SlotIn, Cnt, Idx, HeadPacked, HeadLists, Unpack, Sums, Areas, PackedCounts, PackedIndices;
  }

  lemma RereadList(a: Grid, rows: seq<nat>, cols: seq<nat>, high: nat, wide: nat, i: int, j: int, m: int)
    requires Counted(a, rows, cols) && 0 <= i < a.batch && 0 <= j < a.heads && 0 <= m < high
    requires m < rows[i] ==> 0 <= Cnt(a, i, j, m) <= a.width && Cnt(a, i, j, m) <= cols[i] <= wide
    ensures Live(Reread(a, rows, cols, high, wide), i, j, m) == if m < rows[i] then Live(a, i, j, m) else []
  {
    RereadCells(a, rows, cols, high, wide, i, j, m);
    hide Reread, Cnt, Idx, Counted;
  }

  /* The operation. */

  /** The promise about boundaries: they start at zero, with segments up to the maximum. */
  predicate Promised(g: Fields, s: Scalars) {
    BoundaryFits(true, g.cuQ, s.batch, s.seqQ) && BoundaryFits(true, g.cuK, s.batch, s.seqK)
  }

  function QuerySegments(g: Fields, s: Scalars): (r: seq<nat>)
    requires Sensible(s)
    ensures |r| == s.batch
  {
    Segments(g.cuQ, Blocks(s.seqQ), s.batch)
  }

  function KeySegments(g: Fields, s: Scalars): (r: seq<nat>)
    requires Sensible(s)
    ensures |r| == s.batch
  {
    Segments(g.cuK, Blocks(s.seqK), s.batch)
  }

  lemma SegmentsBelow(cu: Option<Content>, batch: nat, max: nat)
    requires BoundaryFits(true, cu, batch, max) && max >= 1
    ensures AllBelow(Segments(cu, Blocks(max), batch), Blocks(max))
  {
    if cu.Some? {
      var v, r := cu.value.values, Segments(cu, Blocks(max), batch);
      forall i | 0 <= i < batch
        ensures r[i] <= Blocks(max)
      {
        LengthOf(cu.value);
        assert SegmentFits(v, i, max);
        assert r[i] == BlocksAcross(v[i + 1] - v[i]);
      }
      hide Segments;
    }
  }

  lemma LengthOf(c: Content)
    requires |c.shape| == 1
    ensures |c.values| == c.shape[0]
  {
    Volumes(c.shape[0], 0, 0, 0);
    assert c.shape == [c.shape[0]];
  }

  /** The lists as they are returned; the boundaries are those of the call. */
  function FixedResult(p: Grid, f: Grid, g: Fields): Fields
    requires Shaped(p) && Shaped(f)
  {
    Fields(CountTensor(p), IndexTensor(p), Some(CountTensor(f)), Some(IndexTensor(f)), None, None, g.cuQ, g.cuK)
  }

  function PackedResult(p: Grid, f: Grid, rows: seq<nat>, cols: seq<nat>, g: Fields): Fields
    requires Counted(p, rows, cols) && Counted(f, rows, cols)
  {
    Fields(PackedCounts(p, rows, cols), PackedIndices(p, rows, cols), Some(PackedCounts(f, rows, cols)), Some(PackedIndices(f, rows, cols)),
           Some(Line(Sums(rows))), Some(Line(Areas(rows, cols))), g.cuQ, g.cuK)
  }

  /** Normalise, exchange both tables, and pack them if the keys have boundaries. */
  function Transposition(cpu: bool, g: Fields, s: Scalars): (r: Option<Fields>)
    requires !s.backward && Promised(g, s)
  {
    match Normalised(cpu, g, s)
    case None => None
    case Some(x) => Exchanged(x.0, x.1, g, s)
  }

  function Exchanged(x: Grid, y: Grid, g: Fields, s: Scalars): (r: Option<Fields>)
    requires Sensible(s) && Promised(g, s) && Shaped(x) && Shaped(y)
  {
    var p, f := Transpose(x, Blocks(s.seqK)), Transpose(y, Blocks(s.seqK));
    if g.cuK.None? then Some(FixedResult(p, f, g))
    else
      var rows, cols := KeySegments(g, s), QuerySegments(g, s);
      SegmentsBelow(g.cuK, s.batch, s.seqK);
      if !Narrow(rows, cols) then None
      else Some(PackedResult(Spread(p, s.batch, p.heads), Spread(f, s.batch, f.heads), rows, cols, g))
  }

  /* Reading the result in the backward pass. */

  function Back(s: Scalars): Scalars { s.(backward := true, blockSize := Some((BLOCK, BLOCK))) }

  /** The tables of the fixed result are read as they are. */
  lemma FixedReread(a: Grid, s: Scalars)
    requires Sensible(s) && s.backward && Shaped(a) && AxisFits(a.batch, s.batch) && AxisFits(a.heads, s.heads)
    requires a.rows == RowBlocks(s) && a.width <= ColBlocks(s)
    ensures FixedFits(CountTensor(a), IndexTensor(a), s) && UnpackFixed(CountTensor(a), IndexTensor(a), s) == a
  {
    var c, x := CountTensor(a), IndexTensor(a);
    var u := UnpackFixed(c, x, s);
    forall i, j, m | InGrid(a, i, j, m)
      ensures Cnt(u, i, j, m) == Cnt(a, i, j, m) && forall w :: 0 <= w < a.width ==> Idx(u, i, j, m, w) == Idx(a, i, j, m, w)
    {
      FixedCells(c, x, s, i, j, m);
      assert Bc(i, a.batch) == i && Bc(j, a.heads) == j;
      hide UnpackFixed, FixedFits, RowNo;
    }
    hide Cnt, Idx, UnpackFixed, FixedFits;
    SameGrid(u, a);
  }

  /** A table with one group of lists for every batch, where the result is packed. */
  function Whole(a: Grid, g: Fields, s: Scalars): (r: Grid)
    requires Sensible(s)
    ensures r.heads == a.heads && r.rows == a.rows && r.batch == if g.cuK.Some? then s.batch else a.batch
  {
    if g.cuK.Some? then Spread(a, s.batch, a.heads) else a
  }

  /** Key blocks that the list of a row may name: those of its segment, none for a row behind it. */
  function Reach(g: Fields, s: Scalars, i: int, m: int): nat
    requires Sensible(s)
  {
    if g.cuK.None? || !(0 <= i < s.batch) then Blocks(s.seqK)
    else if m < QuerySegments(g, s)[i] then KeySegments(g, s)[i] else 0
  }

  /** Every list names distinct key blocks within its reach. */
  ghost predicate ListsFit(a: Grid, g: Fields, s: Scalars)
    requires Sensible(s)
  {
    forall i, j, m :: InGrid(a, i, j, m) ==> ListFits(a, g, s, i, j, m)
  }

  ghost predicate ListFits(a: Grid, g: Fields, s: Scalars, i: int, j: int, m: int)
    requires Sensible(s)
  {
    Distinct(Live(a, i, j, m)) && InRange(Live(a, i, j, m), Reach(g, s, i, m))
  }

  lemma ReachBelow(g: Fields, s: Scalars, i: int, m: int)
    requires Sensible(s) && Promised(g, s)
    ensures Reach(g, s, i, m) <= Blocks(s.seqK)
  {
    SegmentsBelow(g.cuK, s.batch, s.seqK);
    hide Segments;
  }

  lemma NamingNext(a: Grid, i: int, j: int, c: int, n: nat)
    ensures Naming(a, i, j, c, 0) == []
    ensures Naming(a, i, j, c, n + 1) == Naming(a, i, j, c, n) + if c in Live(a, i, j, n) then [n] else []
  {
    hide Live;
  }

  lemma {:induction false} SpreadNaming(a: Grid, b: nat, h: nat, i: int, j: int, c: int, n: nat)
    requires 0 <= i < b && 0 <= j < h && n <= a.rows
    ensures Naming(Spread(a, b, h), i, j, c, n) == Naming(a, Bc(i, a.batch), Bc(j, a.heads), c, n)
    decreases n
  {
    hide *;
    if n == 0 {
      NamingNext(a, Bc(i, a.batch), Bc(j, a.heads), c, 0);
      NamingNext(Spread(a, b, h), i, j, c, 0);
    } else {
      SpreadNaming(a, b, h, i, j, c, n - 1);
      SpreadList(a, b, h, i, j, n - 1);
      NamingNext(a, Bc(i, a.batch), Bc(j, a.heads), c, n - 1);
      NamingNext(Spread(a, b, h), i, j, c, n - 1);
    }
  }

  /** A row that names c lies in its segment, and so does c. */
  lemma NamedFits(a: Grid, g: Fields, s: Scalars, i: int, j: int, c: int, m: int)
    requires Sensible(s) && ListsFit(a, g, s) && g.cuK.Some? && a.batch == s.batch && InGrid(a, i, j, m)
    requires c in Live(a, i, j, m)
    ensures m < QuerySegments(g, s)[i] && c < KeySegments(g, s)[i]
  {
    assert ListFits(a, g, s, i, j, m);
    hide Live, QuerySegments, KeySegments, Distinct;
  }

  /** No list names more rows than its segment has, or a row for a column behind it. */
  lemma NamingFits(a: Grid, g: Fields, s: Scalars, i: int, j: int, c: int)
    requires Sensible(s) && ListsFit(a, g, s) && g.cuK.Some? && a.batch == s.batch && 0 <= i < a.batch && 0 <= j < a.heads
    ensures |Naming(a, i, j, c, a.rows)| <= QuerySegments(g, s)[i]
    ensures c >= KeySegments(g, s)[i] ==> Naming(a, i, j, c, a.rows) == []
  {
    var list := Naming(a, i, j, c, a.rows);
    hide Naming, ListsFit, QuerySegments, KeySegments, Live;
    forall k | 0 <= k < |list|
      ensures list[k] < QuerySegments(g, s)[i] && c < KeySegments(g, s)[i]
    {
      assert list[k] in list;
      NamedFits(a, g, s, i, j, c, list[k]);
    }
    AscendingShort(list, QuerySegments(g, s)[i]);
    assert list != [] ==> 0 <= list[0];
  }

  /** The exchanged table of every batch. */
  lemma WholeList(x: Grid, g: Fields, s: Scalars, i: int, j: int, c: int)
    requires Sensible(s) && g.cuK.Some? && AxisFits(x.batch, s.batch)
    requires 0 <= i < s.batch && 0 <= j < x.heads && 0 <= c < Blocks(s.seqK)
    ensures var a, list := Spread(Transpose(x, Blocks(s.seqK)), s.batch, x.heads), Naming(Whole(x, g, s), i, j, c, x.rows);
            Cnt(a, i, j, c) == |list| && Live(a, i, j, c) == list
  {
    var t := Transpose(x, Blocks(s.seqK));
    assert 0 <= Bc(i, x.batch) < x.batch && Bc(j, x.heads) == j;
    hide Spread, Transpose, Naming, Cnt, Live, Blocks, Bc;
    SpreadNaming(x, s.batch, x.heads, i, j, c, x.rows);
    SpreadList(t, s.batch, x.heads, i, j, c);
    TransposedList(x, Blocks(s.seqK), Bc(i, x.batch), j, c);
  }

  lemma SegmentsFit(x: Grid, g: Fields, s: Scalars)
    requires Sensible(s) && Promised(g, s) && x.batch == s.batch && x.rows == Blocks(s.seqK)
    ensures Counted(x, KeySegments(g, s), QuerySegments(g, s)) && AllBelow(QuerySegments(g, s), Blocks(s.seqQ))
  {
    SegmentsBelow(g.cuK, s.batch, s.seqK);
    SegmentsBelow(g.cuQ, s.batch, s.seqQ);
    hide Segments, BoundaryFits, Blocks;
  }

  /** What the backward pass reads from the packed result: for every key block, the rows naming it. */
  lemma PackedNames(x: Grid, g: Fields, s: Scalars, i: int, j: int, c: int)
    requires Sensible(s) && Promised(g, s) && g.cuK.Some? && x.rows == Blocks(s.seqQ) && ListsFit(Whole(x, g, s), g, s)
    requires AxisFits(x.batch, s.batch) && 0 <= i < s.batch && 0 <= j < x.heads && 0 <= c < Blocks(s.seqK)
    ensures var a, rows, cols := Spread(Transpose(x, Blocks(s.seqK)), s.batch, x.heads), KeySegments(g, s), QuerySegments(g, s);
            && Counted(a, rows, cols)
            && Live(Reread(a, rows, cols, Blocks(s.seqK), Blocks(s.seqQ)), i, j, c) == Naming(Whole(x, g, s), i, j, c, x.rows)
  {
    var a, w := Spread(Transpose(x, Blocks(s.seqK)), s.batch, x.heads), Whole(x, g, s);
    SegmentsFit(a, g, s);
    WholeList(x, g, s, i, j, c);
    NamingFits(w, g, s, i, j, c);
    assert QuerySegments(g, s)[i] <= Blocks(s.seqQ);
    assert a.width == AtLeast1(x.rows);
    hide *;
    RereadList(a, KeySegments(g, s), QuerySegments(g, s), Blocks(s.seqK), Blocks(s.seqQ), i, j, c);
  }

  /** Every list of v holds the rows of w that name its column. */
  ghost predicate ReadsNames(v: Grid, w: Grid, cols: nat) {
    && Shaped(v) && v.batch == w.batch && v.heads == w.heads && v.rows == cols
    && forall i, j, c :: InGrid(v, i, j, c) ==> NamesAt(v, w, i, j, c)
  }

  ghost predicate NamesAt(v: Grid, w: Grid, i: int, j: int, c: int) { Live(v, i, j, c) == Naming(w, i, j, c, w.rows) }

  /** What exchanging needs of a normalised table. */
  ghost predicate Fitting(x: Grid, g: Fields, s: Scalars)
    requires Sensible(s)
  {
    && Shaped(x) && x.rows == Blocks(s.seqQ) && AxisFits(x.batch, s.batch) && AxisFits(x.heads, s.heads)
    && ListsFit(Whole(x, g, s), g, s)
  }

  lemma BackIs(s: Scalars)
    requires Sensible(s)
    ensures var r := Back(s);
            && Sensible(r) && r.backward && RowBlocks(r) == Blocks(s.seqK) && ColBlocks(r) == Blocks(s.seqQ) && r.batch == s.batch
            && r.heads == s.heads && Blocks(s.seqQ) >= 1 && Blocks(s.seqK) >= 1
  {
  }

  lemma FixedPair(x: Grid, g: Fields, t: Fields, s: Scalars)
    requires Sensible(s) && Fitting(x, g, s) && g.cuK.None? && Validated(t, Back(s)) && Sensible(Back(s)) && t.cuRows.None?
    ensures var p := Transpose(x, Blocks(s.seqK));
            && PairFits(CountTensor(p), IndexTensor(p), t, Back(s)) && UnpackPair(CountTensor(p), IndexTensor(p), t, Back(s)) == Some(p)
            && ReadsNames(p, Whole(x, g, s), Blocks(s.seqK))
  {
    var p := Transpose(x, Blocks(s.seqK));
    BackIs(s);
    hide ListsFit, Blocks, Validated, Back, Naming, Live;
    forall i, j, c | InGrid(p, i, j, c)
      ensures NamesAt(p, x, i, j, c)
    {
      TransposedList(x, Blocks(s.seqK), i, j, c);
    }
    hide Transpose, UnpackFixed, FixedFits;
    FixedReread(p, Back(s));
  }

  lemma PackedPair(x: Grid, g: Fields, t: Fields, s: Scalars, cnt: Content, idx: Content)
    requires Sensible(s) && Promised(g, s) && Fitting(x, g, s) && g.cuK.Some? && Validated(t, Back(s)) && Sensible(Back(s))
    requires var a, rows, cols := Spread(Transpose(x, Blocks(s.seqK)), s.batch, x.heads), KeySegments(g, s), QuerySegments(g, s);
             && Counted(a, rows, cols) && cnt == PackedCounts(a, rows, cols) && idx == PackedIndices(a, rows, cols)
             && t.cuRows == Some(Line(Sums(rows))) && t.cuIdx == Some(Line(Areas(rows, cols))) && t.cuQ == g.cuQ && t.cuK == g.cuK
    ensures PairFits(cnt, idx, t, Back(s)) && UnpackPair(cnt, idx, t, Back(s)).Some?
    ensures var v := UnpackPair(cnt, idx, t, Back(s)).value;
            && ReadsNames(v, Whole(x, g, s), Blocks(s.seqK)) && v.width == Blocks(s.seqQ)
  {
    BackIs(s);
    var N, M := Blocks(s.seqK), Blocks(s.seqQ);
    var a, rows, cols := Spread(Transpose(x, N), s.batch, x.heads), KeySegments(g, s), QuerySegments(g, s);
    assert RowSegments(t, Back(s)) == rows && ColSegments(t, Back(s)) == cols;
    hide Blocks, Validated, Sums, Areas, PackedCounts, PackedIndices, Spread, Transpose, ListsFit, Segments, UnpackPacked, Counted, Naming, Live;
    assert PairFits(cnt, idx, t, Back(s));
    var v := Reread(a, rows, cols, N, M);
    assert UnpackPair(cnt, idx, t, Back(s)) == Some(v);
    forall i, j, c | InGrid(v, i, j, c)
      ensures NamesAt(v, Whole(x, g, s), i, j, c)
    {
      PackedNames(x, g, s, i, j, c);
    }
  }

  lemma SpreadNames(v: Grid, w: Grid, cols: nat)
    requires ReadsNames(v, w, cols)
    ensures ReadsNames(Spread(v, v.batch, v.heads), w, cols)
  {
    var u := Spread(v, v.batch, v.heads);
    hide Spread, Live, Naming;
    forall i, j, c | InGrid(u, i, j, c)
      ensures NamesAt(u, w, i, j, c)
    {
      SpreadList(v, v.batch, v.heads, i, j, c);
      assert NamesAt(v, w, i, j, c);
      assert Bc(i, v.batch) == i && Bc(j, v.heads) == j;
    }
  }

  /** The pair that stands for table x in the result. */
  ghost predicate StandsFor(cnt: Content, idx: Content, x: Grid, g: Fields, t: Fields, s: Scalars)
    requires Sensible(s) && Validated(t, Back(s)) && Sensible(Back(s))
  {
    && PairFits(cnt, idx, t, Back(s)) && UnpackPair(cnt, idx, t, Back(s)).Some?
    && ReadsNames(UnpackPair(cnt, idx, t, Back(s)).value, Whole(x, g, s), Blocks(s.seqK))
  }

  /** The tensors of the result. */
  lemma ResultIs(x: Grid, y: Grid, g: Fields, t: Fields, s: Scalars)
    requires Sensible(s) && Promised(g, s) && Shaped(x) && Shaped(y) && Exchanged(x, y, g, s) == Some(t)
    ensures t.fullCnt.Some? && t.fullIdx.Some? && t.cuQ == g.cuQ && t.cuK == g.cuK && (t.cuRows.Some? <==> g.cuK.Some?)
    ensures Validated(t, Back(s)) && Sensible(Back(s))
    ensures var p, f := Transpose(x, Blocks(s.seqK)), Transpose(y, Blocks(s.seqK));
            if g.cuK.None? then t == FixedResult(p, f, g)
            else
              var rows, cols, a, b := KeySegments(g, s), QuerySegments(g, s), Spread(p, s.batch, x.heads), Spread(f, s.batch, y.heads);
              && Counted(a, rows, cols) && Counted(b, rows, cols) && Narrow(rows, cols)
              && t == PackedResult(a, b, rows, cols, g)
  {
    SegmentsBelow(g.cuK, s.batch, s.seqK);
    hide Transpose, Spread, PackedCounts, PackedIndices, Segments, Sums, Areas, BoundaryFits, Blocks, AllBelow;
  }

  lemma ResultPairs(x: Grid, y: Grid, g: Fields, t: Fields, s: Scalars)
    requires Sensible(s) && Promised(g, s) && Fitting(x, g, s) && Fitting(y, g, s) && Exchanged(x, y, g, s) == Some(t)
    ensures Validated(t, Back(s)) && Sensible(Back(s)) && t.fullCnt.Some? && t.fullIdx.Some? && t.cuQ == g.cuQ && t.cuK == g.cuK
    ensures StandsFor(t.maskCnt, t.maskIdx, x, g, t, s) && StandsFor(t.fullCnt.value, t.fullIdx.value, y, g, t, s)
  {
    ResultIs(x, y, g, t, s);
    hide *;
    if g.cuK.None? {
      FixedStands(x, y, g, t, s);
    } else {
      PackedStands(x, y, g, t, s);
    }
  }

  lemma FixedStands(x: Grid, y: Grid, g: Fields, t: Fields, s: Scalars)
    requires Sensible(s) && Fitting(x, g, s) && Fitting(y, g, s) && g.cuK.None? && Validated(t, Back(s)) && Sensible(Back(s)) && t.cuRows.None?
    requires t == FixedResult(Transpose(x, Blocks(s.seqK)), Transpose(y, Blocks(s.seqK)), g)
    ensures StandsFor(t.maskCnt, t.maskIdx, x, g, t, s) && StandsFor(t.fullCnt.value, t.fullIdx.value, y, g, t, s)
  {
    FixedPair(x, g, t, s);
    FixedPair(y, g, t, s);
    hide Fitting, Transpose, UnpackPair, PairFits, ReadsNames, Blocks;
  }

  lemma PackedStands(x: Grid, y: Grid, g: Fields, t: Fields, s: Scalars)
    requires Sensible(s) && Promised(g, s) && Fitting(x, g, s) && Fitting(y, g, s) && g.cuK.Some? && Validated(t, Back(s)) && Sensible(Back(s))
    requires var rows, cols := KeySegments(g, s), QuerySegments(g, s);
             var a, b := Spread(Transpose(x, Blocks(s.seqK)), s.batch, x.heads), Spread(Transpose(y, Blocks(s.seqK)), s.batch, y.heads);
             && Counted(a, rows, cols) && Counted(b, rows, cols) && t == PackedResult(a, b, rows, cols, g)
    ensures StandsFor(t.maskCnt, t.maskIdx, x, g, t, s) && t.fullCnt.Some? && t.fullIdx.Some?
    ensures StandsFor(t.fullCnt.value, t.fullIdx.value, y, g, t, s)
  {
    hide Transpose, Spread, PackedCounts, PackedIndices, Segments, Sums, Areas, UnpackPair, PairFits, ReadsNames, Blocks, Fitting, Validated, Counted, Promised;
    PackedPair(x, g, t, s, t.maskCnt, t.maskIdx);
    PackedPair(y, g, t, s, t.fullCnt.value, t.fullIdx.value);
  }

  /** Both tables of the result, as the backward pass reads them. */
  lemma ResultTables(x: Grid, y: Grid, g: Fields, t: Fields, s: Scalars)
    requires Sensible(s) && Validated(t, Back(s)) && Sensible(Back(s)) && t.fullCnt.Some? && t.fullIdx.Some?
    requires x.batch == y.batch && x.heads == y.heads
    requires StandsFor(t.maskCnt, t.maskIdx, x, g, t, s) && StandsFor(t.fullCnt.value, t.fullIdx.value, y, g, t, s)
    ensures BothFit(t, Back(s)) && OutBatch(t, Back(s)) == Whole(x, g, s).batch && OutHeads(t, Back(s)) == x.heads
    ensures UnpackBoth(t, Back(s)).Some?
    ensures ReadsNames(UnpackBoth(t, Back(s)).value.0, Whole(x, g, s), Blocks(s.seqK))
    ensures ReadsNames(UnpackBoth(t, Back(s)).value.1, Whole(y, g, s), Blocks(s.seqK))
  {
    var r := Back(s);
    BothShape(t, r);
    PairShape(t.maskCnt, t.maskIdx, t, r);
    PairShape(t.fullCnt.value, t.fullIdx.value, t, r);
    hide PairFits, UnpackPair, Spread, Validated, Sensible, Blocks, Back;
    var v, u := UnpackPair(t.maskCnt, t.maskIdx, t, r).value, UnpackPair(t.fullCnt.value, t.fullIdx.value, t, r).value;
    SpreadNames(v, Whole(x, g, s), Blocks(s.seqK));
    SpreadNames(u, Whole(y, g, s), Blocks(s.seqK));
    hide ReadsNames;
  }

  /* There and back. */

  /** A table whose lists name rows, exchanged and widened, has the original lists in order. */
  lemma ExchangedBack(v: Grid, w: Grid, g: Fields, s: Scalars, width: nat, i: int, j: int, m: int)
    requires Sensible(s) && Promised(g, s) && ListsFit(w, g, s) && ReadsNames(v, w, Blocks(s.seqK)) && InGrid(w, i, j, m)
    requires AtLeast1(Blocks(s.seqK)) <= width
    ensures SortedCopy(Live(w, i, j, m), Live(Padded(Transpose(v, w.rows), width), i, j, m))
  {
    var N := Blocks(s.seqK);
    assert ListFits(w, g, s, i, j, m);
    ReachBelow(g, s, i, m);
    forall c | 0 <= c < N
      ensures Live(v, i, j, c) == Naming(w, i, j, c, w.rows)
    {
      assert InGrid(v, i, j, c);
      assert NamesAt(v, w, i, j, c);
    }
    hide ListsFit, Live, Naming, Transpose, Padded, Reach, Promised, Blocks;
    TransposedBack(w, N, v, i, j, m);
    TransposedList(v, w.rows, i, j, m);
    PaddedList(Transpose(v, w.rows), width, i, j, m);
  }

  /** What normalising forward gives: query rows, with the axes of the lists. */
  lemma ForwardShape(cpu: bool, g: Fields, s: Scalars)
    requires !s.backward && Normalised(cpu, g, s).Some?
    ensures Sensible(s)
    ensures var x := Normalised(cpu, g, s).value;
            && Shaped(x.0) && Shaped(x.1) && x.0.batch == x.1.batch && x.0.heads == x.1.heads && x.0.rows == x.1.rows == Blocks(s.seqQ)
            && AxisFits(x.0.batch, s.batch) && AxisFits(x.0.heads, s.heads)
  {
    AcceptedIff(cpu, g, s);
    BothShape(g, s);
    AxesFit(g, s);
    hide PairFits, PairBatch, PairHeads, PairWidth, UnpackBoth, OutBatch, OutHeads, BoundaryFits, Validated, Padded;
  }

  lemma AxesFit(g: Fields, s: Scalars)
    requires Sensible(s) && Validated(g, s) && BothFit(g, s)
    ensures AxisFits(OutBatch(g, s), s.batch) && AxisFits(OutHeads(g, s), s.heads)
  {
  }

  /** Every list of b is that of a in ascending order. */
  ghost predicate SortedTable(a: Grid, b: Grid) {
    && b.batch == a.batch && b.heads == a.heads && b.rows == a.rows
    && forall i, j, m :: InGrid(a, i, j, m) ==> SortedRow(a, b, i, j, m)
  }

  ghost predicate SortedRow(a: Grid, b: Grid, i: int, j: int, m: int) { SortedCopy(Live(a, i, j, m), Live(b, i, j, m)) }

  lemma BackTable(v: Grid, w: Grid, g: Fields, s: Scalars, width: nat)
    requires Sensible(s) && Promised(g, s) && ListsFit(w, g, s) && ReadsNames(v, w, Blocks(s.seqK)) && AtLeast1(Blocks(s.seqK)) <= width
    ensures SortedTable(w, Padded(Transpose(v, w.rows), width))
  {
    var b := Padded(Transpose(v, w.rows), width);
    assert b.batch == w.batch && b.heads == w.heads && b.rows == w.rows;
    hide Promised, ListsFit, ReadsNames, Blocks, Transpose, Padded, SortedCopy, Live;
    forall i, j, m | InGrid(w, i, j, m)
      ensures SortedRow(w, b, i, j, m)
    {
      ExchangedBack(v, w, g, s, width, i, j, m);
    }
  }

  /** The tables that the backward pass makes of its two inputs. */
  lemma BackIsExchanged(cpu: bool, t: Fields, s: Scalars)
    requires Sensible(s) && Normalised(cpu, t, s).Some? && s.backward
    ensures Validated(t, s) && UnpackBoth(t, s).Some? && UnpackBoth(t, s).value.0.rows == UnpackBoth(t, s).value.1.rows == RowBlocks(s)
    ensures var v, width := UnpackBoth(t, s).value, AtLeast1(RowBlocks(s));
            && Normalised(cpu, t, s).value.0 == Padded(Transpose(v.0, ColBlocks(s)), width)
            && Normalised(cpu, t, s).value.1 == Padded(Transpose(v.1, ColBlocks(s)), width)
  {
    hide UnpackBoth, Padded, Transpose, Validated, BoundaryFits, RowBlocks, ColBlocks;
  }

  lemma BackAccepted(cpu: bool, g: Fields, t: Fields, s: Scalars)
    requires Sensible(s) && Promised(g, s) && t.cuQ == g.cuQ && t.cuK == g.cuK && Validated(t, Back(s)) && Sensible(Back(s)) && BothFit(t, Back(s))
    ensures (Normalised(cpu, t, Back(s)).Some?)
       <==> !TooBig(OutBatch(t, Back(s)) * OutHeads(t, Back(s)) * Blocks(s.seqQ), Blocks(s.seqK))
  {
    AcceptedIff(cpu, t, Back(s));
    BackIs(s);
    hide Normalised, OutBatch, OutHeads, PairFits, Validated;
  }

  /** Exchanging the lists of a request for the backward pass and normalising them there gives the
      original lists, partial and full, in ascending order, whatever the layouts. */
  lemma ThereAndBack(cpu: bool, g: Fields, s: Scalars)
    requires !s.backward && Promised(g, s) && Transposition(cpu, g, s).Some? && Sensible(s)
    requires var x := Normalised(cpu, g, s).value; ListsFit(Whole(x.0, g, s), g, s) && ListsFit(Whole(x.1, g, s), g, s)
    ensures var x, y := Normalised(cpu, g, s).value, Normalised(cpu, Transposition(cpu, g, s).value, Back(s));
            && (y.Some? <==> !TooBig(Whole(x.0, g, s).batch * x.0.heads * Blocks(s.seqQ), Blocks(s.seqK)))
            && (y.Some? ==> SortedTable(Whole(x.0, g, s), y.value.0) && SortedTable(Whole(x.1, g, s), y.value.1))
  {
    var x, t := Normalised(cpu, g, s).value, Transposition(cpu, g, s).value;
    ForwardShape(cpu, g, s);
    assert Exchanged(x.0, x.1, g, s) == Some(t);
    assert Fitting(x.0, g, s) && Fitting(x.1, g, s);
    hide *;
    ResultPairs(x.0, x.1, g, t, s);
    ResultTables(x.0, x.1, g, t, s);
    BackAccepted(cpu, g, t, s);
    BackIs(s);
    if Normalised(cpu, t, Back(s)).Some? {
      BackIsExchanged(cpu, t, Back(s));
      var v := UnpackBoth(t, Back(s)).value;
      BackTable(v.0, Whole(x.0, g, s), g, s, AtLeast1(Blocks(s.seqK)));
      BackTable(v.1, Whole(x.1, g, s), g, s, AtLeast1(Blocks(s.seqK)));
    }
  }

  /** The operation succeeds exactly if the request is accepted and, packed, its offsets fit. */
  lemma TranspositionIff(cpu: bool, g: Fields, s: Scalars)
    requires !s.backward && Promised(g, s)
    ensures (Transposition(cpu, g, s).Some?)
       <==> Accepted(cpu, g, s) && (g.cuK.Some? ==> Sensible(s) && Narrow(KeySegments(g, s), QuerySegments(g, s)))
  {
    AcceptedIff(cpu, g, s);
    hide Normalised, OutBatch, OutHeads, OutWidth, BothFit, Validated, BoundaryFits, Transpose, Spread, KeySegments, QuerySegments;
  }
}
