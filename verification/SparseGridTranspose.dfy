/** The sort-based transpose computes the exchange of a table. */
module SparseGridTranspose {
  import opened Arith
  import opened SparseLists
  import opened SparseGrid
  import SparseTranspose

  /** The caller's promise: counts fit the slots, and every list names distinct columns. */
  ghost predicate ValidGrid(a: Grid, cols: nat) {
    Shaped(a) && forall i, j, m :: InGrid(a, i, j, m) ==> ValidRow(a, cols, i, j, m)
  }

  ghost predicate ValidRow(a: Grid, cols: nat, i: int, j: int, m: int) {
    0 <= Cnt(a, i, j, m) <= a.width && Distinct(Live(a, i, j, m)) && InRange(Live(a, i, j, m), cols)
  }

  function PairOf(a: Grid): SparseTranspose.Pair
    requires a.batch * a.heads >= 0
  {
    SparseTranspose.Pair(a.cnt, a.idx, a.batch * a.heads, a.rows, a.width)
  }

  lemma PairSized(a: Grid, cols: nat)
    requires ValidGrid(a, cols)
    ensures a.batch * a.heads >= 0 && SparseTranspose.Sized(PairOf(a))
  {
    Sizes(a.batch, a.heads, a.rows, a.width);
    forall r | 0 <= r < |a.cnt|
      ensures 0 <= a.cnt[r] <= a.width
    {
      RowNoParts(r, a.batch, a.heads, a.rows);
      var i, j, m := r / a.rows / a.heads, r / a.rows % a.heads, r % a.rows;
      assert InGrid(a, i, j, m);
      assert ValidRow(a, cols, i, j, m);
      hide Live, RowNo, Distinct, InRange;
    }
  }

  /** A list of the flat table is the list of its row. */
  lemma PairList(a: Grid, cols: nat, i: int, j: int, m: int)
    requires ValidGrid(a, cols) && InGrid(a, i, j, m)
    ensures a.batch * a.heads >= 0 && SparseTranspose.Sized(PairOf(a))
    ensures var r := RowNo(i, j, m, a.heads, a.rows);
            0 <= r < |PairOf(a).cnt| && SparseTranspose.ListOf(PairOf(a), r) == Live(a, i, j, m)
  {
    PairSized(a, cols);
    RowNoIn(i, j, m, a.batch, a.heads, a.rows);
    assert ValidRow(a, cols, i, j, m);
    var p, r := PairOf(a), RowNo(i, j, m, a.heads, a.rows);
    forall w | 0 <= w < |Live(a, i, j, m)|
      ensures SparseTranspose.ListOf(p, r)[w] == Live(a, i, j, m)[w]
    {
      SparseTranspose.ListEntry(p, r, w);
    }
    hide ValidGrid, ValidRow, RowNo, SparseTranspose.Sized;
  }

  lemma PairTable(a: Grid, cols: nat)
    requires ValidGrid(a, cols)
    ensures a.batch * a.heads >= 0 && SparseTranspose.Sized(PairOf(a))
    ensures Table(SparseTranspose.ListsOf(PairOf(a)), a.batch * a.heads, a.rows, cols)
  {
    PairSized(a, cols);
    var p := PairOf(a);
    var lists := SparseTranspose.ListsOf(p);
    forall r | 0 <= r < |lists|
      ensures Distinct(lists[r]) && InRange(lists[r], cols)
    {
      RowNoParts(r, a.batch, a.heads, a.rows);
      var i, j, m := r / a.rows / a.heads, r / a.rows % a.heads, r % a.rows;
      assert InGrid(a, i, j, m);
      PairList(a, cols, i, j, m);
      assert ValidRow(a, cols, i, j, m);
      hide Live, RowNo, SparseTranspose.Sized, SparseTranspose.ListOf, Distinct, InRange;
    }
    hide ValidGrid, SparseTranspose.Sized;
  }

  lemma SizedIsShaped(a: Grid, cols: nat, out: SparseTranspose.Pair)
    requires ValidGrid(a, cols) && a.batch * a.heads >= 0 && SparseTranspose.Sized(PairOf(a))
    requires SparseTranspose.IsTranspose(PairOf(a), cols, out)
    ensures SparseTranspose.Sized(out) && out.groups == a.batch * a.heads && out.rows == cols && out.width == AtLeast1(a.rows)
    ensures Shaped(AsGrid(a, cols, out))
  {
    hide ValidGrid, SparseTranspose.ListsOf, Transposed, SparseTranspose.ZeroFilled;
  }

  /** The flat result, as a table. */
  function AsGrid(a: Grid, cols: nat, out: SparseTranspose.Pair): Grid {
    Grid(a.batch, a.heads, cols, AtLeast1(a.rows), out.cnt, out.idx)
  }

  lemma OutputList(a: Grid, cols: nat, out: SparseTranspose.Pair, i: int, j: int, c: int)
    requires ValidGrid(a, cols) && a.batch * a.heads >= 0 && SparseTranspose.Sized(PairOf(a))
    requires SparseTranspose.IsTranspose(PairOf(a), cols, out) && SparseTranspose.Sized(out)
    requires 0 <= i < a.batch && 0 <= j < a.heads && 0 <= c < cols
    ensures var r := RowNo(i, j, c, a.heads, cols);
            0 <= r < |out.cnt| && SparseTranspose.ListOf(out, r) == Naming(a, i, j, c, a.rows)
  {
    hide *;
    RowFits(a.batch, a.heads, i);
    RowsOfPair(a);
    OutputIsRows(PairOf(a), cols, out, i * a.heads + j, c);
    RowNoIs(i, j, c, a.heads, cols);
    SameRows(a, cols, i, j, c);
  }

  lemma RowNoIs(i: int, j: int, c: int, h: int, M: int)
    ensures RowNo(i, j, c, h, M) == (i * h + j) * M + c
  {
  }

  lemma OutputIsRows(p: SparseTranspose.Pair, cols: nat, out: SparseTranspose.Pair, g: int, c: int)
    requires SparseTranspose.Sized(p) && SparseTranspose.IsTranspose(p, cols, out) && SparseTranspose.Sized(out)
    requires 0 <= g < p.groups && 0 <= c < cols
    ensures 0 <= g * p.rows && g * p.rows + p.rows <= |SparseTranspose.ListsOf(p)| && 0 <= g * cols + c < |out.cnt|
    ensures SparseTranspose.ListOf(out, g * cols + c) == RowsWith(SparseTranspose.ListsOf(p), p.rows, g, c, p.rows)
  {
    TransposedAt(SparseTranspose.ListsOf(p), p.groups, p.rows, cols, g, c);
    assert SparseTranspose.ListsOf(out)[g * cols + c] == SparseTranspose.ListOf(out, g * cols + c);
    hide Transposed, RowsWith, SparseTranspose.ListOf, SparseTranspose.ZeroFilled;
  }

  lemma SameRows(a: Grid, cols: nat, i: int, j: int, c: int)
    requires ValidGrid(a, cols) && a.batch * a.heads >= 0 && SparseTranspose.Sized(PairOf(a))
    requires 0 <= i < a.batch && 0 <= j < a.heads
    requires var g := i * a.heads + j; 0 <= g && 0 <= g * a.rows && g * a.rows + a.rows <= |SparseTranspose.ListsOf(PairOf(a))|
    ensures RowsWith(SparseTranspose.ListsOf(PairOf(a)), a.rows, i * a.heads + j, c, a.rows) == Naming(a, i, j, c, a.rows)
  {
    var lists, g := SparseTranspose.ListsOf(PairOf(a)), i * a.heads + j;
    var list, rows := RowsWith(lists, a.rows, g, c, a.rows), Naming(a, i, j, c, a.rows);
    hide ValidGrid, SparseTranspose.Sized, RowsWith, Naming, Live, PairOf, SparseTranspose.ListsOf;
    forall m
      ensures m in list <==> m in rows
    {
      if 0 <= m < a.rows {
        RowOfPair(a, cols, i, j, m);
      }
    }
    AscendingUnique(list, rows);
  }

  lemma RowsOfPair(a: Grid)
    requires a.batch * a.heads >= 0
    ensures PairOf(a).rows == a.rows && PairOf(a).groups == a.batch * a.heads
  {
  }

  lemma RowOfPair(a: Grid, cols: nat, i: int, j: int, m: int)
    requires ValidGrid(a, cols) && a.batch * a.heads >= 0 && SparseTranspose.Sized(PairOf(a)) && InGrid(a, i, j, m)
    ensures var r := (i * a.heads + j) * PairOf(a).rows + m;
            PairOf(a).rows == a.rows && 0 <= r < |SparseTranspose.ListsOf(PairOf(a))|
            && SparseTranspose.ListsOf(PairOf(a))[r] == Live(a, i, j, m)
  {
    PairList(a, cols, i, j, m);
    hide ValidGrid, SparseTranspose.ListOf, SparseTranspose.Sized, Live;
  }

  /** Slot w of a list that is filled with zeros. */
  lemma FilledSlot(p: SparseTranspose.Pair, r: int, w: int)
    requires SparseTranspose.Sized(p) && SparseTranspose.ZeroFilled(p) && 0 <= r < |p.cnt| && 0 <= w < p.width
    ensures At(p.idx, r * p.width + w) == At(SparseTranspose.ListOf(p, r), w)
    ensures At(p.cnt, r) == |SparseTranspose.ListOf(p, r)|
  {
    SparseTranspose.SlotIn(p, r, w);
    if w < p.cnt[r] {
      SparseTranspose.ListEntry(p, r, w);
    } else {
      assert SparseTranspose.SlotIs(p, r, w, 0);
    }
    hide SparseTranspose.Sized, SparseTranspose.ZeroFilled;
  }

  lemma IsZeroFilled(p: SparseTranspose.Pair, cols: nat, out: SparseTranspose.Pair)
    requires SparseTranspose.Sized(p) && SparseTranspose.IsTranspose(p, cols, out)
    ensures SparseTranspose.Sized(out) && SparseTranspose.ZeroFilled(out) && out.rows == cols && out.width == AtLeast1(p.rows)
  {
    hide SparseTranspose.Sized, SparseTranspose.ZeroFilled, SparseTranspose.ListsOf, Transposed;
  }

  lemma OutputCells(a: Grid, cols: nat, out: SparseTranspose.Pair, i: int, j: int, c: int)
    requires ValidGrid(a, cols) && a.batch * a.heads >= 0 && SparseTranspose.Sized(PairOf(a))
    requires SparseTranspose.IsTranspose(PairOf(a), cols, out) && SparseTranspose.Sized(out)
    requires 0 <= i < a.batch && 0 <= j < a.heads && 0 <= c < cols
    ensures var t, list := AsGrid(a, cols, out), Naming(a, i, j, c, a.rows);
            && Cnt(t, i, j, c) == |list|
            && forall w :: 0 <= w < AtLeast1(a.rows) ==> Idx(t, i, j, c, w) == At(list, w)
  {
    hide *;
    var r, t, list := RowNo(i, j, c, a.heads, cols), AsGrid(a, cols, out), Naming(a, i, j, c, a.rows);
    OutputList(a, cols, out, i, j, c);
    RowsOfPair(a);
    IsZeroFilled(PairOf(a), cols, out);
    AtLeastOne(a.rows);
    FilledSlot(out, r, 0);
    CellsOf(a, cols, out, i, j, c);
    forall w | 0 <= w < AtLeast1(a.rows)
      ensures Idx(t, i, j, c, w) == At(list, w)
    {
      FilledSlot(out, r, w);
    }
  }

  lemma AtLeastOne(n: nat)
    ensures AtLeast1(n) >= 1
  {
  }

  lemma CellsOf(a: Grid, cols: nat, out: SparseTranspose.Pair, i: int, j: int, c: int)
    requires out.width == AtLeast1(a.rows)
    ensures var t, r := AsGrid(a, cols, out), RowNo(i, j, c, a.heads, cols);
            && Cnt(t, i, j, c) == At(out.cnt, r)
            && forall w :: 0 <= w < AtLeast1(a.rows) ==> Idx(t, i, j, c, w) == At(out.idx, r * out.width + w)
  {
    hide RowNo, At;
  }

  /** The exchange of a table, by sorting its edges. */
  method TransposeGrid(a: Grid, cols: nat) returns (r: Grid)
    requires ValidGrid(a, cols) && cols > 0
    ensures r == Transpose(a, cols)
  {
    PairTable(a, cols);
    var p := PairOf(a);
    var out := SparseTranspose.TransposePair(p, cols);
    SizedIsShaped(a, cols, out);
    r := AsGrid(a, cols, out);
    var t := Transpose(a, cols);
    hide ValidGrid, Transpose, SparseTranspose.Sized, SparseTranspose.IsTranspose, AsGrid, PairOf;
    forall i, j, c | InGrid(t, i, j, c)
      ensures Cnt(r, i, j, c) == Cnt(t, i, j, c) && forall w :: 0 <= w < t.width ==> Idx(r, i, j, c, w) == Idx(t, i, j, c, w)
    {
      OutputCells(a, cols, out, i, j, c);
      TransposedCells(a, cols, i, j, c);
      hide *;
    }
    hide Cnt, Idx;
    AsGridShape(a, cols, out);
    SameGrid(r, t);
  }

  lemma AsGridShape(a: Grid, cols: nat, out: SparseTranspose.Pair)
    ensures var t := AsGrid(a, cols, out); t.batch == a.batch && t.heads == a.heads && t.rows == cols && t.width == AtLeast1(a.rows)
  {
  }

  lemma TransposedCells(a: Grid, cols: nat, i: int, j: int, c: int)
    requires 0 <= i < a.batch && 0 <= j < a.heads && 0 <= c < cols
    ensures Cnt(Transpose(a, cols), i, j, c) == |Naming(a, i, j, c, a.rows)|
    ensures forall w :: 0 <= w < AtLeast1(a.rows) ==> Idx(Transpose(a, cols), i, j, c, w) == At(Naming(a, i, j, c, a.rows), w)
  {
    TransposedList(a, cols, i, j, c);
    assert forall w :: 0 <= w < |Naming(a, i, j, c, a.rows)| ==>
                         Live(Transpose(a, cols), i, j, c)[w] == Naming(a, i, j, c, a.rows)[w];
    hide Transpose, Naming, Cnt, Idx;
  }
}
