/** Tables of sparse row lists with a batch and a head axis: counts of shape (batch, heads, rows)
    and index slots of shape (batch, heads, rows, width), of which the first `count` are live. */
module SparseGrid {
  import opened Arith
  import opened SparseLists

  datatype Grid = Grid(batch: nat, heads: nat, rows: nat, width: nat, cnt: seq<int>, idx: seq<int>)

  ghost predicate Shaped(a: Grid) {
    |a.cnt| == a.batch * a.heads * a.rows && |a.idx| == a.batch * a.heads * a.rows * a.width
  }

  /** Row-major number of row m of batch i and head j. */
  function RowNo(i: int, j: int, m: int, h: int, M: int): int { (i * h + j) * M + m }

  function At(s: seq<int>, k: int): int { if 0 <= k < |s| then s[k] else 0 }

  /** Count of row m, and its slot w. */
  function Cnt(a: Grid, i: int, j: int, m: int): int { At(a.cnt, RowNo(i, j, m, a.heads, a.rows)) }

  function Idx(a: Grid, i: int, j: int, m: int, w: int): int {
    At(a.idx, RowNo(i, j, m, a.heads, a.rows) * a.width + w)
  }

  predicate InGrid(a: Grid, i: int, j: int, m: int) { 0 <= i < a.batch && 0 <= j < a.heads && 0 <= m < a.rows }

  lemma RowNoIn(i: int, j: int, m: int, b: int, h: int, M: int)
    requires 0 <= i < b && 0 <= j < h && 0 <= m < M
    ensures 0 <= RowNo(i, j, m, h, M) < b * h * M
    ensures RowNo(i, j, m, h, M) / M == i * h + j && RowNo(i, j, m, h, M) % M == m
    ensures (i * h + j) / h == i && (i * h + j) % h == j
  {
    RowFits(b, h, i);
    RowFits(b * h, M, i * h + j);
    NextMultiple(i * h + j, M);
    DivideBetween((i * h + j) * M + m, M, i * h + j);
    NextMultiple(i, h);
    DivideBetween(i * h + j, h, i);
  }

  lemma RowNoParts(r: int, b: int, h: int, M: int)
    requires 0 <= r < b * h * M && b >= 0 && h >= 0 && M >= 0
    ensures h >= 1 && M >= 1 && 0 <= r / M / h < b && 0 <= r / M % h < h && 0 <= r % M < M
    ensures r == RowNo(r / M / h, r / M % h, r % M, h, M)
  {
    assert M == 0 ==> b * h * M == 0;
    MulMono(0, b, h);
    QuotientBelow(r, M, b * h);
    assert h == 0 ==> b * h == 0;
    QuotientBelow(r / M, h, b);
  }

  lemma SlotParts(e: int, n: int, width: int)
    requires 0 <= e < n * width && n >= 0 && width >= 0
    ensures width >= 1 && 0 <= e / width < n && 0 <= e % width < width && e == e / width * width + e % width
  {
    assert width == 0 ==> n * width == 0;
    QuotientBelow(e, width, n);
  }

  lemma Sizes(b: nat, h: nat, M: nat, width: nat)
    ensures b * h >= 0 && b * h * M >= 0 && b * h * M * width >= 0
  {
    MulMono(0, b, h);
    MulMono(0, b * h, M);
    MulMono(0, b * h * M, width);
  }

  type Counts = (int, int, int) -> int
  type Slots = (int, int, int, int) -> int

  /** The table with the given counts and slots. */
  function Tabulate(b: nat, h: nat, M: nat, width: nat, counts: Counts, slots: Slots): (a: Grid)
    ensures Shaped(a) && a.batch == b && a.heads == h && a.rows == M && a.width == width
  {
    Sizes(b, h, M, width);
    Grid(b, h, M, width,
      seq(b * h * M, r requires 0 <= r < b * h * M => RowNoParts(r, b, h, M); counts(r / M / h, r / M % h, r % M)),
      seq(b * h * M * width, e requires 0 <= e < b * h * M * width =>
        SlotParts(e, b * h * M, width);
        RowNoParts(e / width, b, h, M);
        slots(e / width / M / h, e / width / M % h, e / width % M, e % width)))
  }

  lemma TabulatedCount(b: nat, h: nat, M: nat, width: nat, counts: Counts, slots: Slots, i: int, j: int, m: int)
    requires 0 <= i < b && 0 <= j < h && 0 <= m < M
    ensures Cnt(Tabulate(b, h, M, width, counts, slots), i, j, m) == counts(i, j, m)
  {
    RowNoIn(i, j, m, b, h, M);
    hide RowNo;
  }

  lemma TabulatedSlot(b: nat, h: nat, M: nat, width: nat, counts: Counts, slots: Slots, i: int, j: int, m: int, w: int)
    requires 0 <= i < b && 0 <= j < h && 0 <= m < M && 0 <= w < width
    ensures Idx(Tabulate(b, h, M, width, counts, slots), i, j, m, w) == slots(i, j, m, w)
  {
    RowNoIn(i, j, m, b, h, M);
    var r := RowNo(i, j, m, h, M);
    RowFits(b * h * M, width, r);
    NextMultiple(r, width);
    DivideBetween(r * width + w, width, r);
    hide RowNo;
  }

  /** Tables with the same shape and cells are the same. */
  lemma SameGrid(a: Grid, c: Grid)
    requires Shaped(a) && Shaped(c) && a.batch == c.batch && a.heads == c.heads && a.rows == c.rows && a.width == c.width
    requires forall i, j, m :: InGrid(a, i, j, m) ==> Cnt(a, i, j, m) == Cnt(c, i, j, m)
    requires forall i, j, m, w :: InGrid(a, i, j, m) && 0 <= w < a.width ==> Idx(a, i, j, m, w) == Idx(c, i, j, m, w)
    ensures a == c
  {
    var b, h, M, width := a.batch, a.heads, a.rows, a.width;
    Sizes(b, h, M, width);
    forall r | 0 <= r < |a.cnt|
      ensures a.cnt[r] == c.cnt[r]
    {
      RowNoParts(r, b, h, M);
      SameCount(a, c, r);
    }
    forall e | 0 <= e < |a.idx|
      ensures a.idx[e] == c.idx[e]
    {
      SlotParts(e, b * h * M, width);
      SameSlot(a, c, e);
    }
  }

  lemma SameCount(a: Grid, c: Grid, r: int)
    requires Shaped(a) && Shaped(c) && a.batch == c.batch && a.heads == c.heads && a.rows == c.rows && 0 <= r < |a.cnt|
    requires forall i, j, m :: InGrid(a, i, j, m) ==> Cnt(a, i, j, m) == Cnt(c, i, j, m)
    ensures |a.cnt| == |c.cnt| && a.cnt[r] == c.cnt[r]
  {
    RowNoParts(r, a.batch, a.heads, a.rows);
    var i, j, m := r / a.rows / a.heads, r / a.rows % a.heads, r % a.rows;
    assert InGrid(a, i, j, m);
    assert Cnt(a, i, j, m) == Cnt(c, i, j, m);
    hide RowNo;
  }

  lemma SameSlot(a: Grid, c: Grid, e: int)
    requires Shaped(a) && Shaped(c) && a.batch == c.batch && a.heads == c.heads && a.rows == c.rows && a.width == c.width
    requires 0 <= e < |a.idx|
    requires forall i, j, m, w :: InGrid(a, i, j, m) && 0 <= w < a.width ==> Idx(a, i, j, m, w) == Idx(c, i, j, m, w)
    ensures |a.idx| == |c.idx| && a.idx[e] == c.idx[e]
  {
    Sizes(a.batch, a.heads, a.rows, a.width);
    SlotParts(e, a.batch * a.heads * a.rows, a.width);
    var r, w := e / a.width, e % a.width;
    RowNoParts(r, a.batch, a.heads, a.rows);
    var i, j, m := r / a.rows / a.heads, r / a.rows % a.heads, r % a.rows;
    assert InGrid(a, i, j, m);
    assert Idx(a, i, j, m, w) == Idx(c, i, j, m, w);
    hide RowNo;
  }

  /* Lists. */

  /** The live entries of row m. */
  function Live(a: Grid, i: int, j: int, m: int): (list: seq<int>)
    ensures |list| == Clamp(Cnt(a, i, j, m), a.width)
    ensures forall w :: 0 <= w < |list| ==> list[w] == Idx(a, i, j, m, w)
  {
    seq(Clamp(Cnt(a, i, j, m), a.width), w => Idx(a, i, j, m, w))
  }

  /** The same live entries. */
  lemma SameLive(a: Grid, c: Grid, i: int, j: int, m: int, k: int, l: int, n: int)
    requires Clamp(Cnt(a, i, j, m), a.width) == Clamp(Cnt(c, k, l, n), c.width)
    requires forall w :: 0 <= w < Clamp(Cnt(a, i, j, m), a.width) ==> Idx(a, i, j, m, w) == Idx(c, k, l, n, w)
    ensures Live(a, i, j, m) == Live(c, k, l, n)
  {
    hide Cnt, Idx, Clamp;
  }

  /** Rows below n whose list names column c, ascending. */
  function Naming(a: Grid, i: int, j: int, c: int, n: nat): (list: seq<int>)
    ensures Ascending(list) && InRange(list, n) && |list| <= n
    ensures forall m :: m in list <==> 0 <= m < n && c in Live(a, i, j, m)
  {
    if n == 0 then []
    else
      var before := Naming(a, i, j, c, n - 1);
      if c in Live(a, i, j, n - 1) then before + [n - 1] else before
  }

  function ColumnCounts(a: Grid): Counts { (i, j, c) => |Naming(a, i, j, c, a.rows)| }

  function ColumnSlots(a: Grid): Slots { (i, j, c, w) => At(Naming(a, i, j, c, a.rows), w) }

  /** Rows and columns exchanged, zeros behind the live entries. */
  function Transpose(a: Grid, cols: nat): (t: Grid)
    ensures Shaped(t) && t.batch == a.batch && t.heads == a.heads && t.rows == cols && t.width == AtLeast1(a.rows)
  {
    Tabulate(a.batch, a.heads, cols, AtLeast1(a.rows), ColumnCounts(a), ColumnSlots(a))
  }

  /** List c of the exchanged table: the rows that named c. */
  lemma TransposedList(a: Grid, cols: nat, i: int, j: int, c: int)
    requires 0 <= i < a.batch && 0 <= j < a.heads && 0 <= c < cols
    ensures Cnt(Transpose(a, cols), i, j, c) == |Naming(a, i, j, c, a.rows)|
    ensures Live(Transpose(a, cols), i, j, c) == Naming(a, i, j, c, a.rows)
    ensures forall w :: |Naming(a, i, j, c, a.rows)| <= w < AtLeast1(a.rows) ==> Idx(Transpose(a, cols), i, j, c, w) == 0
  {
    var t := Transpose(a, cols);
    TabulatedCount(a.batch, a.heads, cols, AtLeast1(a.rows), ColumnCounts(a), ColumnSlots(a), i, j, c);
    forall w | 0 <= w < AtLeast1(a.rows)
      ensures Idx(t, i, j, c, w) == At(Naming(a, i, j, c, a.rows), w)
    {
      TabulatedSlot(a.batch, a.heads, cols, AtLeast1(a.rows), ColumnCounts(a), ColumnSlots(a), i, j, c, w);
    }
    hide Tabulate, Cnt, Idx, Naming, Clamp;
  }

  /** Exchanging twice gives every list in ascending order, if its columns are in range. */
  lemma TransposedBack(a: Grid, cols: nat, u: Grid, i: int, j: int, m: int)
    requires InGrid(a, i, j, m) && Distinct(Live(a, i, j, m)) && InRange(Live(a, i, j, m), cols)
    requires u.batch == a.batch && u.heads == a.heads && u.rows == cols
    requires forall c :: 0 <= c < cols ==> Live(u, i, j, c) == Naming(a, i, j, c, a.rows)
    ensures SortedCopy(Live(a, i, j, m), Live(Transpose(u, a.rows), i, j, m))
  {
    TransposedList(u, a.rows, i, j, m);
    var list, back := Live(a, i, j, m), Naming(u, i, j, m, cols);
    hide Live, Transpose;
    forall c
      ensures c in list <==> c in back
    {
      if 0 <= c < cols {
        assert m in Live(u, i, j, c) <==> m in Naming(a, i, j, c, a.rows);
      }
    }
    hide Naming;
    SameMembersSorted(list, back);
  }

  /** Two tables exchange to the same one exactly if their rows name the same columns. */
  lemma SameTransposes(a: Grid, b: Grid, cols: nat)
    requires a.batch == b.batch && a.heads == b.heads && a.rows == b.rows
    ensures Transpose(a, cols) == Transpose(b, cols) <==> SameNames(a, b, cols)
  {
    if SameNames(a, b, cols) {
      forall i, j, c | InGrid(Transpose(a, cols), i, j, c)
        ensures Naming(a, i, j, c, a.rows) == Naming(b, i, j, c, b.rows)
      {
        SameNaming(a, b, cols, i, j, c);
      }
      EqualNaming(a, b, cols);
    }
    if Transpose(a, cols) == Transpose(b, cols) {
      forall i, j, m, c | InGrid(a, i, j, m) && 0 <= c < cols
        ensures Names(a, i, j, m, c) <==> Names(b, i, j, m, c)
      {
        TransposedList(a, cols, i, j, c);
        TransposedList(b, cols, i, j, c);
        hide Transpose, Live;
        assert m in Naming(a, i, j, c, a.rows) <==> m in Naming(b, i, j, c, b.rows);
      }
    }
  }

  predicate Names(a: Grid, i: int, j: int, m: int, c: int) { c in Live(a, i, j, m) }

  /** Every row names the same columns below `cols` in both. */
  ghost predicate SameNames(a: Grid, b: Grid, cols: nat) {
    forall i, j, m, c :: InGrid(a, i, j, m) && 0 <= c < cols ==> (Names(a, i, j, m, c) <==> Names(b, i, j, m, c))
  }

  lemma SameNaming(a: Grid, b: Grid, cols: nat, i: int, j: int, c: int)
    requires a.rows == b.rows && SameNames(a, b, cols) && 0 <= i < a.batch && 0 <= j < a.heads && 0 <= c < cols
    ensures Naming(a, i, j, c, a.rows) == Naming(b, i, j, c, b.rows)
  {
    var x, y := Naming(a, i, j, c, a.rows), Naming(b, i, j, c, b.rows);
    hide Live;
    forall m
      ensures m in x <==> m in y
    {
      if 0 <= m < a.rows {
        assert InGrid(a, i, j, m);
        assert Names(a, i, j, m, c) <==> Names(b, i, j, m, c);
      }
    }
    hide Naming;
    AscendingUnique(x, y);
  }

  lemma EqualNaming(a: Grid, b: Grid, cols: nat)
    requires a.batch == b.batch && a.heads == b.heads && a.rows == b.rows
    requires forall i, j, c :: InGrid(Transpose(a, cols), i, j, c) ==> Naming(a, i, j, c, a.rows) == Naming(b, i, j, c, b.rows)
    ensures Transpose(a, cols) == Transpose(b, cols)
  {
    var x, y := Transpose(a, cols), Transpose(b, cols);
    forall i, j, c | InGrid(x, i, j, c)
      ensures Cnt(x, i, j, c) == Cnt(y, i, j, c)
    {
      TabulatedCount(a.batch, a.heads, cols, AtLeast1(a.rows), ColumnCounts(a), ColumnSlots(a), i, j, c);
      TabulatedCount(b.batch, b.heads, cols, AtLeast1(b.rows), ColumnCounts(b), ColumnSlots(b), i, j, c);
      hide Tabulate, Cnt, Naming;
    }
    forall i, j, c, w | InGrid(x, i, j, c) && 0 <= w < x.width
      ensures Idx(x, i, j, c, w) == Idx(y, i, j, c, w)
    {
      TabulatedSlot(a.batch, a.heads, cols, AtLeast1(a.rows), ColumnCounts(a), ColumnSlots(a), i, j, c, w);
      TabulatedSlot(b.batch, b.heads, cols, AtLeast1(b.rows), ColumnCounts(b), ColumnSlots(b), i, j, c, w);
      hide Tabulate, Idx, Naming;
    }
    hide Transpose, Cnt, Idx, Naming;
    SameGrid(x, y);
  }

  /* Expanding, widening, and no lists at all. */

  /** Axis of length n, read at place i of the expanded axis. */
  function Bc(i: int, n: nat): int { if n == 1 then 0 else i }

  function SpreadCounts(a: Grid): Counts { (i, j, m) => Cnt(a, Bc(i, a.batch), Bc(j, a.heads), m) }

  function SpreadSlots(a: Grid): Slots { (i, j, m, w) => Idx(a, Bc(i, a.batch), Bc(j, a.heads), m, w) }

  /** Expand axes of length 1. */
  function Spread(a: Grid, b: nat, h: nat): (r: Grid)
    ensures Shaped(r) && r.batch == b && r.heads == h && r.rows == a.rows && r.width == a.width
  {
    Tabulate(b, h, a.rows, a.width, SpreadCounts(a), SpreadSlots(a))
  }

  lemma SpreadList(a: Grid, b: nat, h: nat, i: int, j: int, m: int)
    requires 0 <= i < b && 0 <= j < h && 0 <= m < a.rows
    ensures Cnt(Spread(a, b, h), i, j, m) == Cnt(a, Bc(i, a.batch), Bc(j, a.heads), m)
    ensures forall w :: 0 <= w < a.width ==> Idx(Spread(a, b, h), i, j, m, w) == Idx(a, Bc(i, a.batch), Bc(j, a.heads), m, w)
    ensures Live(Spread(a, b, h), i, j, m) == Live(a, Bc(i, a.batch), Bc(j, a.heads), m)
  {
    TabulatedCount(b, h, a.rows, a.width, SpreadCounts(a), SpreadSlots(a), i, j, m);
    forall w | 0 <= w < a.width
      ensures Idx(Spread(a, b, h), i, j, m, w) == Idx(a, Bc(i, a.batch), Bc(j, a.heads), m, w)
    {
      TabulatedSlot(b, h, a.rows, a.width, SpreadCounts(a), SpreadSlots(a), i, j, m, w);
    }
    hide Tabulate, Cnt, Idx, Bc;
  }

  function PaddedCounts(a: Grid): Counts { (i, j, m) => Cnt(a, i, j, m) }

  function PaddedSlots(a: Grid): Slots { (i, j, m, w) => if w < a.width then Idx(a, i, j, m, w) else 0 }

  /** Widen the slots with zeros. */
  function Padded(a: Grid, width: nat): (r: Grid)
    ensures Shaped(r) && r.batch == a.batch && r.heads == a.heads && r.rows == a.rows && r.width == width
  {
    Tabulate(a.batch, a.heads, a.rows, width, PaddedCounts(a), PaddedSlots(a))
  }

  lemma PaddedCells(a: Grid, width: nat, i: int, j: int, m: int)
    requires InGrid(a, i, j, m) && a.width <= width
    ensures Cnt(Padded(a, width), i, j, m) == Cnt(a, i, j, m)
    ensures forall w :: 0 <= w < a.width ==> Idx(Padded(a, width), i, j, m, w) == Idx(a, i, j, m, w)
  {
    TabulatedCount(a.batch, a.heads, a.rows, width, PaddedCounts(a), PaddedSlots(a), i, j, m);
    forall w | 0 <= w < a.width
      ensures Idx(Padded(a, width), i, j, m, w) == Idx(a, i, j, m, w)
    {
      TabulatedSlot(a.batch, a.heads, a.rows, width, PaddedCounts(a), PaddedSlots(a), i, j, m, w);
    }
    hide Tabulate, Cnt, Idx;
  }

  /** Widening changes no list whose count is in range, and loses no cell. */
  lemma PaddedList(a: Grid, width: nat, i: int, j: int, m: int)
    requires InGrid(a, i, j, m) && a.width <= width && Cnt(a, i, j, m) <= a.width
    ensures Live(Padded(a, width), i, j, m) == Live(a, i, j, m)
  {
    PaddedCells(a, width, i, j, m);
    hide Padded, Cnt, Idx;
    SameLive(a, Padded(a, width), i, j, m, i, j, m);
  }

  lemma PaddedApart(a: Grid, b: Grid, width: nat)
    requires Shaped(a) && Shaped(b) && a.batch == b.batch && a.heads == b.heads && a.rows == b.rows && a.width == b.width <= width
    ensures Padded(a, width) == Padded(b, width) ==> a == b
  {
    if Padded(a, width) == Padded(b, width) {
      forall i, j, m | InGrid(a, i, j, m)
        ensures Cnt(a, i, j, m) == Cnt(b, i, j, m)
      {
        PaddedCells(a, width, i, j, m);
        PaddedCells(b, width, i, j, m);
        hide *;
      }
      forall i, j, m, w | InGrid(a, i, j, m) && 0 <= w < a.width
        ensures Idx(a, i, j, m, w) == Idx(b, i, j, m, w)
      {
        PaddedCells(a, width, i, j, m);
        PaddedCells(b, width, i, j, m);
        hide *;
      }
      hide Padded, Cnt, Idx;
      SameGrid(a, b);
    }
  }

  /** All lists empty. */
  function Empty(a: Grid): (r: Grid)
    ensures r.batch == a.batch && r.heads == a.heads && r.rows == a.rows && r.width == a.width
    ensures Shaped(a) ==> Shaped(r)
  {
    a.(cnt := seq(|a.cnt|, _ => 0), idx := seq(|a.idx|, _ => 0))
  }

  lemma EmptyList(a: Grid, i: int, j: int, m: int)
    ensures Cnt(Empty(a), i, j, m) == 0 && Live(Empty(a), i, j, m) == []
  {
    hide RowNo;
  }
}
