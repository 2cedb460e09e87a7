/** Where the combine step writes: the map from the flat rows of a split task to output rows,
    the division of a task between two vector sub-blocks, and the three ways a tile of rows
    is copied out. Output and partial-output buffers are sequences of whole rows of
    `headSizeV` values; offsets are in elements, as in the program. */
module CombineRows {
  import opened Arith
  import opened SplitRecords

  function QLen(t: SplitNode): int { t.qEndIdx - t.qStartIdx }

  function NLen(t: SplitNode): int { t.headEndIdx - t.headStartIdx }

  function Rows(t: SplitNode): int { QLen(t) * NLen(t) }

  /** Rows of the first sub-block. */
  function SumFormer(t: SplitNode): int {
    if QLen(t) == 1 then Rows(t) / 2 else QLen(t) / 2 * NLen(t)
  }

  /** A record written by the split pass. */
  ghost predicate ValidTask(t: SplitNode, qHeads: int, headSizeV: int) {
    && 0 <= t.qStartIdx < t.qEndIdx
    && 0 <= t.headStartIdx < t.headEndIdx <= qHeads
    && t.splitNum >= 1 && t.lseTaskOffset >= 0
    && headSizeV >= 1 && t.oTaskOffset == t.lseTaskOffset * headSizeV
  }

  function HalfStart(t: SplitNode, half: int): int { if half == 0 then 0 else SumFormer(t) }

  function HalfRows(t: SplitNode, half: int): int { if half == 0 then SumFormer(t) else Rows(t) - SumFormer(t) }

  /** Output row of flat row r: row-major over (query row, head) inside the split tile, and over
      (token, head) in the output. */
  function RowIndex(t: SplitNode, qHeads: int, prevQ: int, r: int): int
    requires NLen(t) >= 1
  {
    (prevQ + t.qStartIdx + r / NLen(t)) * qHeads + t.headStartIdx + r % NLen(t)
  }

  lemma RowsPositive(t: SplitNode, qHeads: int, headSizeV: int)
    requires ValidTask(t, qHeads, headSizeV)
    ensures NLen(t) >= 1 && QLen(t) >= 1 && Rows(t) >= 1 && 0 <= SumFormer(t) < Rows(t)
  {
    MulMono(1, QLen(t), NLen(t));
    MulMono(0, QLen(t) / 2, NLen(t));
    MulMono(QLen(t) / 2 + 1, QLen(t), NLen(t));
    assert (QLen(t) / 2 + 1) * NLen(t) == QLen(t) / 2 * NLen(t) + NLen(t);
    if QLen(t) == 1 { assert Rows(t) == NLen(t); } else { assert QLen(t) / 2 + 1 <= QLen(t); }
  }

  /** The halves differ by one row, or by the rows of one query: then both start with a query row. */
  lemma HalvesEven(t: SplitNode, qHeads: int, headSizeV: int)
    requires ValidTask(t, qHeads, headSizeV)
    ensures 0 <= HalfRows(t, 1) - HalfRows(t, 0) <= if QLen(t) == 1 then 1 else NLen(t)
    ensures QLen(t) > 1 ==> HalfStart(t, 1) % NLen(t) == 0
  {
    RowsPositive(t, qHeads, headSizeV);
    var h, n := QLen(t) / 2, NLen(t);
    if QLen(t) > 1 {
      assert Rows(t) == (2 * h + QLen(t) % 2) * n == 2 * (h * n) + QLen(t) % 2 * n by { AddMultiples(2 * h, QLen(t) % 2, n); }
      NextMultiple(h, n);
      DivideBetween(h * n, n, h);
    } else {
      assert Rows(t) == n;
    }
  }

  /** Output rows ascend with the flat rows; so no output row is hit twice. */
  lemma RowIndexAscends(t: SplitNode, qHeads: int, prevQ: int, headSizeV: int, r: int, r': int)
    requires ValidTask(t, qHeads, headSizeV) && 0 <= r < r'
    ensures RowIndex(t, qHeads, prevQ, r) < RowIndex(t, qHeads, prevQ, r')
  {
    var n, base := NLen(t), prevQ + t.qStartIdx;
    var q, q' := r / n, r' / n;
    assert r == q * n + r % n && r' == q' * n + r' % n;
    assert q <= q' by { if q > q' { MulMono(q' + 1, q, n); NextMultiple(q', n); } }
    if q < q' {
      MulMono(base + q + 1, base + q', qHeads);
      NextMultiple(base + q, qHeads);
    }
  }

  /** Inside one query row the output rows are consecutive. */
  lemma RowIndexRun(t: SplitNode, qHeads: int, prevQ: int, r: int, j: int)
    requires NLen(t) >= 1 && 0 <= r && 0 <= j && r % NLen(t) + j < NLen(t)
    ensures RowIndex(t, qHeads, prevQ, r + j) == RowIndex(t, qHeads, prevQ, r) + j
  {
    var n := NLen(t);
    assert r == r / n * n + r % n;
    NextMultiple(r / n, n);
    DivideBetween(r + j, n, r / n);
  }

  /** From the start of a query row on, query rows and heads separate. */
  lemma RowIndexFrom(t: SplitNode, qHeads: int, prevQ: int, hs: int, f: int)
    requires NLen(t) >= 1 && 0 <= hs && hs % NLen(t) == 0 && 0 <= f
    ensures (hs + f) % NLen(t) == f % NLen(t)
    ensures RowIndex(t, qHeads, prevQ, hs + f)
         == RowIndex(t, qHeads, prevQ, hs) + f / NLen(t) * qHeads + f % NLen(t)
  {
    var n, base := NLen(t), prevQ + t.qStartIdx;
    var k, q := hs / n, f / n;
    assert hs == k * n && f == q * n + f % n;
    AddMultiples(k, q, n);
    NextMultiple(k + q, n);
    DivideBetween(hs + f, n, k + q);
    AddMultiples(base + k, q, qHeads);
  }

  /* Copying rows out. */

  type Row = seq<real>

  /** Output row of the i-th row from flat row r on. */
  function RowAt(t: SplitNode, qHeads: int, prevQ: int, r: int, i: int): int
    requires NLen(t) >= 1
  {
    RowIndex(t, qHeads, prevQ, r + i)
  }

  ghost predicate Hit(t: SplitNode, qHeads: int, prevQ: int, r: int, count: int, x: int)
    requires NLen(t) >= 1
  {
    exists i :: 0 <= i < count && RowAt(t, qHeads, prevQ, r, i) == x
  }

  /** The rows from flat row r on hold `rows`; every other output row is as before. */
  ghost predicate Written(t: SplitNode, qHeads: int, prevQ: int, before: seq<Row>, after: seq<Row>, r: int, rows: seq<Row>)
    requires NLen(t) >= 1
  {
    && |after| == |before|
    && (forall i :: 0 <= i < |rows| ==>
                      0 <= RowAt(t, qHeads, prevQ, r, i) < |after| && after[RowAt(t, qHeads, prevQ, r, i)] == rows[i])
    && (forall x :: 0 <= x < |after| && !Hit(t, qHeads, prevQ, r, |rows|, x) ==> after[x] == before[x])
  }

  /** All rows of the split tile are inside the output. */
  ghost predicate Fits(t: SplitNode, qHeads: int, prevQ: int, headSizeV: int, len: int) {
    ValidTask(t, qHeads, headSizeV) && prevQ >= 0 && RowIndex(t, qHeads, prevQ, Rows(t) - 1) < len
  }

  lemma FitsRow(t: SplitNode, qHeads: int, prevQ: int, headSizeV: int, len: int, r: int)
    requires Fits(t, qHeads, prevQ, headSizeV, len) && 0 <= r < Rows(t)
    ensures NLen(t) >= 1 && 0 <= RowIndex(t, qHeads, prevQ, r) < len
  {
    FitsParts(t, qHeads, prevQ, headSizeV, len);
    hide *;
    if r < Rows(t) - 1 {
      RowIndexAscends(t, qHeads, prevQ, headSizeV, r, Rows(t) - 1);
    }
    RowIndexNatural(t, qHeads, headSizeV, prevQ, r);
  }

  lemma FitsParts(t: SplitNode, qHeads: int, prevQ: int, headSizeV: int, len: int)
    requires Fits(t, qHeads, prevQ, headSizeV, len)
    ensures ValidTask(t, qHeads, headSizeV) && prevQ >= 0 && NLen(t) >= 1 && RowIndex(t, qHeads, prevQ, Rows(t) - 1) < len
  {
    hide RowIndex;
  }

  lemma RowIndexNatural(t: SplitNode, qHeads: int, headSizeV: int, prevQ: int, r: int)
    requires ValidTask(t, qHeads, headSizeV) && prevQ >= 0 && r >= 0 && NLen(t) >= 1
    ensures RowIndex(t, qHeads, prevQ, r) >= 0
  {
    MulMono(0, prevQ + t.qStartIdx + r / NLen(t), qHeads);
  }

  lemma WrittenNothing(t: SplitNode, qHeads: int, prevQ: int, before: seq<Row>, r: int)
    requires NLen(t) >= 1
    ensures Written(t, qHeads, prevQ, before, before, r, [])
  {
  }

  lemma WrittenExtends(t: SplitNode, qHeads: int, prevQ: int, headSizeV: int, before: seq<Row>, mid: seq<Row>, after: seq<Row>,
                       r: int, rows: seq<Row>, more: seq<Row>)
    requires ValidTask(t, qHeads, headSizeV) && 0 <= r
    requires Written(t, qHeads, prevQ, before, mid, r, rows)
    requires Written(t, qHeads, prevQ, mid, after, r + |rows|, more)
    ensures Written(t, qHeads, prevQ, before, after, r, rows + more)
  {
    var all := rows + more;
    forall i | 0 <= i < |all|
      ensures 0 <= RowAt(t, qHeads, prevQ, r, i) < |after| && after[RowAt(t, qHeads, prevQ, r, i)] == all[i]
    {
      if i < |rows| {
        NotHitLater(t, qHeads, prevQ, headSizeV, r, i, |rows|, |more|);
      } else {
        assert RowAt(t, qHeads, prevQ, r, i) == RowAt(t, qHeads, prevQ, r + |rows|, i - |rows|);
      }
    }
    forall x | 0 <= x < |after| && !Hit(t, qHeads, prevQ, r, |all|, x)
      ensures after[x] == before[x]
    {
      HitGrows(t, qHeads, prevQ, r, |rows|, |more|, x);
    }
  }

  lemma NotHitLater(t: SplitNode, qHeads: int, prevQ: int, headSizeV: int, r: int, i: int, m: int, n: int)
    requires ValidTask(t, qHeads, headSizeV) && 0 <= r && 0 <= i < m
    ensures !Hit(t, qHeads, prevQ, r + m, n, RowAt(t, qHeads, prevQ, r, i))
  {
    var s := r + m;
    forall j | 0 <= j < n
      ensures RowAt(t, qHeads, prevQ, s, j) != RowAt(t, qHeads, prevQ, r, i)
    {
      RowIndexAscends(t, qHeads, prevQ, headSizeV, r + i, r + m + j);
    }
  }

  lemma HitGrows(t: SplitNode, qHeads: int, prevQ: int, r: int, m: int, n: int, x: int)
    requires NLen(t) >= 1 && 0 <= m && 0 <= n && !Hit(t, qHeads, prevQ, r, m + n, x)
    ensures !Hit(t, qHeads, prevQ, r, m, x) && !Hit(t, qHeads, prevQ, r + m, n, x)
  {
    var s := r + m;
    forall j | 0 <= j < n
      ensures RowAt(t, qHeads, prevQ, s, j) != x
    {
      assert RowAt(t, qHeads, prevQ, r, m + j) == RowAt(t, qHeads, prevQ, s, j);
    }
  }

  /** One block copy of `count` rows to element offset `off`. */
  method CopyRows(oGm: array<Row>, off: int, headSizeV: int, tile: seq<Row>, ubRow: int, count: int)
    requires headSizeV >= 1 && 0 <= ubRow && 0 <= count && ubRow + count <= |tile|
    requires off % headSizeV == 0 && 0 <= off / headSizeV && off / headSizeV + count <= oGm.Length
    modifies oGm
    ensures forall x :: 0 <= x < oGm.Length ==>
                          oGm[x] == if off / headSizeV <= x < off / headSizeV + count then tile[ubRow + x - off / headSizeV]
                                    else old(oGm[x])
  {
    var base := off / headSizeV;
    for i := 0 to count
      invariant forall x :: 0 <= x < oGm.Length ==>
                              oGm[x] == if base <= x < base + i then tile[ubRow + x - base] else old(oGm[x])
    {
      oGm[base + i] := tile[ubRow + i];
    }
  }

  /** A block copy of consecutive rows of one query row puts them where the row map says. */
  lemma RunWritten(t: SplitNode, qHeads: int, prevQ: int, before: seq<Row>, after: seq<Row>, r: int, rows: seq<Row>, base: int)
    requires NLen(t) >= 1 && 0 <= r && r % NLen(t) + |rows| <= NLen(t)
    requires base == RowIndex(t, qHeads, prevQ, r) && 0 <= base && base + |rows| <= |after| == |before|
    requires forall x :: 0 <= x < |after| ==> after[x] == if base <= x < base + |rows| then rows[x - base] else before[x]
    ensures Written(t, qHeads, prevQ, before, after, r, rows)
  {
    forall i | 0 <= i < |rows|
      ensures RowAt(t, qHeads, prevQ, r, i) == base + i
    {
      RowIndexRun(t, qHeads, prevQ, r, i);
    }
    hide RowAt, RowIndex;
    forall x | base <= x < base + |rows|
      ensures Hit(t, qHeads, prevQ, r, |rows|, x)
    {
      assert RowAt(t, qHeads, prevQ, r, x - base) == x;
    }
  }

  /** Copy the rows of one run, `count` rows of one query row starting at flat row r. */
  method PutRun(oGm: array<Row>, ghost t: SplitNode, ghost qHeads: int, ghost prevQ: int, off: int, headSizeV: int,
                ghost r: int, tile: seq<Row>, ubRow: int, count: int)
    requires Fits(t, qHeads, prevQ, headSizeV, oGm.Length) && NLen(t) >= 1
    requires 0 <= r && 0 < count && r + count <= Rows(t) && r % NLen(t) + count <= NLen(t)
    requires off == RowIndex(t, qHeads, prevQ, r) * headSizeV
    requires 0 <= ubRow && ubRow + count <= |tile|
    modifies oGm
    ensures Written(t, qHeads, prevQ, old(oGm[..]), oGm[..], r, tile[ubRow..ubRow + count])
  {
    ghost var base := RowIndex(t, qHeads, prevQ, r);
    FitsRow(t, qHeads, prevQ, headSizeV, oGm.Length, r);
    FitsRow(t, qHeads, prevQ, headSizeV, oGm.Length, r + count - 1);
    RowIndexRun(t, qHeads, prevQ, r, count - 1);
    hide *;
    NextMultiple(base, headSizeV);
    DivideBetween(off, headSizeV, base);
    CopyRows(oGm, off, headSizeV, tile, ubRow, count);
    RunWritten(t, qHeads, prevQ, old(oGm[..]), oGm[..], r, tile[ubRow..ubRow + count], base);
  }
}
