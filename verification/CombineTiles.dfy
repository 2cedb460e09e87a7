/** The three ways a tile of merged rows is copied out; all three realise the same row map. */
module CombineTiles {
  import opened Arith
  import opened SplitRecords
  import opened CombineRows

  /** Element offset of the first output row of a half task. */
  function GmOScalar(t: SplitNode, qHeads: int, headSizeV: int, prevQ: int, half: int): int {
    var base := prevQ * qHeads * headSizeV + t.qStartIdx * qHeads * headSizeV + t.headStartIdx * headSizeV;
    if half == 0 then base
    else if QLen(t) == 1 then base + SumFormer(t) * headSizeV
    else base + QLen(t) / 2 * qHeads * headSizeV
  }

  lemma Factor3(a: int, b: int, c: int, m: int, d: int)
    ensures a * m * d + b * m * d + c * d == ((a + b) * m + c) * d
  {
    assert (a + b) * m == a * m + b * m;
    assert ((a + b) * m + c) * d == (a + b) * m * d + c * d;
    assert (a * m + b * m) * d == a * m * d + b * m * d;
  }

  lemma HalfAligned(t: SplitNode, qHeads: int, headSizeV: int, half: int)
    requires ValidTask(t, qHeads, headSizeV) && QLen(t) > 1
    ensures NLen(t) >= 1 && HalfStart(t, half) >= 0 && HalfStart(t, half) % NLen(t) == 0
    ensures HalfStart(t, half) / NLen(t) == if half == 0 then 0 else QLen(t) / 2
  {
    NextMultiple(QLen(t) / 2, NLen(t));
    MulMono(0, QLen(t) / 2, NLen(t));
    DivideBetween(QLen(t) / 2 * NLen(t), NLen(t), QLen(t) / 2);
  }

  /** The base offset of a half is the row map at its first flat row. */
  lemma GmOScalarIsRow(t: SplitNode, qHeads: int, headSizeV: int, prevQ: int, half: int)
    requires ValidTask(t, qHeads, headSizeV)
    ensures NLen(t) >= 1 && HalfStart(t, half) >= 0
    ensures GmOScalar(t, qHeads, headSizeV, prevQ, half) == RowIndex(t, qHeads, prevQ, HalfStart(t, half)) * headSizeV
  {
    var hs, q := HalfStart(t, half), QLen(t) / 2;
    RowsPositive(t, qHeads, headSizeV);
    Factor3(prevQ, t.qStartIdx, t.headStartIdx, qHeads, headSizeV);
    if half == 0 {
      RowIndexOf(t, qHeads, prevQ, hs, 0, 0);
    } else if QLen(t) == 1 {
      assert Rows(t) == NLen(t);
      hide Rows, SumFormer;
      Remainder(hs, NLen(t));
      RowIndexOf(t, qHeads, prevQ, hs, 0, hs);
      AddMultiples((prevQ + t.qStartIdx) * qHeads + t.headStartIdx, hs, headSizeV);
    } else {
      HalfAligned(t, qHeads, headSizeV, half);
      hide SumFormer, Rows;
      RowIndexOf(t, qHeads, prevQ, hs, q, 0);
      AddMultiples((prevQ + t.qStartIdx) * qHeads + t.headStartIdx, q * qHeads, headSizeV);
    }
  }

  lemma RowIndexOf(t: SplitNode, qHeads: int, prevQ: int, r: int, q: int, h: int)
    requires NLen(t) >= 1 && r / NLen(t) == q && r % NLen(t) == h
    ensures RowIndex(t, qHeads, prevQ, r) == (prevQ + t.qStartIdx) * qHeads + t.headStartIdx + q * qHeads + h
  {
    AddMultiples(prevQ + t.qStartIdx, q, qHeads);
  }

  /** Offset of a whole query row inside a half, and of a head inside it. */
  lemma OffsetFrom(t: SplitNode, qHeads: int, headSizeV: int, prevQ: int, hs: int, f: int, gm: int)
    requires NLen(t) >= 1 && 0 <= hs && hs % NLen(t) == 0 && 0 <= f
    requires gm == RowIndex(t, qHeads, prevQ, hs) * headSizeV
    ensures RowIndex(t, qHeads, prevQ, hs + f) * headSizeV
         == gm + f / NLen(t) * qHeads * headSizeV + f % NLen(t) * headSizeV
    ensures (hs + f) % NLen(t) == f % NLen(t)
  {
    RowIndexFrom(t, qHeads, prevQ, hs, f);
    hide RowIndex;
    AddMultiples(RowIndex(t, qHeads, prevQ, hs) + f / NLen(t) * qHeads, f % NLen(t), headSizeV);
    AddMultiples(RowIndex(t, qHeads, prevQ, hs), f / NLen(t) * qHeads, headSizeV);
  }

  /** With a single query row the tile starts inside that row. */
  lemma SingleOffset(t: SplitNode, qHeads: int, headSizeV: int, prevQ: int, hs: int, tileStart: int, count: int, gm: int)
    requires NLen(t) >= 1 && QLen(t) == 1
    requires gm == RowIndex(t, qHeads, prevQ, hs) * headSizeV
    requires 0 <= hs && 0 <= tileStart && 0 < count && hs + tileStart + count <= Rows(t)
    ensures (hs + tileStart) % NLen(t) + count <= NLen(t)
    ensures RowIndex(t, qHeads, prevQ, hs + tileStart) * headSizeV == gm + tileStart * headSizeV
  {
    assert Rows(t) == NLen(t);
    Remainder(hs + tileStart, NLen(t));
    Remainder(hs, NLen(t));
    RowIndexRun(t, qHeads, prevQ, hs, tileStart);
    hide *;
    AddMultiples(RowIndex(t, qHeads, prevQ, hs), tileStart, headSizeV);
  }

  lemma Remainder(x: int, n: int)
    requires 0 <= x < n
    ensures x % n == x && x / n == 0
  {
  }

  /** Query tiles of length one: a single block copy. */
  method WriteSingleQuery(oGm: array<Row>, t: SplitNode, qHeads: int, headSizeV: int, gmOScalar: int, tileStart: int,
                          tile: seq<Row>, ghost prevQ: int, ghost hs: int)
    requires Fits(t, qHeads, prevQ, headSizeV, oGm.Length) && NLen(t) >= 1 && QLen(t) == 1
    requires gmOScalar == RowIndex(t, qHeads, prevQ, hs) * headSizeV
    requires 0 <= hs && 0 <= tileStart && 0 < |tile| && hs + tileStart + |tile| <= Rows(t)
    modifies oGm
    ensures Written(t, qHeads, prevQ, old(oGm[..]), oGm[..], hs + tileStart, tile)
  {
    hide *;
    SingleOffset(t, qHeads, headSizeV, prevQ, hs, tileStart, |tile|, gmOScalar);
    PutRun(oGm, t, qHeads, prevQ, gmOScalar + tileStart * headSizeV, headSizeV, hs + tileStart, tile, 0, |tile|);
    assert tile[0..0 + |tile|] == tile;
  }

  /** A tile of whole query rows: one block copy per query row. */
  method WriteWholeQueries(oGm: array<Row>, t: SplitNode, qHeads: int, headSizeV: int, gmOScalar: int, tileStart: int,
                           tile: seq<Row>, ghost prevQ: int, ghost hs: int)
    requires Fits(t, qHeads, prevQ, headSizeV, oGm.Length) && NLen(t) >= 1
    requires gmOScalar == RowIndex(t, qHeads, prevQ, hs) * headSizeV
    requires 0 <= hs && hs % NLen(t) == 0 && 0 <= tileStart && hs + tileStart + |tile| <= Rows(t)
    requires tileStart % NLen(t) == 0 && |tile| % NLen(t) == 0
    modifies oGm
    ensures Written(t, qHeads, prevQ, old(oGm[..]), oGm[..], hs + tileStart, tile)
  {
    hide *;
    var n := t.headEndIdx - t.headStartIdx;
    assert n == NLen(t) by { NLenIs(t); }
    var qTile := |tile| / n;
    assert qTile * n == |tile|;
    var gmTileOffset := tileStart / n * qHeads * headSizeV;
    WrittenNothing(t, qHeads, prevQ, oGm[..], hs + tileStart);
    assert tile[..0] == [];
    for qi := 0 to qTile
      invariant 0 <= qi * n <= |tile|
      invariant Written(t, qHeads, prevQ, old(oGm[..]), oGm[..], hs + tileStart, tile[..qi * n])
    {
      NextMultiple(qi, n);
      MulMono(qi + 1, qTile, n);
      ghost var mid := oGm[..];
      QueryRowOffset(t, qHeads, headSizeV, prevQ, hs, tileStart, qi, gmOScalar);
      PutRun(oGm, t, qHeads, prevQ, gmOScalar + gmTileOffset + qi * qHeads * headSizeV, headSizeV,
             hs + tileStart + qi * n, tile, qi * n, n);
      FitsTask(t, qHeads, prevQ, headSizeV, oGm.Length);
      WrittenExtends(t, qHeads, prevQ, headSizeV, old(oGm[..]), mid, oGm[..], hs + tileStart, tile[..qi * n], tile[qi * n..qi * n + n]);
      assert tile[..qi * n] + tile[qi * n..qi * n + n] == tile[..qi * n + n];
    }
    assert tile[..qTile * n] == tile;
  }

  lemma NLenIs(t: SplitNode)
    ensures NLen(t) == t.headEndIdx - t.headStartIdx
  {
  }

  lemma FitsTask(t: SplitNode, qHeads: int, prevQ: int, headSizeV: int, len: int)
    requires Fits(t, qHeads, prevQ, headSizeV, len)
    ensures ValidTask(t, qHeads, headSizeV)
  {
  }

  lemma QueryRowOffset(t: SplitNode, qHeads: int, headSizeV: int, prevQ: int, hs: int, tileStart: int, qi: int, gm: int)
    requires NLen(t) >= 1 && 0 <= hs && hs % NLen(t) == 0 && 0 <= tileStart && tileStart % NLen(t) == 0 && 0 <= qi
    requires gm == RowIndex(t, qHeads, prevQ, hs) * headSizeV
    ensures RowIndex(t, qHeads, prevQ, hs + tileStart + qi * NLen(t)) * headSizeV
         == gm + tileStart / NLen(t) * qHeads * headSizeV + qi * qHeads * headSizeV
    ensures (hs + tileStart + qi * NLen(t)) % NLen(t) == 0 && qi * NLen(t) >= 0
  {
    var n, k := NLen(t), tileStart / NLen(t);
    var f := tileStart + qi * n;
    hide NLen, RowIndex;
    MulMono(0, qi, n);
    AddMultiples(k, qi, n);
    assert f == (k + qi) * n;
    NextMultiple(k + qi, n);
    DivideBetween(f, n, k + qi);
    OffsetFrom(t, qHeads, headSizeV, prevQ, hs, f, gm);
    AddMultiples(k, qi, qHeads);
    AddMultiples(k * qHeads, qi * qHeads, headSizeV);
  }

  /** The run of rows that starts inside a query row. */
  lemma RaggedRun(t: SplitNode, qHeads: int, headSizeV: int, prevQ: int, hs: int, f: int, gm: int)
    requires NLen(t) >= 1 && 0 <= hs && hs % NLen(t) == 0 && 0 <= f
    requires gm == RowIndex(t, qHeads, prevQ, hs) * headSizeV
    ensures RowIndex(t, qHeads, prevQ, hs + f) * headSizeV
         == gm + (f / NLen(t) * qHeads * headSizeV + f % NLen(t) * headSizeV)
    ensures (hs + f) % NLen(t) == f % NLen(t) && 0 <= f % NLen(t) < NLen(t)
  {
    OffsetFrom(t, qHeads, headSizeV, prevQ, hs, f, gm);
  }

  /** A tile that starts or ends inside a query row: runs that stop at the end of each query row. */
  method WriteRagged(oGm: array<Row>, t: SplitNode, qHeads: int, headSizeV: int, gmOScalar: int, tileStart: int,
                     tile: seq<Row>, ghost prevQ: int, ghost hs: int)
    requires Fits(t, qHeads, prevQ, headSizeV, oGm.Length) && NLen(t) >= 1
    requires gmOScalar == RowIndex(t, qHeads, prevQ, hs) * headSizeV
    requires 0 <= hs && hs % NLen(t) == 0 && 0 <= tileStart && hs + tileStart + |tile| <= Rows(t)
    modifies oGm
    ensures Written(t, qHeads, prevQ, old(oGm[..]), oGm[..], hs + tileStart, tile)
  {
    hide *;
    var n := t.headEndIdx - t.headStartIdx;
    assert n == NLen(t) by { NLenIs(t); }
    FitsTask(t, qHeads, prevQ, headSizeV, oGm.Length);
    var remaining, ubRow, flatIdx := |tile|, 0, tileStart;
    WrittenNothing(t, qHeads, prevQ, oGm[..], hs + tileStart);
    assert tile[..0] == [];
    while remaining > 0
      invariant 0 <= remaining && ubRow == |tile| - remaining && 0 <= ubRow && flatIdx == tileStart + ubRow
      invariant Written(t, qHeads, prevQ, old(oGm[..]), oGm[..], hs + tileStart, tile[..ubRow])
    {
      var qIdx, nStart := flatIdx / n, flatIdx % n;
      var nCount := if n - nStart < remaining then n - nStart else remaining;
      var gmOff := qIdx * qHeads * headSizeV + nStart * headSizeV;
      RaggedRun(t, qHeads, headSizeV, prevQ, hs, flatIdx, gmOScalar);
      ghost var mid := oGm[..];
      PutRun(oGm, t, qHeads, prevQ, gmOScalar + gmOff, headSizeV, hs + flatIdx, tile, ubRow, nCount);
      WrittenExtends(t, qHeads, prevQ, headSizeV, old(oGm[..]), mid, oGm[..], hs + tileStart, tile[..ubRow], tile[ubRow..ubRow + nCount]);
      assert tile[..ubRow] + tile[ubRow..ubRow + nCount] == tile[..ubRow + nCount];
      ubRow := ubRow + nCount;
      flatIdx := flatIdx + nCount;
      remaining := remaining - nCount;
    }
    assert tile[..ubRow] == tile;
  }

  /** Copy out a tile of merged rows, `tileStart` rows into its half: whichever of the three
      ways is taken, the rows land where the row map says and nothing else changes. */
  method WriteTile(oGm: array<Row>, t: SplitNode, qHeads: int, headSizeV: int, prevQ: int, half: int, tileStart: int, tile: seq<Row>)
    requires Fits(t, qHeads, prevQ, headSizeV, oGm.Length) && NLen(t) >= 1
    requires 0 <= tileStart && 0 < |tile| && tileStart + |tile| <= HalfRows(t, half)
    modifies oGm
    ensures Written(t, qHeads, prevQ, old(oGm[..]), oGm[..], HalfStart(t, half) + tileStart, tile)
  {
    hide *;
    FitsTask(t, qHeads, prevQ, headSizeV, oGm.Length);
    HalfEnd(t, qHeads, headSizeV, half);
    var gmOScalar := GmOScalar(t, qHeads, headSizeV, prevQ, half);
    GmOScalarIsRow(t, qHeads, headSizeV, prevQ, half);
    ghost var hs := HalfStart(t, half);
    var n := NLen(t);
    if QLen(t) == 1 {
      WriteSingleQuery(oGm, t, qHeads, headSizeV, gmOScalar, tileStart, tile, prevQ, hs);
    } else {
      MoreQueries(t, qHeads, headSizeV, half);
      if tileStart % n == 0 && |tile| % n == 0 {
        WriteWholeQueries(oGm, t, qHeads, headSizeV, gmOScalar, tileStart, tile, prevQ, hs);
      } else {
        WriteRagged(oGm, t, qHeads, headSizeV, gmOScalar, tileStart, tile, prevQ, hs);
      }
    }
  }

  lemma HalfEnd(t: SplitNode, qHeads: int, headSizeV: int, half: int)
    requires ValidTask(t, qHeads, headSizeV)
    ensures HalfStart(t, half) + HalfRows(t, half) <= Rows(t)
  {
    RowsPositive(t, qHeads, headSizeV);
  }

  lemma MoreQueries(t: SplitNode, qHeads: int, headSizeV: int, half: int)
    requires ValidTask(t, qHeads, headSizeV) && QLen(t) != 1
    ensures NLen(t) >= 1 && HalfStart(t, half) >= 0 && HalfStart(t, half) % NLen(t) == 0
  {
    HalfAligned(t, qHeads, headSizeV, half);
  }
}
