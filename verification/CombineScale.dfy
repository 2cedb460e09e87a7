/** The combine step: every vector sub-block takes the half tasks at its stride, merges their
    log-sum-exps, and merges and copies out their rows tile by tile. */
module CombineScale {
  import opened Arith
  import opened SplitRecords
  import opened CombineMath
  import opened CombineRows
  import opened CombineTiles
  import opened CombineMerge
  import opened CombineHalf
  import opened CombineCells
  import opened CombineLse

  const LINE_SIZE := 32768

  function HeadSizePad(headSizeV: int): int { (headSizeV + 15) / 16 * 16 }

  /** Rows per tile: as many as fit the line buffer, whole query rows where possible. */
  function TokenTile(t: SplitNode, headSizeV: int): int
    requires 1 <= headSizeV <= 8192
  {
    var n, tile := NLen(t), LINE_SIZE / (HeadSizePad(headSizeV) * 4);
    if QLen(t) > 1 && tile >= n && n >= 1 && n % 8 == 0 then tile / n * n else tile
  }

  lemma TokenTilePositive(t: SplitNode, headSizeV: int)
    requires 1 <= headSizeV <= 8192
    ensures TokenTile(t, headSizeV) >= 1
  {
    var n, pad := NLen(t), HeadSizePad(headSizeV);
    assert 1 <= pad <= 8192;
    MulMono(1, LINE_SIZE / (pad * 4), pad * 4);
    assert LINE_SIZE / (pad * 4) >= 1;
    if QLen(t) > 1 && LINE_SIZE / (pad * 4) >= n && n >= 1 && n % 8 == 0 {
      AtLeastOne(LINE_SIZE / (pad * 4), n);
    }
  }

  /** A tile of padded rows of 32-bit values fits the line buffer of 32768 bytes, and one more row,
      or one more query row where tiles hold whole ones, would not. */
  lemma TokenTileFits(t: SplitNode, headSizeV: int)
    requires 1 <= headSizeV <= 8192
    ensures headSizeV <= HeadSizePad(headSizeV) < headSizeV + 16 && HeadSizePad(headSizeV) % 16 == 0
    ensures TokenTile(t, headSizeV) * (HeadSizePad(headSizeV) * 4) <= 32768
    ensures var more := if QLen(t) > 1 && NLen(t) >= 1 && TokenTile(t, headSizeV) % NLen(t) == 0 then NLen(t) else 1;
            (TokenTile(t, headSizeV) + more) * (HeadSizePad(headSizeV) * 4) > 32768
  {
    hide *;
    var n, pad := NLen(t), HeadSizePad(headSizeV);
    PadIs(headSizeV);
    var all := 32768 / (pad * 4);
    TokenTileIs(t, headSizeV);
    LinesFit(pad * 4);
    if QLen(t) > 1 && all >= n && n >= 1 && n % 8 == 0 {
      WholeQueriesFit(all, n, pad * 4);
    } else if QLen(t) > 1 && n >= 1 {
      MulMono(all + 1, all + n, pad * 4);
    }
  }

  lemma PadIs(headSizeV: int)
    requires headSizeV >= 1
    ensures headSizeV <= HeadSizePad(headSizeV) < headSizeV + 16 && HeadSizePad(headSizeV) % 16 == 0
  {
  }

  lemma TokenTileIs(t: SplitNode, headSizeV: int)
    requires 1 <= headSizeV <= 8192 && HeadSizePad(headSizeV) >= 1
    ensures var n, tile := NLen(t), 32768 / (HeadSizePad(headSizeV) * 4);
            TokenTile(t, headSizeV) == if QLen(t) > 1 && tile >= n && n >= 1 && n % 8 == 0 then tile / n * n else tile
  {
    hide HeadSizePad, NLen, QLen;
  }

  lemma LinesFit(line: int)
    requires line >= 1
    ensures 32768 / line * line <= 32768 < (32768 / line + 1) * line
  {
    var q := 32768 / line;
    assert 32768 == q * line + 32768 % line;
    NextMultiple(q, line);
  }

  lemma WholeQueriesFit(all: int, n: int, line: int)
    requires n >= 1 && line >= 1 && all * line <= 32768 < (all + 1) * line
    ensures all / n * n * line <= 32768 < (all / n * n + n) * line
    ensures all / n * n % n == 0
  {
    var q := all / n;
    assert all == q * n + all % n;
    DivideBetween(q * n, n, q) by { NextMultiple(q, n); }
    hide *;
    MulMono(q * n, all, line);
    MulMono(all + 1, q * n + n, line);
  }

  lemma AtLeastOne(tile: int, n: int)
    requires tile >= n >= 1
    ensures tile / n * n >= 1
  {
    assert tile / n >= 1;
    MulMono(1, tile / n, n);
  }

  /** Merged rows r, r + 1, ... */
  ghost function MergedRows(env: Env, t: SplitNode, r: int, n: int): (rows: seq<Row>)
    requires Ready(env, t) && 0 <= r && 0 <= n && r + n <= Rows(t)
    ensures |rows| == n && forall i :: 0 <= i < n ==> rows[i] == MergedRow(env, t, r + i)
  {
    seq(n, i requires 0 <= i < n => MergedRow(env, t, r + i))
  }

  lemma MergedRowsExtend(env: Env, t: SplitNode, r: int, n: int, tile: seq<Row>)
    requires Ready(env, t) && 0 <= r && 0 <= n && r + n + |tile| <= Rows(t)
    requires forall i :: 0 <= i < |tile| ==> tile[i] == MergedRow(env, t, r + n + i)
    ensures MergedRows(env, t, r, n) + tile == MergedRows(env, t, r, n + |tile|)
  {
    hide MergedRow, Ready, Rows;
  }

  /** Merge one tile of a half and copy it out. */
  method CombineTile(env: Env, t: SplitNode, half: int, prevQ: int, gl: seq<Row>, tileStart: int, curTile: int, oGm: array<Row>)
    requires Ready(env, t) && (half == 0 || half == 1) && Weights(env, t, half, gl)
    requires Fits(t, env.qHeads, prevQ, env.headSizeV, oGm.Length) && NLen(t) >= 1
    requires 0 <= tileStart && 0 < curTile && tileStart + curTile <= HalfRows(t, half)
    requires 0 <= HalfStart(t, half) && HalfStart(t, half) + HalfRows(t, half) <= Rows(t)
    modifies oGm
    ensures Written(t, env.qHeads, prevQ, old(oGm[..]), oGm[..], HalfStart(t, half) + tileStart,
                    MergedRows(env, t, HalfStart(t, half) + tileStart, curTile))
  {
    hide *;
    var go := AccumulateTile(env, t, half, gl, tileStart, curTile);
    ghost var r := HalfStart(t, half) + tileStart;
    AllAccumulated(env, t, r, go);
    assert go == MergedRows(env, t, r, curTile);
    WriteTile(oGm, t, env.qHeads, env.headSizeV, prevQ, half, tileStart, go);
  }

  /** The outputs of a half, tile by tile. */
  method CombineRowsOf(env: Env, t: SplitNode, half: int, prevQ: int, gl: seq<Row>, oGm: array<Row>)
    requires Ready(env, t) && (half == 0 || half == 1) && Weights(env, t, half, gl)
    requires Fits(t, env.qHeads, prevQ, env.headSizeV, oGm.Length) && NLen(t) >= 1 && env.headSizeV <= 8192
    requires 0 <= HalfStart(t, half) && 0 < HalfRows(t, half) && HalfStart(t, half) + HalfRows(t, half) <= Rows(t)
    modifies oGm
    ensures Written(t, env.qHeads, prevQ, old(oGm[..]), oGm[..], HalfStart(t, half), MergedRows(env, t, HalfStart(t, half), HalfRows(t, half)))
  {
    hide *;
    FitsTask(t, env.qHeads, prevQ, env.headSizeV, oGm.Length);
    RowsPositiveIn(env, t);
    TokenTilePositive(t, env.headSizeV);
    var lseBlock, tokenTile := HalfRows(t, half), TokenTile(t, env.headSizeV);
    ghost var hs := HalfStart(t, half);
    WrittenNothing(t, env.qHeads, prevQ, oGm[..], hs);
    assert MergedRows(env, t, hs, 0) == [];
    var tileStart := 0;
    ghost var done := 0;
    while tileStart < lseBlock
      invariant 0 <= tileStart && done == (if tileStart <= lseBlock then tileStart else lseBlock)
      invariant Written(t, env.qHeads, prevQ, old(oGm[..]), oGm[..], hs, MergedRows(env, t, hs, done))
      decreases lseBlock - tileStart
    {
      var curTile := if tileStart + tokenTile <= lseBlock then tokenTile else lseBlock - tileStart;
      ghost var mid := oGm[..];
      CombineTile(env, t, half, prevQ, gl, tileStart, curTile, oGm);
      WrittenExtends(t, env.qHeads, prevQ, env.headSizeV, old(oGm[..]), mid, oGm[..], hs,
                     MergedRows(env, t, hs, done), MergedRows(env, t, hs + done, curTile));
      MergedRowsExtend(env, t, hs, done, MergedRows(env, t, hs + done, curTile));
      tileStart := tileStart + tokenTile;
      done := done + curTile;
    }
  }

  /* A half task, as a store of cells. */

  ghost function RowCells(env: Env, t: SplitNode, prevQ: int, lo: int, hi: int): iset<Cell<Row>>
    requires Ready(env, t) && 0 <= lo <= hi <= Rows(t) && NLen(t) >= 1
  {
    iset r | lo <= r < hi :: Cell(RowIndex(t, env.qHeads, prevQ, r), MergedRow(env, t, r))
  }

  lemma WrittenIsStored(env: Env, t: SplitNode, prevQ: int, before: seq<Row>, after: seq<Row>, lo: int, n: int)
    requires Ready(env, t) && 0 <= lo && 0 <= n && lo + n <= Rows(t) && NLen(t) >= 1
    requires Written(t, env.qHeads, prevQ, before, after, lo, MergedRows(env, t, lo, n))
    ensures Stored(before, after, RowCells(env, t, prevQ, lo, lo + n))
  {
    hide Ready, Rows, NLen, RowIndex, MergedRow;
    var cells := RowCells(env, t, prevQ, lo, lo + n);
    forall r | lo <= r < lo + n
      ensures 0 <= RowIndex(t, env.qHeads, prevQ, r) < |after| && after[RowIndex(t, env.qHeads, prevQ, r)] == MergedRow(env, t, r)
    {
      assert RowAt(t, env.qHeads, prevQ, lo, r - lo) == RowIndex(t, env.qHeads, prevQ, r);
    }
    forall x | 0 <= x < |after| && !Touches(cells, x)
      ensures after[x] == before[x]
    {
      forall i | 0 <= i < n
        ensures RowAt(t, env.qHeads, prevQ, lo, i) != x
      {
        assert Cell(RowIndex(t, env.qHeads, prevQ, lo + i), MergedRow(env, t, lo + i)) in cells;
      }
    }
  }

  /** What is known of a task before the step. */
  ghost predicate Placed(env: Env, lay: Layout, t: SplitNode, outLen: int, lseLen: int) {
    && Ready(env, t) && env.headSizeV <= 8192 && NLen(t) >= 1 && Rows(t) >= 1
    && LseFits(lay, env.qHeads, t, lseLen)
    && Fits(t, env.qHeads, PrevQ(lay, t), env.headSizeV, outLen)
  }

  /** The cells of one half task, in the output and in the log-sum-exp output. */
  ghost function HalfRowCells(env: Env, lay: Layout, t: SplitNode, half: int): iset<Cell<Row>>
    requires Ready(env, t) && HasBatch(lay, t) && NLen(t) >= 1 && (half == 0 || half == 1)
  {
    HalfIn(env, t, half);
    RowCells(env, t, PrevQ(lay, t), HalfStart(t, half), HalfStart(t, half) + HalfRows(t, half))
  }

  ghost function HalfLseCells(env: Env, lay: Layout, t: SplitNode, half: int): iset<Cell<real>>
    requires Ready(env, t) && HasBatch(lay, t) && NLen(t) >= 1 && (half == 0 || half == 1)
  {
    HalfIn(env, t, half);
    LseCells(lay, env, t, HalfStart(t, half), HalfStart(t, half) + HalfRows(t, half))
  }

  lemma MergedHolds(env: Env, t: SplitNode, half: int, ll: seq<seq<LogSum>>, ts: seq<real>, width: int)
    requires LseMerged(env, t, half, ll, ts, width) && (half == 0 || half == 1) && NLen(t) >= 1
    ensures HoldsLse(env, t, half, ts)
  {
    hide *;
    MergedReady(env, t, half, ll, ts, width);
    HalfIn(env, t, half);
    forall f | 0 <= f < HalfRows(t, half)
      ensures ts[f] == LseVal(env, t, HalfStart(t, half) + f)
    {
      MergedIsVal(env, t, half, ll, ts, width, f);
    }
    HoldsIs(env, t, half, ts);
  }

  lemma MergedReady(env: Env, t: SplitNode, half: int, ll: seq<seq<LogSum>>, ts: seq<real>, width: int)
    requires LseMerged(env, t, half, ll, ts, width)
    ensures Ready(env, t) && HalfRows(t, half) <= |ts|
  {
    hide Ready, MergedLse, LseOf, Lses;
  }

  lemma MergedIsVal(env: Env, t: SplitNode, half: int, ll: seq<seq<LogSum>>, ts: seq<real>, width: int, f: int)
    requires LseMerged(env, t, half, ll, ts, width) && 0 <= f < HalfRows(t, half) <= |ts| && Ready(env, t)
    ensures 0 <= HalfStart(t, half) + f < Rows(t) && ts[f] == LseVal(env, t, HalfStart(t, half) + f)
  {
    hide Ready, HalfStart, HalfRows, Rows, MergedLse, LseOf;
  }

  lemma HoldsIs(env: Env, t: SplitNode, half: int, ts: seq<real>)
    requires Ready(env, t) && (half == 0 || half == 1) && 0 <= HalfStart(t, half) && 0 <= HalfRows(t, half)
    requires HalfStart(t, half) + HalfRows(t, half) <= Rows(t) && HalfRows(t, half) <= |ts| && NLen(t) >= 1
    requires forall f :: 0 <= f < HalfRows(t, half) ==> ts[f] == LseVal(env, t, HalfStart(t, half) + f)
    ensures HoldsLse(env, t, half, ts)
  {
    hide Ready, HalfStart, HalfRows, Rows, LseVal;
  }

  lemma PlacedIn(env: Env, lay: Layout, t: SplitNode, outLen: int, lseLen: int)
    requires Placed(env, lay, t, outLen, lseLen)
    ensures Ready(env, t) && env.headSizeV <= 8192 && NLen(t) >= 1 && Rows(t) >= 1 && HasBatch(lay, t)
    ensures LseFits(lay, env.qHeads, t, lseLen) && Fits(t, env.qHeads, PrevQ(lay, t), env.headSizeV, outLen)
  {
  }

  lemma EmptyHalf(env: Env, lay: Layout, t: SplitNode, half: int, o: seq<Row>, l: seq<real>)
    requires Ready(env, t) && HasBatch(lay, t) && NLen(t) >= 1 && (half == 0 || half == 1) && HalfRows(t, half) == 0
    ensures Stored(o, o, HalfRowCells(env, lay, t, half)) && Stored(l, l, HalfLseCells(env, lay, t, half))
  {
    assert HalfRowCells(env, lay, t, half) == iset{} && HalfLseCells(env, lay, t, half) == iset{};
    hide *;
    StoredNothing(o);
    StoredNothing(l);
  }

  /** One pass of the process loop: merge one half of one task. */
  method CombineProcess(env: Env, lay: Layout, t: SplitNode, half: int, outputLse: bool, oGm: array<Row>, lseOut: array<real>)
    requires Placed(env, lay, t, oGm.Length, lseOut.Length) && (half == 0 || half == 1)
    requires Ready(env, t) && HasBatch(lay, t) && NLen(t) >= 1
    modifies oGm, lseOut
    ensures Stored(old(oGm[..]), oGm[..], HalfRowCells(env, lay, t, half))
    ensures Stored(old(lseOut[..]), lseOut[..], if outputLse then HalfLseCells(env, lay, t, half) else iset{})
  {
    hide *;
    PlacedIn(env, lay, t, oGm.Length, lseOut.Length);
    HalfIn(env, t, half);
    var prevQ := PrevQ(lay, t);
    StoredNothing(lseOut[..]);
    if HalfRows(t, half) == 0 {
      EmptyHalf(env, lay, t, half, oGm[..], lseOut[..]);
    } else {
      var ll, ts := MergeHalfLse(env, t, half);
      MergedHolds(env, t, half, ll, ts, AlignTo8(HalfRows(t, half)));
      if outputLse {
        WriteLse(lay, env, t, half, ts, lseOut);
      }
      AlignCovers(HalfRows(t, half));
      var gl := HalfWeights(env, t, half, ll, ts, AlignTo8(HalfRows(t, half)));
      CombineRowsOf(env, t, half, prevQ, gl, oGm);
      WrittenIsStored(env, t, prevQ, old(oGm[..]), oGm[..], HalfStart(t, half), HalfRows(t, half));
      HalfCellsAre(env, lay, t, half);
    }
  }

  lemma HalfCellsAre(env: Env, lay: Layout, t: SplitNode, half: int)
    requires Ready(env, t) && HasBatch(lay, t) && NLen(t) >= 1 && (half == 0 || half == 1)
    ensures 0 <= HalfStart(t, half) <= HalfStart(t, half) + HalfRows(t, half) <= Rows(t)
    ensures HalfRowCells(env, lay, t, half) == RowCells(env, t, PrevQ(lay, t), HalfStart(t, half), HalfStart(t, half) + HalfRows(t, half))
    ensures HalfLseCells(env, lay, t, half) == LseCells(lay, env, t, HalfStart(t, half), HalfStart(t, half) + HalfRows(t, half))
  {
    HalfIn(env, t, half);
  }
}
