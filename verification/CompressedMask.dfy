/** Causal and band masks of the backward pass, read from one fixed 2048 x 2048 triangle at a
    clamped offset. */
module CompressedMask {
  import opened Arith
  import opened AttentionWindow

  const DIM := 2048
  const INT32_MAX := 0x7fff_ffff

  /** The fixed mask: ones strictly above the diagonal. */
  predicate Triu(x: int) { x % 2048 > x / 2048 }

  predicate InMask(x: int) { 0 <= x < 2048 * 2048 }

  /** Where a tile of the triangle shifted by `delta` starts, clamped to the size of the tile. */
  function CalcAttenMaskOffset(delta: int, s1V: int, s2V: int): int {
    if delta == 0 then 0
    else if delta < 0 then (if -delta > s1V then s1V else -delta)
    else (if delta > s2V then s2V else delta) * DIM
  }

  /** The tile at the clamped offset is the triangle shifted by `delta`, and inside the mask. */
  lemma ShiftedTriangle(delta: int, s1V: int, s2V: int, i: int, j: int)
    requires 0 <= i < s1V && 0 <= j < s2V && s1V + s2V <= DIM
    ensures InMask(CalcAttenMaskOffset(delta, s1V, s2V) + i * DIM + j)
    ensures Triu(CalcAttenMaskOffset(delta, s1V, s2V) + i * DIM + j) <==> j > i + delta
  {
    var offset := CalcAttenMaskOffset(delta, s1V, s2V);
    var row := if delta > 0 then i + (if delta > s2V then s2V else delta) else i;
    var col := if delta < 0 then j + (if -delta > s1V then s1V else -delta) else j;
    assert offset + i * DIM + j == row * DIM + col;
    DivideBetween(row * DIM + col, DIM, row);
  }

  datatype Compress = All | NextOnly | PreOnly | Empty

  datatype Mode = Causal | Band

  /** A tile of scores: `rows` x `cols` from query row `row` and key `col` on. */
  datatype Tile = Tile(row: int, col: int, rows: int, cols: int)

  predicate ValidTile(t: Tile) { 1 <= t.rows && 1 <= t.cols && t.rows + t.cols <= 2048 && 0 <= t.row && 0 <= t.col }

  /** Read a tile of the mask, a row of the mask apart. */
  method CopyInAttenMaskBool(offset: int, s1: int, s2: int) returns (mask: seq<seq<bool>>)
    requires 0 <= s1 && 0 <= s2
    requires forall i, j :: 0 <= i < s1 && 0 <= j < s2 ==> InMask(MaskIndex(offset, i, j))
    ensures |mask| == s1 && forall i :: 0 <= i < s1 ==> |mask[i]| == s2
    ensures forall i, j :: 0 <= i < s1 && 0 <= j < s2 ==> mask[i][j] == Triu(MaskIndex(offset, i, j))
  {
    mask := seq(s1, i requires 0 <= i < s1 => seq(s2, j requires 0 <= j < s2 => Triu(MaskIndex(offset, i, j))));
  }

  function MaskIndex(offset: int, i: int, j: int): int { offset + i * DIM + j }

  /** Overwrite the scores where the mask byte is set (type 0), or where it is not (type 1). */
  method CalcAttenMaskBool(scores: array2<real>, mask: seq<seq<bool>>, maskType: int, lowest: real)
    requires |mask| == scores.Length0 && forall i :: 0 <= i < |mask| ==> |mask[i]| == scores.Length1
    modifies scores
    ensures forall i, j :: 0 <= i < scores.Length0 && 0 <= j < scores.Length1 ==>
                             scores[i, j] == if mask[i][j] == (maskType == 0) then lowest else old(scores[i, j])
  {
    forall i, j | 0 <= i < scores.Length0 && 0 <= j < scores.Length1 {
      scores[i, j] := if mask[i][j] == (maskType == 0) then lowest else scores[i, j];
    }
  }

  /** Apply the triangle shifted by `delta`: as the upper bound (type 0) or the lower bound (type 1). */
  method ApplyShifted(scores: array2<real>, delta: int, maskType: int, lowest: real)
    requires 1 <= scores.Length0 && 1 <= scores.Length1 && scores.Length0 + scores.Length1 <= DIM
    modifies scores
    ensures forall i, j :: 0 <= i < scores.Length0 && 0 <= j < scores.Length1 ==>
                             scores[i, j] == if (j > i + delta) == (maskType == 0) then lowest else old(scores[i, j])
  {
    var offset := CalcAttenMaskOffset(delta, scores.Length0, scores.Length1);
    forall i, j | 0 <= i < scores.Length0 && 0 <= j < scores.Length1
      ensures InMask(MaskIndex(offset, i, j)) && (Triu(MaskIndex(offset, i, j)) <==> j > i + delta)
    {
      ShiftedTriangle(delta, scores.Length0, scores.Length1, i, j);
    }
    hide MaskIndex, InMask, Triu;
    var mask := CopyInAttenMaskBool(offset, scores.Length0, scores.Length1);
    CalcAttenMaskBool(scores, mask, maskType, lowest);
  }

  /** The mask state of a vector core. */
  class Masker {
    const mode: Mode
    const s1Token: int
    const s2Token: int
    var actualCalcS1Token: int
    var actualCalcS2Token: int
    var bandMode: Compress
    var actualS1Len: int
    var actualS2Len: int

    constructor (mode: Mode, s1Token: int, s2Token: int)
      ensures this.mode == mode && this.s1Token == s1Token && this.s2Token == s2Token
      ensures actualCalcS1Token == s1Token && actualCalcS2Token == s2Token
    {
      this.mode, this.s1Token, this.s2Token := mode, s1Token, s2Token;
      actualCalcS1Token, actualCalcS2Token := s1Token, s2Token;
      bandMode, actualS1Len, actualS2Len := All, 0, 0;
    }

    /** Align the window with the bottom right of the sequences of a batch: if the bounds are those
        of a window, query i sees exactly the keys between the aligned bounds. */
    method UpdateToken(s1Len: int, s2Len: int)
      modifies this
      ensures forall left, right, i, j ::
                s1Token == Token(left) && s2Token == Token(right) && 0 <= i < s1Len <= 0x7fff_ffff && 0 <= j < s2Len <= 0x7fff_ffff ==>
                  (Visible(left, right, s1Len, s2Len, i, j) <==> i - actualCalcS1Token <= j <= i + actualCalcS2Token)
      ensures actualS1Len == s1Len && actualS2Len == s2Len
      ensures actualCalcS1Token == s1Token + s1Len - s2Len && actualCalcS2Token == s2Token - s1Len + s2Len
      ensures bandMode == old(bandMode)
    {
      actualS1Len, actualS2Len := s1Len, s2Len;
      actualCalcS1Token := s1Token + actualS1Len - actualS2Len;
      actualCalcS2Token := s2Token - actualS1Len + actualS2Len;
    }

    function NextDelta(causalDelta: int): int
      reads this
    {
      if mode == Causal then causalDelta - actualS1Len + actualS2Len else causalDelta + actualCalcS2Token
    }

    function PreDelta(causalDelta: int): int
      reads this
    {
      if mode == Causal then causalDelta - INT32_MAX - 1 else causalDelta - actualCalcS1Token - 1
    }

    /** Which of the two masks can cut anything off the tile: one is skipped exactly if it cuts
        nothing off even with one column, or one row, more. */
    method CalcAttenBandMode(causalDelta: int, t: Tile)
      requires ValidTile(t)
      modifies this`bandMode
      ensures bandMode in {PreOnly, Empty}
         <==> forall i, j :: 0 <= i < t.rows && 0 <= j <= t.cols ==> !Above(i, j, NextDelta(causalDelta))
      ensures bandMode in {NextOnly, Empty}
         <==> forall i, j :: 0 <= i <= t.rows && 0 <= j < t.cols ==> Above(i, j, PreDelta(causalDelta))
    {
      var nextDelta, preDelta := NextDelta(causalDelta), PreDelta(causalDelta);
      SkippedBounds(nextDelta, preDelta, t);
      hide Above;
      var noNext := nextDelta - t.cols >= 0;
      var noPre := preDelta + 1 + t.rows <= 0;
      if noNext && noPre {
        bandMode := Empty;
      } else if noNext && !noPre {
        bandMode := PreOnly;
      } else if !noNext && noPre {
        bandMode := NextOnly;
      } else {
        bandMode := All;
      }
      assert NextDelta(causalDelta) == nextDelta && PreDelta(causalDelta) == preDelta;
      assert bandMode == ModeOf(nextDelta, preDelta, t);
    }

    /** Mask a tile of scores. */
    method MaskScores(t: Tile, scores: array2<real>, lowest: real)
      requires ValidTile(t) && scores.Length0 == t.rows && scores.Length1 == t.cols
      modifies this`bandMode, scores
      ensures forall i, j :: 0 <= i < t.rows && 0 <= j < t.cols ==>
                scores[i, j] == if Cut(mode, NextDelta(t.row - t.col), PreDelta(t.row - t.col), t, i, j) then lowest else old(scores[i, j])
    {
      var causalDelta := t.row - t.col;
      CalcAttenBandMode(causalDelta, t);
      SkippedBounds(NextDelta(causalDelta), PreDelta(causalDelta), t);
      assert bandMode == ModeOf(NextDelta(causalDelta), PreDelta(causalDelta), t);
      hide Above;
      var nextDelta, preDelta := NextDelta(causalDelta), PreDelta(causalDelta);
      if bandMode == All || bandMode == NextOnly {
        ApplyShifted(scores, nextDelta, 0, lowest);
      } else if bandMode == PreOnly {
        // In causal mode no second offset is computed; it stays 0.
        ApplyShifted(scores, if mode == Band then preDelta else 0, 1, lowest);
      }
      if mode == Band && bandMode == All {
        ApplyShifted(scores, preDelta, 1, lowest);
      }
    }
  }

  function ModeOf(nextDelta: int, preDelta: int, t: Tile): Compress {
    var noNext, noPre := nextDelta - t.cols >= 0, preDelta + 1 + t.rows <= 0;
    if noNext then (if noPre then Empty else PreOnly) else if noPre then NextOnly else All
  }

  /** A bound is skipped exactly if it cuts nothing off the tile even with one column, or one row,
      more; so skipping never changes a score. */
  lemma SkippedBounds(nextDelta: int, preDelta: int, t: Tile)
    requires ValidTile(t)
    ensures ModeOf(nextDelta, preDelta, t) in {PreOnly, Empty}
       <==> forall i, j :: 0 <= i < t.rows && 0 <= j <= t.cols ==> !Above(i, j, nextDelta)
    ensures ModeOf(nextDelta, preDelta, t) in {NextOnly, Empty}
       <==> forall i, j :: 0 <= i <= t.rows && 0 <= j < t.cols ==> Above(i, j, preDelta)
  {
    assert Above(0, t.cols, nextDelta) || nextDelta >= t.cols;
    assert Above(t.rows, 0, preDelta) || preDelta + t.rows >= 0;
  }

  /** Right of the diagonal shifted by `delta`. */
  predicate Above(i: int, j: int, delta: int) { j > i + delta }

  /** What the steps of `MaskScores` overwrite. */
  predicate Cut(mode: Mode, nextDelta: int, preDelta: int, t: Tile, i: int, j: int) {
    match ModeOf(nextDelta, preDelta, t)
    case All => j > i + nextDelta || (mode == Band && j <= i + preDelta)
    case NextOnly => j > i + nextDelta
    case PreOnly => j <= i + (if mode == Band then preDelta else 0)
    case Empty => false
  }

  /* The masks are the pointwise ones. */

  /** Band mode: a score is kept exactly when its key lies between the two bounds. */
  lemma BandMask(t: Tile, s1Token: int, s2Token: int, i: int, j: int)
    requires ValidTile(t) && 0 <= i < t.rows && 0 <= j < t.cols
    ensures !Cut(Band, t.row - t.col + s2Token, t.row - t.col - s1Token - 1, t, i, j)
       <==> t.row + i - s1Token <= t.col + j <= t.row + i + s2Token
  {
  }

  /** Causal mode keeps exactly the keys up to the diagonal shifted by `shift`, for all places
      of the tile, if and only if it does not take the branch meant for a lower bound. */
  lemma CausalMask(t: Tile, shift: int)
    requires ValidTile(t)
    ensures (forall i, j :: 0 <= i < t.rows && 0 <= j < t.cols ==> (CausalCut(t, shift, i, j) <==> t.col + j > t.row + i + shift))
       <==> t.row - t.col + shift < t.cols || t.row - t.col + t.rows <= 0x7fff_ffff
  {
    if !(t.row - t.col + shift < t.cols || t.row - t.col + t.rows <= INT32_MAX) {
      assert CausalCut(t, shift, 0, 0);
    }
  }

  predicate CausalCut(t: Tile, shift: int, i: int, j: int) {
    Cut(Causal, t.row - t.col + shift, t.row - t.col - INT32_MAX - 1, t, i, j)
  }

  /* The masks are the attention window. */

  /** The token bounds a window is tiled with: an unlimited side becomes the largest value. */
  function Token(bound: int): int { if bound < 0 then INT32_MAX else bound }

  predicate TileInside(t: Tile, s1Len: int, s2Len: int) {
    ValidTile(t) && t.row + t.rows <= s1Len <= 0x7fff_ffff && t.col + t.cols <= s2Len <= 0x7fff_ffff
  }

  lemma BandIsWindow(t: Tile, left: int, right: int, s1Len: int, s2Len: int, i: int, j: int)
    requires TileInside(t, s1Len, s2Len) && 0 <= i < t.rows && 0 <= j < t.cols
    ensures var s1Token, s2Token := Token(left) + s1Len - s2Len, Token(right) - s1Len + s2Len;
            var cut := Cut(Band, t.row - t.col + s2Token, t.row - t.col - s1Token - 1, t, i, j);
            !cut <==> Visible(left, right, s1Len, s2Len, t.row + i, t.col + j)
  {
    BandMask(t, Token(left) + s1Len - s2Len, Token(right) - s1Len + s2Len, i, j);
  }

  lemma CausalIsWindow(t: Tile, s1Len: int, s2Len: int, i: int, j: int)
    requires TileInside(t, s1Len, s2Len) && 0 <= i < t.rows && 0 <= j < t.cols
    ensures !CausalCut(t, s2Len - s1Len, i, j) <==> Visible(-1, 0, s1Len, s2Len, t.row + i, t.col + j)
  {
    CausalMask(t, s2Len - s1Len);
  }

  /** Masking a tile of a batch: a score survives exactly when the window shows its key. */
  method MaskTile(m: Masker, left: int, right: int, s1Len: int, s2Len: int, t: Tile, scores: array2<real>, lowest: real)
    requires TileInside(t, s1Len, s2Len) && scores.Length0 == t.rows && scores.Length1 == t.cols
    requires m.mode == Band ==> m.s1Token == Token(left) && m.s2Token == Token(right)
    requires m.mode == Causal ==> left < 0 && right == 0
    modifies m, scores
    ensures forall i, j :: 0 <= i < t.rows && 0 <= j < t.cols ==>
                             scores[i, j] == if Visible(left, right, s1Len, s2Len, t.row + i, t.col + j) then old(scores[i, j]) else lowest
  {
    m.UpdateToken(s1Len, s2Len);
    ghost var d := t.row - t.col;
    ghost var next, pre := m.NextDelta(d), m.PreDelta(d);
    forall i, j | 0 <= i < t.rows && 0 <= j < t.cols
      ensures !Cut(m.mode, next, pre, t, i, j) <==> Visible(left, right, s1Len, s2Len, t.row + i, t.col + j)
    {
      if m.mode == Band {
        BandIsWindow(t, left, right, s1Len, s2Len, i, j);
      } else {
        CausalIsWindow(t, s1Len, s2Len, i, j);
      }
    }
    hide Cut, Visible;
    m.MaskScores(t, scores, lowest);
  }
}
