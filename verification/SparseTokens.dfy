/** Tokens behind the block counts: a segment has a block for every 128 tokens begun, and the lists
    of exactly these blocks are read. */
module SparseTokens {
  import opened Arith
  import opened Wrappers
  import opened SparseLists
  import opened SparseGrid
  import opened SparsePacked
  import opened SparseRequest
  import opened SparseAlike
  import opened SparseExchange

  /* Blocks and tokens. */

  /** Every token lies in a block, and every block starts with a token. */
  lemma TokenInBlock(r: int, n: int, t: int)
    requires Hold(r, n) && 0 <= t
    ensures t < n ==> t / 128 < r
    ensures 128 * t < n <==> t < r
  {
  }

  /** Tokens of segment i between cumulative lengths, or the common length. */
  function Tokens(cu: Option<Content>, length: int, i: int): int {
    match cu
    case None => length
    case Some(c) => At(c.values, i + 1) - At(c.values, i)
  }

  /** Tokens of segment i on the axis of the rows, and on that of the columns. */
  function RowTokens(g: Fields, s: Scalars, i: int): int {
    if s.backward then Tokens(g.cuK, s.seqK, i) else Tokens(g.cuQ, s.seqQ, i)
  }

  function ColTokens(g: Fields, s: Scalars, i: int): int {
    if s.backward then Tokens(g.cuQ, s.seqQ, i) else Tokens(g.cuK, s.seqK, i)
  }

  lemma SegmentHolds(cu: Option<Content>, length: int, batch: nat, i: int)
    requires 0 <= i < batch && length >= 1
    ensures Hold(Segments(cu, Blocks(length), batch)[i], Tokens(cu, length, i))
  {
    BlocksHold(length);
    if Tokens(cu, length, i) > 0 { BlocksHold(Tokens(cu, length, i)); }
    hide Blocks, Hold;
  }

  lemma ReaderHolds(g: Fields, s: Scalars, i: int)
    requires Sensible(s) && Validated(g, s) && g.cuRows.Some? && 0 <= i < s.batch
    ensures var r := ReaderOf(g, s);
            && |r.rows| == |r.cols| == s.batch && r.cuRows == g.cuRows.value.values && r.cuIdx == g.cuIdx.value.values
            && Hold(r.rows[i], RowTokens(g, s, i)) && Hold(r.cols[i], ColTokens(g, s, i))
  {
    SegmentHolds(g.cuQ, s.seqQ, s.batch, i);
    SegmentHolds(g.cuK, s.seqK, s.batch, i);
    hide Segments, Blocks, Hold, Tokens;
  }

  /* Packed lists, row by row. */

  /** Place of row m of segment i in the counts, and of its slot w in the indices. */
  function RowPlace(g: Fields, i: int, m: int): int
    requires g.cuRows.Some?
  {
    At(g.cuRows.value.values, i) + m
  }

  function SlotPlaceOf(g: Fields, s: Scalars, i: int, m: int, w: int): int
    requires g.cuIdx.Some?
  {
    At(g.cuIdx.value.values, i) + m * ((ColTokens(g, s, i) + 127) / 128) + w
  }

  /** Row m of segment i is what the packed pair says, exactly if the row has tokens; a slot is read
      exactly if its column has tokens as well. All else is zero. */
  ghost predicate ReadsTokens(a: Grid, cnt: Content, idx: Content, g: Fields, s: Scalars, i: int, j: int, k: int, m: int)
    requires g.cuRows.Some? && g.cuIdx.Some? && |cnt.shape| == 2 && |idx.shape| == 2
  {
    && Cnt(a, i, j, m) == (if 128 * m < RowTokens(g, s, i) then At(HeadOf(cnt, k), Clamp(RowPlace(g, i, m), cnt.shape[1])) else 0)
    && forall w :: 0 <= w < ColumnBlocks(s) ==> ReadsSlot(a, idx, g, s, i, j, k, m, w)
  }

  function ColumnBlocks(s: Scalars): int { ((if s.backward then s.seqQ else s.seqK) + 127) / 128 }

  predicate ReadsSlot(a: Grid, idx: Content, g: Fields, s: Scalars, i: int, j: int, k: int, m: int, w: int)
    requires g.cuIdx.Some? && |idx.shape| == 2
  {
    Idx(a, i, j, m, w) == if 128 * m < RowTokens(g, s, i) && 128 * w < ColTokens(g, s, i)
                          then At(HeadOf(idx, k), Clamp(SlotPlaceOf(g, s, i, m, w), idx.shape[1])) else 0
  }

  lemma PlacesByTokens(r: Reader, g: Fields, s: Scalars, i: int, m: int, n: nat)
    requires g.cuRows.Some? && g.cuIdx.Some? && 0 <= i < |r.rows| == |r.cols| && 0 <= m
    requires r.cuRows == g.cuRows.value.values && r.cuIdx == g.cuIdx.value.values && |r.cuRows| == |r.cuIdx| == |r.rows| + 1
    requires Hold(r.rows[i], RowTokens(g, s, i)) && Hold(r.cols[i], ColTokens(g, s, i))
    ensures CountPlace(r.rows, r.cuRows, i, m, n) == if 128 * m < RowTokens(g, s, i) then Clamp(RowPlace(g, i, m), n) else n
    ensures forall w :: 0 <= w ==>
              SlotPlace(r.rows, r.cols, r.cuIdx, i, m, w, n)
                == if 128 * m < RowTokens(g, s, i) && 128 * w < ColTokens(g, s, i) then Clamp(SlotPlaceOf(g, s, i, m, w), n) else n
  {
    TokenInBlock(r.rows[i], RowTokens(g, s, i), m);
    assert ColTokens(g, s, i) > 0 ==> r.cols[i] == (ColTokens(g, s, i) + 127) / 128;
    hide RowTokens, ColTokens;
    forall w | 0 <= w
      ensures 128 * w < ColTokens(g, s, i) <==> w < r.cols[i]
    {
      TokenInBlock(r.cols[i], ColTokens(g, s, i), w);
    }
    hide Hold;
  }

  /** An unpacked pair, read by tokens. */
  lemma PairTokens(cnt: Content, idx: Content, g: Fields, s: Scalars, i: int, j: int, m: int)
    requires Sensible(s) && Validated(g, s) && g.cuRows.Some? && PairFits(cnt, idx, g, s) && |cnt.shape| == 2 && |idx.shape| == 2
    requires 0 <= i < s.batch && 0 <= j < Max(cnt.shape[0], idx.shape[0]) && 0 <= m < RowBlocks(s)
    ensures UnpackPair(cnt, idx, g, s).Some? && g.cuIdx.Some?
    ensures ReadsTokens(UnpackPair(cnt, idx, g, s).value, cnt, idx, g, s, i, j, j, m)
  {
    var a, r := UnpackPair(cnt, idx, g, s), ReaderOf(g, s);
    assert ColumnBlocks(s) == ColBlocks(s);
    ReaderHolds(g, s, i);
    PackedCells(cnt, idx, g, s, i, j, m);
    hide UnpackPair, PairFits, ReaderOf, HeadOf, CountPlace, SlotPlace, Cnt, Idx, Clamp, RowTokens, ColTokens, RowPlace, SlotPlaceOf, Hold;
    PlacesByTokens(r, g, s, i, m, cnt.shape[1]);
    PlacesByTokens(r, g, s, i, m, idx.shape[1]);
  }

  /* The normalised lists. */

  lemma SpreadTokens(p: Grid, cnt: Content, idx: Content, g: Fields, s: Scalars, h: nat, i: int, j: int, k: int, m: int)
    requires g.cuRows.Some? && g.cuIdx.Some? && |cnt.shape| == 2 && |idx.shape| == 2
    requires 0 <= i < p.batch && 0 <= j < h && 0 <= m < p.rows && p.width == ColumnBlocks(s)
    requires ReadsTokens(p, cnt, idx, g, s, i, Bc(j, p.heads), k, m)
    ensures ReadsTokens(Spread(p, p.batch, h), cnt, idx, g, s, i, j, k, m)
  {
    var a := Spread(p, p.batch, h);
    SpreadList(p, p.batch, h, i, j, m);
    assert Bc(i, p.batch) == i;
    hide Spread, Cnt, Idx, Live, HeadOf, RowTokens, ColTokens, RowPlace, SlotPlaceOf, Clamp;
    forall w | 0 <= w < ColumnBlocks(s)
      ensures ReadsSlot(a, idx, g, s, i, j, k, m, w)
    {
      assert ReadsSlot(p, idx, g, s, i, Bc(j, p.heads), k, m, w);
    }
  }

  lemma PaddedTokens(a: Grid, cnt: Content, idx: Content, g: Fields, s: Scalars, width: nat, i: int, j: int, k: int, m: int)
    requires g.cuRows.Some? && g.cuIdx.Some? && |cnt.shape| == 2 && |idx.shape| == 2
    requires InGrid(a, i, j, m) && ColumnBlocks(s) == a.width <= width && ReadsTokens(a, cnt, idx, g, s, i, j, k, m)
    ensures ReadsTokens(Padded(a, width), cnt, idx, g, s, i, j, k, m)
  {
    var b := Padded(a, width);
    PaddedCells(a, width, i, j, m);
    hide Padded, Cnt, Idx, HeadOf, RowTokens, ColTokens, RowPlace, SlotPlaceOf, Clamp;
    forall w | 0 <= w < ColumnBlocks(s)
      ensures ReadsSlot(b, idx, g, s, i, j, k, m, w)
    {
      assert ReadsSlot(a, idx, g, s, i, j, k, m, w);
    }
  }

  /** The pairs of a request, and the head of a pair that head j reads. */
  predicate IsPair(cnt: Content, idx: Content, g: Fields) {
    (cnt == g.maskCnt && idx == g.maskIdx) || (g.fullCnt == Some(cnt) && g.fullIdx == Some(idx))
  }

  function HeadRead(cnt: Content, idx: Content, j: int): int
    requires |cnt.shape| == 2 && |idx.shape| == 2
  {
    Bc(j, Max(cnt.shape[0], idx.shape[0]))
  }

  lemma PackedPairFits(cnt: Content, idx: Content, g: Fields, s: Scalars, j: int)
    requires Sensible(s) && Validated(g, s) && g.cuRows.Some? && BothFit(g, s) && IsPair(cnt, idx, g) && 0 <= j < OutHeads(g, s)
    ensures PairFits(cnt, idx, g, s) && |cnt.shape| == 2 && |idx.shape| == 2 && OutBatch(g, s) == s.batch
    ensures 0 <= HeadRead(cnt, idx, j) < Max(cnt.shape[0], idx.shape[0])
  {
  }

  /** Unpacked and expanded, a packed pair is read by tokens. */
  lemma BothTokens(cnt: Content, idx: Content, g: Fields, s: Scalars, i: int, j: int, m: int)
    requires Sensible(s) && Validated(g, s) && g.cuRows.Some? && g.cuIdx.Some? && BothFit(g, s) && IsPair(cnt, idx, g)
    requires UnpackBoth(g, s).Some? && |cnt.shape| == 2 && |idx.shape| == 2
    requires 0 <= i < s.batch && 0 <= j < OutHeads(g, s) && 0 <= m < RowBlocks(s)
    ensures UnpackPair(cnt, idx, g, s).Some?
    ensures ReadsTokens(UnpackPair(cnt, idx, g, s).value, cnt, idx, g, s, i, HeadRead(cnt, idx, j), HeadRead(cnt, idx, j), m)
    ensures ReadsTokens(Spread(UnpackPair(cnt, idx, g, s).value, s.batch, OutHeads(g, s)), cnt, idx, g, s, i, j, HeadRead(cnt, idx, j), m)
  {
    PackedPairFits(cnt, idx, g, s, j);
    PackedShape(cnt, idx, g, s);
    assert ColumnBlocks(s) == ColBlocks(s);
    hide UnpackPair, PairFits, ReadsTokens, Validated, BothFit, OutHeads;
    PairTokens(cnt, idx, g, s, i, HeadRead(cnt, idx, j), m);
    SpreadTokens(UnpackPair(cnt, idx, g, s).value, cnt, idx, g, s, OutHeads(g, s), i, j, HeadRead(cnt, idx, j), m);
  }

  /** With one pair only, the table is as good as expanded. */
  lemma SameHeads(g: Fields, s: Scalars, j: int)
    requires Sensible(s) && Validated(g, s) && g.cuRows.Some? && BothFit(g, s) && g.fullCnt.None? && 0 <= j < OutHeads(g, s)
    ensures |g.maskCnt.shape| == 2 && |g.maskIdx.shape| == 2 && HeadRead(g.maskCnt, g.maskIdx, j) == j
  {
  }

  /** Row m of the partial and full lists of a packed request in the forward pass: the list that the
      tensors hold for it if the row has tokens, and nothing if it has none. */
  lemma ForwardTokens(cpu: bool, g: Fields, s: Scalars, i: int, j: int, m: int)
    requires Normalised(cpu, g, s).Some? && !s.backward && g.cuRows.Some? && InGrid(Normalised(cpu, g, s).value.0, i, j, m)
    ensures g.cuIdx.Some? && |g.maskCnt.shape| == 2 && |g.maskIdx.shape| == 2
    ensures ReadsTokens(Normalised(cpu, g, s).value.0, g.maskCnt, g.maskIdx, g, s, i, j, HeadRead(g.maskCnt, g.maskIdx, j), m)
    ensures g.fullCnt.Some? ==>
              && g.fullIdx.Some? && |g.fullCnt.value.shape| == 2 && |g.fullIdx.value.shape| == 2
              && ReadsTokens(Normalised(cpu, g, s).value.1, g.fullCnt.value, g.fullIdx.value, g, s, i, j,
                             HeadRead(g.fullCnt.value, g.fullIdx.value, j), m)
  {
    AcceptedIff(cpu, g, s);
    AcceptedParts(cpu, g, s);
    BothShape(g, s);
    NormalisedParts(cpu, g, s);
    var x := UnpackBoth(g, s).value;
    var width := Max(Max(1, x.0.width), x.1.width);
    assert Normalised(cpu, g, s) == Some((Padded(x.0, width), Padded(x.1, width)));
    assert InGrid(x.0, i, j, m) && InGrid(x.1, i, j, m) && x.0.rows == RowBlocks(s) && x.0.batch == OutBatch(g, s) && x.0.heads == OutHeads(g, s);
    hide Normalised, Padded, UnpackBoth, Accepted;
    PackedPairFits(g.maskCnt, g.maskIdx, g, s, j);
    PairWide(g.maskCnt, g.maskIdx, g, s);
    assert x.0.width == ColumnBlocks(s);
    PartialTokens(g, s, i, j, m);
    PaddedTokens(x.0, g.maskCnt, g.maskIdx, g, s, width, i, j, HeadRead(g.maskCnt, g.maskIdx, j), m);
    if g.fullCnt.Some? {
      PackedPairFits(g.fullCnt.value, g.fullIdx.value, g, s, j);
      PairWide(g.fullCnt.value, g.fullIdx.value, g, s);
      FullTokens(g, s, i, j, m);
      PaddedTokens(x.1, g.fullCnt.value, g.fullIdx.value, g, s, width, i, j, HeadRead(g.fullCnt.value, g.fullIdx.value, j), m);
    }
  }

  lemma PairWide(cnt: Content, idx: Content, g: Fields, s: Scalars)
    requires Sensible(s) && Validated(g, s) && g.cuRows.Some? && PairFits(cnt, idx, g, s)
    ensures PairWidth(cnt, idx, g, s) == ColBlocks(s) == ColumnBlocks(s) && g.cuIdx.Some?
  {
  }

  lemma PartialTokens(g: Fields, s: Scalars, i: int, j: int, m: int)
    requires Sensible(s) && Validated(g, s) && g.cuRows.Some? && g.cuIdx.Some? && BothFit(g, s) && UnpackBoth(g, s).Some?
    requires |g.maskCnt.shape| == 2 && |g.maskIdx.shape| == 2
    requires 0 <= i < s.batch && 0 <= j < OutHeads(g, s) && 0 <= m < RowBlocks(s)
    ensures ReadsTokens(UnpackBoth(g, s).value.0, g.maskCnt, g.maskIdx, g, s, i, j, HeadRead(g.maskCnt, g.maskIdx, j), m)
  {
    BothTokens(g.maskCnt, g.maskIdx, g, s, i, j, m);
    SpreadOf(g.maskCnt, g.maskIdx, g, s);
    if g.fullCnt.None? { SameHeads(g, s, j); }
    hide *;
  }

  lemma FullTokens(g: Fields, s: Scalars, i: int, j: int, m: int)
    requires Sensible(s) && Validated(g, s) && g.cuRows.Some? && g.cuIdx.Some? && BothFit(g, s) && UnpackBoth(g, s).Some?
    requires g.fullCnt.Some? && g.fullIdx.Some? && |g.fullCnt.value.shape| == 2 && |g.fullIdx.value.shape| == 2
    requires 0 <= i < s.batch && 0 <= j < OutHeads(g, s) && 0 <= m < RowBlocks(s)
    ensures ReadsTokens(UnpackBoth(g, s).value.1, g.fullCnt.value, g.fullIdx.value, g, s, i, j, HeadRead(g.fullCnt.value, g.fullIdx.value, j), m)
  {
    BothTokens(g.fullCnt.value, g.fullIdx.value, g, s, i, j, m);
    SpreadOf(g.fullCnt.value, g.fullIdx.value, g, s);
    hide *;
  }

  /** The rows of a packed pair that name column c, all of them rows with tokens. */
  ghost predicate NamesTokens(list: seq<int>, cnt: Content, idx: Content, g: Fields, s: Scalars, i: int, j: int, c: int)
    requires Sensible(s) && Validated(g, s) && g.cuRows.Some? && g.cuIdx.Some? && |cnt.shape| == 2 && |idx.shape| == 2
  {
    var k := HeadRead(cnt, idx, j);
    && UnpackPair(cnt, idx, g, s).Some? && Ascending(list)
    && (forall m :: m in list ==> 0 <= m && 128 * m < RowTokens(g, s, i))
    && (forall m :: 0 <= m < RowBlocks(s) ==> NamesToken(list, UnpackPair(cnt, idx, g, s).value, cnt, idx, g, s, i, k, m, c))
  }

  ghost predicate NamesToken(list: seq<int>, p: Grid, cnt: Content, idx: Content, g: Fields, s: Scalars, i: int, k: int, m: int, c: int)
    requires g.cuRows.Some? && g.cuIdx.Some? && |cnt.shape| == 2 && |idx.shape| == 2
  {
    ReadsTokens(p, cnt, idx, g, s, i, k, k, m) && (m in list <==> c in Live(p, i, k, m))
  }

  lemma RowsByTokens(list: seq<int>, cnt: Content, idx: Content, g: Fields, s: Scalars, i: int, j: int, c: int)
    requires Sensible(s) && Validated(g, s) && g.cuRows.Some? && g.cuIdx.Some? && BothFit(g, s) && IsPair(cnt, idx, g)
    requires UnpackBoth(g, s).Some? && |cnt.shape| == 2 && |idx.shape| == 2 && 0 <= i < s.batch && 0 <= j < OutHeads(g, s)
    requires UnpackPair(cnt, idx, g, s).Some? && NamesRows(list, UnpackPair(cnt, idx, g, s).value, i, j, c)
    ensures NamesTokens(list, cnt, idx, g, s, i, j, c)
  {
    PackedPairFits(cnt, idx, g, s, j);
    PackedShape(cnt, idx, g, s);
    var p, k := UnpackPair(cnt, idx, g, s).value, HeadRead(cnt, idx, j);
    assert Bc(i, p.batch) == i && Bc(j, p.heads) == k;
    hide UnpackPair, UnpackBoth, PairFits, Validated, BothFit, OutHeads, Live, RowTokens, ColTokens, HeadRead, Bc;
    forall m | 0 <= m < RowBlocks(s)
      ensures NamesToken(list, p, cnt, idx, g, s, i, k, m, c)
      ensures m in list ==> 128 * m < RowTokens(g, s, i)
    {
      PairTokens(cnt, idx, g, s, i, k, m);
      NoTokensNoList(p, cnt, idx, g, s, i, k, m);
      hide ReadsTokens;
    }
    hide NamesToken;
    forall m | m in list
      ensures 0 <= m < RowBlocks(s)
    {
    }
  }

  lemma NoTokensNoList(p: Grid, cnt: Content, idx: Content, g: Fields, s: Scalars, i: int, k: int, m: int)
    requires g.cuRows.Some? && g.cuIdx.Some? && |cnt.shape| == 2 && |idx.shape| == 2 && ReadsTokens(p, cnt, idx, g, s, i, k, k, m)
    ensures 128 * m >= RowTokens(g, s, i) ==> Live(p, i, k, m) == []
  {
    hide Cnt, HeadOf, RowTokens, ColTokens, ReadsSlot;
  }

  /** In the backward pass the list of query block c names the key blocks with tokens whose own list
      names c. */
  lemma BackwardTokens(cpu: bool, g: Fields, s: Scalars, i: int, j: int, c: int)
    requires Normalised(cpu, g, s).Some? && s.backward && g.cuRows.Some? && InGrid(Normalised(cpu, g, s).value.0, i, j, c)
    ensures Sensible(s) && Validated(g, s) && g.cuIdx.Some? && |g.maskCnt.shape| == 2 && |g.maskIdx.shape| == 2
    ensures NamesTokens(Live(Normalised(cpu, g, s).value.0, i, j, c), g.maskCnt, g.maskIdx, g, s, i, j, c)
    ensures g.fullCnt.Some? ==>
              && g.fullIdx.Some? && |g.fullCnt.value.shape| == 2 && |g.fullIdx.value.shape| == 2
              && NamesTokens(Live(Normalised(cpu, g, s).value.1, i, j, c), g.fullCnt.value, g.fullIdx.value, g, s, i, j, c)
  {
    AcceptedIff(cpu, g, s);
    AcceptedParts(cpu, g, s);
    BothShape(g, s);
    NormalisedParts(cpu, g, s);
    BackwardList(cpu, g, s, i, j, c);
    var x := UnpackBoth(g, s).value;
    assert Normalised(cpu, g, s).value.0.batch == x.0.batch && Normalised(cpu, g, s).value.0.heads == x.0.heads;
    hide Normalised, UnpackBoth, Accepted, Live, UnpackPair;
    PackedPairFits(g.maskCnt, g.maskIdx, g, s, j);
    PairWide(g.maskCnt, g.maskIdx, g, s);
    hide NamesRows, NamesTokens, OutHeads, PairFits, Validated, BothFit;
    RowsByTokens(Live(Normalised(cpu, g, s).value.0, i, j, c), g.maskCnt, g.maskIdx, g, s, i, j, c);
    if g.fullCnt.Some? {
      assert g.fullIdx.Some? by { FullGiven(g, s); }
      PackedPairFits(g.fullCnt.value, g.fullIdx.value, g, s, j);
      RowsByTokens(Live(Normalised(cpu, g, s).value.1, i, j, c), g.fullCnt.value, g.fullIdx.value, g, s, i, j, c);
    }
  }

  lemma FullGiven(g: Fields, s: Scalars)
    requires Validated(g, s)
    ensures g.fullCnt.Some? <==> g.fullIdx.Some?
  {
  }

  /* The transposed request. */

  /** Offsets that start at zero and advance, for segment i, by the blocks of its keys, and by as
      many times the blocks of its queries. */
  ghost predicate StepsHold(r: seq<int>, c: seq<int>, keys: int, queries: int, i: nat) {
    && i + 1 < |r| == |c| && r[0] == c[0] == 0 && Hold(r[i + 1] - r[i], keys)
    && exists n :: Hold(n, queries) && c[i + 1] - c[i] == (r[i + 1] - r[i]) * n
  }

  /** The packed result has a row for every 128 keys begun of a segment, and as many slots in each as
      there are queries begun by 128. */
  lemma TransposedTokens(cpu: bool, g: Fields, s: Scalars, i: int)
    requires !s.backward && Promised(g, s) && Transposition(cpu, g, s).Some? && g.cuK.Some? && Sensible(s) && 0 <= i < s.batch
    ensures var t := Transposition(cpu, g, s).value;
            && t.cuRows.Some? && t.cuIdx.Some?
            && StepsHold(t.cuRows.value.values, t.cuIdx.value.values, Tokens(g.cuK, s.seqK, i), Tokens(g.cuQ, s.seqQ, i), i)
  {
    var x, t := Normalised(cpu, g, s).value, Transposition(cpu, g, s).value;
    assert Exchanged(x.0, x.1, g, s) == Some(t);
    hide *;
    ResultOffsets(x.0, x.1, g, t, s);
    OffsetSteps(KeySegments(g, s), QuerySegments(g, s), i);
    BothHold(g, s, i);
    StepsAre(Sums(KeySegments(g, s)), Areas(KeySegments(g, s), QuerySegments(g, s)), KeySegments(g, s)[i], QuerySegments(g, s)[i],
             Tokens(g.cuK, s.seqK, i), Tokens(g.cuQ, s.seqQ, i), i);
  }

  lemma StepsAre(r: seq<int>, c: seq<int>, m: int, n: int, keys: int, queries: int, i: nat)
    requires i + 1 < |r| == |c| && r[0] == c[0] == 0 && r[i + 1] - r[i] == m && c[i + 1] - c[i] == m * n
    requires Hold(m, keys) && Hold(n, queries)
    ensures StepsHold(r, c, keys, queries, i)
  {
    hide Hold;
  }

  lemma ResultOffsets(x: Grid, y: Grid, g: Fields, t: Fields, s: Scalars)
    requires Sensible(s) && Promised(g, s) && Shaped(x) && Shaped(y) && Exchanged(x, y, g, s) == Some(t) && g.cuK.Some?
    ensures t.cuRows.Some? && t.cuIdx.Some? && t.cuRows.value.values == Sums(KeySegments(g, s))
    ensures t.cuIdx.value.values == Areas(KeySegments(g, s), QuerySegments(g, s))
  {
    ResultIs(x, y, g, t, s);
    hide Exchanged, KeySegments, QuerySegments, Sums, Areas, PackedCounts, PackedIndices, Promised, Spread, Transpose, Counted;
  }

  lemma OffsetSteps(rows: seq<nat>, cols: seq<nat>, i: nat)
    requires |rows| == |cols| && i < |rows|
    ensures var r, c := Sums(rows), Areas(rows, cols);
            r[0] == c[0] == 0 && r[i + 1] - r[i] == rows[i] && c[i + 1] - c[i] == rows[i] * cols[i]
  {
    SumNext(rows, i);
    AreaNext(rows, cols, i);
    NoOffsets(rows, cols);
    hide SumTo, AreaTo;
  }

  lemma BothHold(g: Fields, s: Scalars, i: int)
    requires Sensible(s) && 0 <= i < s.batch
    ensures Hold(KeySegments(g, s)[i], Tokens(g.cuK, s.seqK, i)) && Hold(QuerySegments(g, s)[i], Tokens(g.cuQ, s.seqQ, i))
  {
    SegmentHolds(g.cuK, s.seqK, s.batch, i);
    SegmentHolds(g.cuQ, s.seqQ, s.batch, i);
    hide Segments, Hold, Tokens, Blocks;
  }

  /* Limits. */

  /** Lengths are accepted exactly if they can be rounded up to whole blocks in 32 bits. */
  lemma LengthsRound(s: Scalars)
    ensures Sensible(s)
       <==> s.batch >= 1 && s.heads >= 1 && s.seqQ >= 1 && s.seqK >= 1 && s.seqQ + 127 <= 0x7fff_ffff && s.seqK + 127 <= 0x7fff_ffff
  {
  }

  /** Fixed lists have a row for every 128 tokens begun, and no more slots than there are columns. */
  predicate FixedShapes(cnt: seq<nat>, idx: seq<nat>, s: Scalars) {
    var rows, cols := if s.backward then s.seqK else s.seqQ, if s.backward then s.seqQ else s.seqK;
    && |cnt| == 3 && |idx| == 4
    && cnt[0] in {1, s.batch} && idx[0] in {1, s.batch} && cnt[1] in {1, s.heads} && idx[1] in {1, s.heads}
    && Hold(cnt[2], rows) && Hold(idx[2], rows) && (idx[3] > 0 ==> 128 * (idx[3] - 1) < cols)
  }

  predicate PackedShapes(cnt: seq<nat>, idx: seq<nat>, g: Fields, s: Scalars)
    requires g.cuRows.Some? && g.cuIdx.Some?
  {
    && |cnt| == 2 && |idx| == 2 && cnt[0] in {1, s.heads} && idx[0] in {1, s.heads}
    && g.cuRows.value.shape == [s.batch + 1] && g.cuIdx.value.shape == [s.batch + 1]
  }

  /** Block size and companions that a request must have, and the shapes of its pairs. */
  lemma PairDecides(cnt: Content, idx: Content, g: Fields, s: Scalars)
    requires Sensible(s) && Validated(g, s)
    ensures s.blockSize.None? || s.blockSize == Some((128, 128))
    ensures (g.fullCnt.Some? <==> g.fullIdx.Some?) && (g.cuRows.Some? <==> g.cuIdx.Some?)
    ensures g.cuRows.None? ==> (PairFits(cnt, idx, g, s) <==> FixedShapes(cnt.shape, idx.shape, s))
    ensures g.cuRows.Some? ==> (PairFits(cnt, idx, g, s) <==> PackedShapes(cnt.shape, idx.shape, g, s))
  {
    BlocksHold(s.seqQ);
    BlocksHold(s.seqK);
    if g.cuRows.Some? {
      LengthOf(g.cuRows.value);
      LengthOf(g.cuIdx.value);
    }
  }

  /** Cumulative lengths are accepted exactly if there is one more than there are batches and, where
      they are read, they start at zero and no segment is of negative length or longer than the
      maximum. */
  lemma BoundaryDecides(cpu: bool, cu: Option<Content>, batch: nat, max: nat)
    ensures (BoundaryFits(cpu, cu, batch, max))
       <==> (cu.Some? ==>
               && cu.value.shape == [batch + 1]
               && (cpu ==> At(cu.value.values, 0) == 0 && forall i :: 0 <= i < batch ==> 0 <= Tokens(cu, max, i) <= max))
  {
    if cu.Some? && cu.value.shape == [batch + 1] {
      var values := cu.value.values;
      LengthOf(cu.value);
      forall i | 0 <= i < batch
        ensures SegmentFits(values, i, max) <==> 0 <= Tokens(cu, max, i) <= max
      {
      }
    }
  }

  /** The result fits a 32-bit index: a request that passes the other checks fails exactly if its
      result would have 2^31 slots or more. */
  lemma SizeDecides(cpu: bool, g: Fields, s: Scalars)
    requires Sensible(s) && Validated(g, s) && Checked(cpu, g, s) && BothFit(g, s)
    ensures var slots := OutBatch(g, s) * OutHeads(g, s) * ((s.seqQ + 127) / 128) * OutWidth(g, s);
            && (Normalised(cpu, g, s).Some? <==> slots < 0x8000_0000)
            && (Normalised(cpu, g, s).Some? ==> |Normalised(cpu, g, s).value.0.idx| == |Normalised(cpu, g, s).value.1.idx| == slots)
  {
    AcceptedIff(cpu, g, s);
    BothShape(g, s);
    if Normalised(cpu, g, s).Some? {
      NormalisedParts(cpu, g, s);
      var x := UnpackBoth(g, s).value;
      hide Normalised, UnpackBoth, OutBatch, OutHeads, PairWidth, PairFits, Validated, Checked, Padded, Transpose;
    }
  }
}
