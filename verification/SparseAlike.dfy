/** Two requests over the same tensors: when normalisation does not tell them apart. */
module SparseAlike {
  import opened Arith
  import opened Wrappers
  import opened SparseLists
  import opened SparseGrid
  import opened SparsePacked
  import opened SparseRequest

  /** The boundary of the queries given for the keys, and the other way round. */
  function Swapped(g: Fields): Fields { g.(cuQ := g.cuK, cuK := g.cuQ) }

  /* Fixed lists. */

  /** Fixed lists do not read the boundaries. */
  lemma FixedSame(g: Fields, s: Scalars)
    requires g.cuRows.None? && Sensible(s) && Validated(g, s)
    ensures Validated(Swapped(g), s) && UnpackBoth(Swapped(g), s) == UnpackBoth(g, s)
  {
    var k := Swapped(g);
    assert UnpackPair(g.maskCnt, g.maskIdx, k, s) == UnpackPair(g.maskCnt, g.maskIdx, g, s);
    if g.fullCnt.Some? {
      assert UnpackPair(g.fullCnt.value, g.fullIdx.value, k, s) == UnpackPair(g.fullCnt.value, g.fullIdx.value, g, s);
    }
    hide UnpackPair, PairFits;
  }

  /** So they are normalised alike, unless one of the boundaries is refused for its side. */
  lemma FixedAlike(cpu: bool, g: Fields, s: Scalars)
    requires g.cuRows.None? && Accepted(cpu, g, s)
    ensures Normalised(cpu, Swapped(g), s) == Normalised(cpu, g, s) <==> Accepted(cpu, Swapped(g), s)
  {
    AcceptedIff(cpu, g, s);
    AcceptedIff(cpu, Swapped(g), s);
    FixedSame(g, s);
    hide UnpackBoth, Finished, Validated, BoundaryFits, BothFit, OutBatch, OutHeads, OutWidth;
    if Accepted(cpu, Swapped(g), s) {
      assert Checked(cpu, Swapped(g), s);
    }
  }

  /* Packed lists. */

  /** The same table as far as the result depends on it: every cell, or, for lists that are
      exchanged, the columns that every row names. */
  ghost predicate SameReading(a: Grid, b: Grid, s: Scalars)
    requires Sensible(s)
  {
    if s.backward then SameNames(a, b, ColBlocks(s)) else a == b
  }

  lemma TurnedAlike(a: Grid, b: Grid, s: Scalars)
    requires Sensible(s) && Shaped(a) && Shaped(b)
    requires a.batch == b.batch && a.heads == b.heads && a.rows == b.rows && a.width == b.width
    ensures Turned(a, s) == Turned(b, s) <==> SameReading(a, b, s)
    ensures Turned(a, s).width == Turned(b, s).width && Turned(a, s).rows == Turned(b, s).rows
  {
    if s.backward { SameTransposes(a, b, ColBlocks(s)); }
    hide SameNames, Transpose;
  }

  lemma FinishedAlike(p: Grid, f: Grid, p': Grid, f': Grid, s: Scalars)
    requires Sensible(s) && Shaped(p) && Shaped(f) && Shaped(p') && Shaped(f')
    requires p.batch == p'.batch && p.heads == p'.heads && p.rows == p'.rows && p.width == p'.width
    requires f.batch == f'.batch && f.heads == f'.heads && f.rows == f'.rows && f.width == f'.width
    requires Finished(p, f, s).Some?
    ensures Finished(p', f', s).Some?
    ensures Finished(p, f, s) == Finished(p', f', s) <==> SameReading(p, p', s) && SameReading(f, f', s)
  {
    TurnedAlike(p, p', s);
    TurnedAlike(f, f', s);
    var x, y, x', y' := Turned(p, s), Turned(f, s), Turned(p', s), Turned(f', s);
    var width := Max(Max(1, x.width), y.width);
    hide SameReading, Turned, Padded;
    PaddedApart(x, x', width);
    PaddedApart(y, y', width);
  }

  /** What the two readings of a request's lists have in common. */
  ghost predicate Alike(g: Fields, s: Scalars)
    requires Sensible(s) && Validated(g, s) && BothFit(g, s) && BothFit(Swapped(g), s)
  {
    BothShape(g, s);
    BothShape(Swapped(g), s);
    var x, y := UnpackBoth(g, s).value, UnpackBoth(Swapped(g), s).value;
    SameReading(x.0, y.0, s) && SameReading(x.1, y.1, s)
  }

  lemma SameShapes(g: Fields, s: Scalars)
    requires Sensible(s) && Validated(g, s) && BothFit(g, s)
    ensures Validated(Swapped(g), s) && BothFit(Swapped(g), s)
    ensures OutBatch(Swapped(g), s) == OutBatch(g, s) && OutHeads(Swapped(g), s) == OutHeads(g, s) && OutWidth(Swapped(g), s) == OutWidth(g, s)
    ensures PairWidth(g.maskCnt, g.maskIdx, Swapped(g), s) == PairWidth(g.maskCnt, g.maskIdx, g, s)
    ensures g.fullCnt.Some? ==> PairWidth(g.fullCnt.value, g.fullIdx.value, Swapped(g), s) == PairWidth(g.fullCnt.value, g.fullIdx.value, g, s)
  {
  }

  /** An accepted request and the one with the boundaries swapped are normalised alike exactly if
      the other one is accepted too and both read the same. */
  lemma SwapAlike(cpu: bool, g: Fields, s: Scalars)
    requires Accepted(cpu, g, s)
    ensures Validated(Swapped(g), s) && BothFit(Swapped(g), s)
    ensures Normalised(cpu, Swapped(g), s) == Normalised(cpu, g, s) <==> Accepted(cpu, Swapped(g), s) && Alike(g, s)
  {
    AcceptedIff(cpu, g, s);
    AcceptedIff(cpu, Swapped(g), s);
    SameShapes(g, s);
    BothShape(g, s);
    BothShape(Swapped(g), s);
    if Accepted(cpu, Swapped(g), s) {
      var x, y := UnpackBoth(g, s).value, UnpackBoth(Swapped(g), s).value;
      NormalisedIs(cpu, g, s);
      NormalisedIs(cpu, Swapped(g), s);
      AlikeIs(g, s);
      hide *;
      FinishedAlike(x.0, x.1, y.0, y.1, s);
    }
  }

  lemma NormalisedIs(cpu: bool, g: Fields, s: Scalars)
    requires Accepted(cpu, g, s)
    ensures UnpackBoth(g, s).Some? && Normalised(cpu, g, s) == Finished(UnpackBoth(g, s).value.0, UnpackBoth(g, s).value.1, s)
    ensures Shaped(UnpackBoth(g, s).value.0) && Shaped(UnpackBoth(g, s).value.1)
    ensures UnpackBoth(g, s).value.0.rows == UnpackBoth(g, s).value.1.rows == RowBlocks(s)
  {
    hide UnpackBoth, Finished, Validated, BoundaryFits, OutBatch, OutHeads, OutWidth;
    assert BothFit(g, s);
  }

  lemma AlikeIs(g: Fields, s: Scalars)
    requires Sensible(s) && Validated(g, s) && BothFit(g, s) && BothFit(Swapped(g), s)
    requires UnpackBoth(g, s).Some? && UnpackBoth(Swapped(g), s).Some?
    ensures var x, y := UnpackBoth(g, s).value, UnpackBoth(Swapped(g), s).value;
            Alike(g, s) <==> SameReading(x.0, y.0, s) && SameReading(x.1, y.1, s)
  {
    hide SameReading, UnpackBoth, BothFit, Swapped;
  }

  /* Which places of a packed list are read. */

  /** Place of the count of row m of segment i in a list of n counts; n is the zero behind them. */
  function CountPlace(rows: seq<nat>, cuRows: seq<int>, i: int, m: int, n: nat): (x: nat)
    requires 0 <= i < |rows| && i < |cuRows|
    ensures x <= n
  {
    Clamp(if m < rows[i] then cuRows[i] + m else n, n)
  }

  /** Place of slot w of that row in a list of n indices. */
  function SlotPlace(rows: seq<nat>, cols: seq<nat>, cuIdx: seq<int>, i: int, m: int, w: int, n: nat): (x: nat)
    requires 0 <= i < |rows| && i < |cols| && i < |cuIdx|
    ensures x <= n
  {
    Clamp(if m < rows[i] && w < cols[i] then cuIdx[i] + m * cols[i] + w else n, n)
  }

  /** Block counts and offsets that a packed list is read with. */
  datatype Reader = Reader(rows: seq<nat>, cols: seq<nat>, cuRows: seq<int>, cuIdx: seq<int>) {
    predicate Fits(batch: nat) { |rows| == |cols| == batch && |cuRows| == |cuIdx| == batch + 1 }
  }

  predicate SameCountPlace(a: Reader, b: Reader, i: int, m: int, n: nat) {
    0 <= i < |a.rows| && i < |a.cuRows| && i < |b.rows| && i < |b.cuRows|
    && CountPlace(a.rows, a.cuRows, i, m, n) == CountPlace(b.rows, b.cuRows, i, m, n)
  }

  predicate SameSlotPlace(a: Reader, b: Reader, i: int, m: int, w: int, n: nat) {
    && 0 <= i < |a.rows| && i < |a.cols| && i < |a.cuIdx| && i < |b.rows| && i < |b.cols| && i < |b.cuIdx|
    && SlotPlace(a.rows, a.cols, a.cuIdx, i, m, w, n) == SlotPlace(b.rows, b.cols, b.cuIdx, i, m, w, n)
  }

  /** Both read the same places of lists of `counts` counts and `slots` indices. */
  ghost predicate SamePlaces(a: Reader, b: Reader, batch: nat, M: nat, N: nat, counts: nat, slots: nat) {
    && (forall i, m :: 0 <= i < batch && 0 <= m < M ==> SameCountPlace(a, b, i, m, counts))
    && (forall i, m, w :: 0 <= i < batch && 0 <= m < M && 0 <= w < N ==> SameSlotPlace(a, b, i, m, w, slots))
  }

  /** The count of the row is read from the list. */
  predicate RowLive(a: Reader, i: int, m: int, counts: nat) {
    0 <= i < |a.rows| && i < |a.cuRows| && CountPlace(a.rows, a.cuRows, i, m, counts) < counts
  }

  /** Both read the same counts, and the same slots in every row whose count is read from the list. */
  ghost predicate SameLivePlaces(a: Reader, b: Reader, batch: nat, M: nat, N: nat, counts: nat, slots: nat) {
    && (forall i, m :: 0 <= i < batch && 0 <= m < M ==> SameCountPlace(a, b, i, m, counts))
    && (forall i, m, w :: 0 <= i < batch && 0 <= m < M && 0 <= w < N && RowLive(a, i, m, counts) ==> SameSlotPlace(a, b, i, m, w, slots))
  }

  function Read(p: Packed, r: Reader, M: nat, N: nat): Fixed
    requires r.Fits(|r.rows|)
  {
    Unpack(p, r.cuRows, r.cuIdx, r.rows, r.cols, M, N)
  }

  lemma ReadIs(p: Packed, r: Reader, M: nat, N: nat, i: int, m: int)
    requires r.Fits(|r.rows|) && 0 <= i < |r.rows| && 0 <= m < M
    ensures CountIn(Read(p, r, M, N), i, m) == At(p.cnt, CountPlace(r.rows, r.cuRows, i, m, |p.cnt|))
    ensures forall w :: 0 <= w < N ==> SlotIn(Read(p, r, M, N), i, m, w) == At(p.idx, SlotPlace(r.rows, r.cols, r.cuIdx, i, m, w, |p.idx|))
  {
    UnpackIs(p, r.cuRows, r.cuIdx, r.rows, r.cols, M, N, i, m);
    hide Unpack, Clamp, FixedShape;
  }

  /* The readers of a request. */

  function ReaderOf(g: Fields, s: Scalars): Reader
    requires Sensible(s) && Validated(g, s) && g.cuRows.Some?
  {
    Reader(RowSegments(g, s), ColSegments(g, s), g.cuRows.value.values, g.cuIdx.value.values)
  }

  /** Both readings take the same places of a pair of tensors: all of them or, for lists that are
      exchanged, those of rows that have a count. */
  ghost predicate PairPlaces(cnt: Content, idx: Content, g: Fields, s: Scalars)
    requires Sensible(s) && Validated(g, s) && g.cuRows.Some? && |cnt.shape| == 2 && |idx.shape| == 2
  {
    var a, b := ReaderOf(g, s), ReaderOf(Swapped(g), s);
    if s.backward then SameLivePlaces(a, b, s.batch, RowBlocks(s), ColBlocks(s), cnt.shape[1], idx.shape[1])
    else SamePlaces(a, b, s.batch, RowBlocks(s), ColBlocks(s), cnt.shape[1], idx.shape[1])
  }

  /** Both readings take the same places of every list; that depends on boundaries, offsets and
      lengths only. */
  ghost predicate PlacesAgree(g: Fields, s: Scalars)
    requires Sensible(s) && Validated(g, s) && g.cuRows.Some? && BothFit(g, s)
  {
    && PairPlaces(g.maskCnt, g.maskIdx, g, s)
    && (g.fullCnt.Some? ==> PairPlaces(g.fullCnt.value, g.fullIdx.value, g, s))
  }

  /** A packed pair, read by a request. */
  lemma PackedCells(cnt: Content, idx: Content, g: Fields, s: Scalars, i: int, j: int, m: int)
    requires Sensible(s) && Validated(g, s) && g.cuRows.Some? && PairFits(cnt, idx, g, s)
    requires 0 <= i < s.batch && 0 <= j < Max(cnt.shape[0], idx.shape[0]) && 0 <= m < RowBlocks(s)
    ensures UnpackPair(cnt, idx, g, s).Some?
    ensures |HeadOf(cnt, j)| == cnt.shape[1] && |HeadOf(idx, j)| == idx.shape[1]
    ensures var a, r := UnpackPair(cnt, idx, g, s).value, ReaderOf(g, s);
            && r.Fits(s.batch)
            && Cnt(a, i, j, m) == At(HeadOf(cnt, j), CountPlace(r.rows, r.cuRows, i, m, cnt.shape[1]))
            && forall w :: 0 <= w < ColBlocks(s) ==>
                 Idx(a, i, j, m, w) == At(HeadOf(idx, j), SlotPlace(r.rows, r.cols, r.cuIdx, i, m, w, idx.shape[1]))
  {
    var r, M, N := ReaderOf(g, s), RowBlocks(s), ColBlocks(s);
    var f := UnpackHeads(cnt, idx, g.cuRows.value, g.cuIdx.value, r.rows, r.cols, M, N);
    HeadFits(cnt, s, j, Max(cnt.shape[0], idx.shape[0]));
    HeadFits(idx, s, j, Max(cnt.shape[0], idx.shape[0]));
    var p := HeadLists(cnt, idx, j);
    ReadIs(p, r, M, N, i, m);
    assert f[j] == Read(p, r, M, N);
    JoinedCells(f, s.batch, M, N, i, j, m);
    hide Unpack, UnpackHeads, HeadOf, CountPlace, SlotPlace, Cnt, Idx, RowSegments, ColSegments, JoinHeads;
  }

  lemma HeadFits(c: Content, s: Scalars, j: int, h: nat)
    requires |c.shape| == 2 && AxisFits(c.shape[0], s.heads) && s.heads >= 1 && 0 <= j < h && (h == 1 || h == s.heads)
    ensures |HeadOf(c, j)| == c.shape[1]
  {
  }

  lemma SwappedIs(g: Fields, s: Scalars)
    requires Sensible(s) && Validated(g, s)
    ensures var k := Swapped(g);
            && Validated(k, s) && k.cuRows == g.cuRows && k.cuIdx == g.cuIdx && k.cuQ == g.cuK && k.cuK == g.cuQ
            && k.maskCnt == g.maskCnt && k.maskIdx == g.maskIdx && k.fullCnt == g.fullCnt && k.fullIdx == g.fullIdx
    ensures forall cnt: Content, idx: Content :: PairFits(cnt, idx, g, s) <==> PairFits(cnt, idx, Swapped(g), s)
  {
  }

  /** Reading the same places gives the same table. */
  lemma SamePlacesSamePair(cnt: Content, idx: Content, g: Fields, s: Scalars)
    requires Sensible(s) && Validated(g, s) && g.cuRows.Some? && PairFits(cnt, idx, g, s) && |cnt.shape| == 2 && |idx.shape| == 2
    requires Validated(Swapped(g), s) && Swapped(g).cuRows.Some?
    requires SamePlaces(ReaderOf(g, s), ReaderOf(Swapped(g), s), s.batch, RowBlocks(s), ColBlocks(s), cnt.shape[1], idx.shape[1])
    ensures UnpackPair(cnt, idx, Swapped(g), s) == UnpackPair(cnt, idx, g, s)
  {
    SwappedIs(g, s);
    var k := Swapped(g);
    PackedShape(cnt, idx, g, s);
    PackedShape(cnt, idx, k, s);
    var a, b := UnpackPair(cnt, idx, g, s).value, UnpackPair(cnt, idx, k, s).value;
    hide UnpackPair, PairFits, Swapped, ReaderOf, CountPlace, SlotPlace, Cnt, Idx, Validated, HeadOf;
    forall i, j, m | InGrid(a, i, j, m)
      ensures Cnt(a, i, j, m) == Cnt(b, i, j, m) && forall w :: 0 <= w < a.width ==> Idx(a, i, j, m, w) == Idx(b, i, j, m, w)
    {
      PackedCells(cnt, idx, g, s, i, j, m);
      PackedCells(cnt, idx, k, s, i, j, m);
      PlacesAt(ReaderOf(g, s), ReaderOf(k, s), s.batch, RowBlocks(s), ColBlocks(s), cnt.shape[1], idx.shape[1], i, m);
      hide *;
    }
    hide SamePlaces;
    SameGrid(a, b);
  }

  lemma PackedShape(cnt: Content, idx: Content, g: Fields, s: Scalars)
    requires Sensible(s) && Validated(g, s) && g.cuRows.Some? && PairFits(cnt, idx, g, s)
    ensures var a := UnpackPair(cnt, idx, g, s);
            && a.Some? && Shaped(a.value) && a.value.batch == s.batch && a.value.heads == Max(cnt.shape[0], idx.shape[0])
            && a.value.rows == RowBlocks(s) && a.value.width == ColBlocks(s)
  {
  }

  lemma PlacesAt(a: Reader, b: Reader, batch: nat, M: nat, N: nat, counts: nat, slots: nat, i: int, m: int)
    requires SamePlaces(a, b, batch, M, N, counts, slots) && a.Fits(batch) && b.Fits(batch) && 0 <= i < batch && 0 <= m < M
    ensures CountPlace(a.rows, a.cuRows, i, m, counts) == CountPlace(b.rows, b.cuRows, i, m, counts)
    ensures forall w :: 0 <= w < N ==> SlotPlace(a.rows, a.cols, a.cuIdx, i, m, w, slots) == SlotPlace(b.rows, b.cols, b.cuIdx, i, m, w, slots)
  {
    assert SameCountPlace(a, b, i, m, counts);
    forall w | 0 <= w < N
      ensures SlotPlace(a.rows, a.cols, a.cuIdx, i, m, w, slots) == SlotPlace(b.rows, b.cols, b.cuIdx, i, m, w, slots)
    {
      assert SameSlotPlace(a, b, i, m, w, slots);
    }
    hide CountPlace, SlotPlace;
  }

  lemma SamePairsAlike(g: Fields, s: Scalars)
    requires Sensible(s) && Validated(g, s) && BothFit(g, s) && Validated(Swapped(g), s) && BothFit(Swapped(g), s)
    requires UnpackPair(g.maskCnt, g.maskIdx, Swapped(g), s) == UnpackPair(g.maskCnt, g.maskIdx, g, s)
    requires g.fullCnt.Some? ==> UnpackPair(g.fullCnt.value, g.fullIdx.value, Swapped(g), s) == UnpackPair(g.fullCnt.value, g.fullIdx.value, g, s)
    ensures Alike(g, s)
  {
    SwappedIs(g, s);
    assert UnpackBoth(Swapped(g), s) == UnpackBoth(g, s) by { hide UnpackPair, PairFits, Swapped, Validated; }
    BothShape(g, s);
    hide UnpackPair, PairFits, UnpackBoth, Swapped;
    AlikeIs(g, s);
  }

  /** A row reads the same list, if its count is read from the list at all. */
  lemma LiveRowSame(cnt: Content, idx: Content, g: Fields, s: Scalars, i: int, j: int, m: int)
    requires Sensible(s) && Validated(g, s) && g.cuRows.Some? && PairFits(cnt, idx, g, s) && |cnt.shape| == 2 && |idx.shape| == 2
    requires Validated(Swapped(g), s) && Swapped(g).cuRows.Some? && PairFits(cnt, idx, Swapped(g), s)
    requires SameLivePlaces(ReaderOf(g, s), ReaderOf(Swapped(g), s), s.batch, RowBlocks(s), ColBlocks(s), cnt.shape[1], idx.shape[1])
    requires 0 <= i < s.batch && 0 <= j < Max(cnt.shape[0], idx.shape[0]) && 0 <= m < RowBlocks(s)
    ensures UnpackPair(cnt, idx, g, s).Some? && UnpackPair(cnt, idx, Swapped(g), s).Some?
    ensures Live(UnpackPair(cnt, idx, g, s).value, i, j, m) == Live(UnpackPair(cnt, idx, Swapped(g), s).value, i, j, m)
  {
    hide *;
    PackedCells(cnt, idx, g, s, i, j, m);
    PackedCells(cnt, idx, Swapped(g), s, i, j, m);
    PackedShape(cnt, idx, g, s);
    PackedShape(cnt, idx, Swapped(g), s);
    FitsIs(ReaderOf(g, s), s.batch);
    LivePlacesAt(ReaderOf(g, s), ReaderOf(Swapped(g), s), s.batch, RowBlocks(s), ColBlocks(s), cnt.shape[1], idx.shape[1], i, m);
    SameList(UnpackPair(cnt, idx, g, s).value, UnpackPair(cnt, idx, Swapped(g), s).value, i, j, m, HeadOf(cnt, j),
             CountPlace(ReaderOf(g, s).rows, ReaderOf(g, s).cuRows, i, m, cnt.shape[1]));
  }

  lemma FitsIs(r: Reader, batch: nat)
    requires r.Fits(batch)
    ensures |r.rows| == |r.cols| == batch && |r.cuRows| == |r.cuIdx| == batch + 1
  {
  }

  lemma LivePlacesAt(a: Reader, b: Reader, batch: nat, M: nat, N: nat, counts: nat, slots: nat, i: int, m: int)
    requires SameLivePlaces(a, b, batch, M, N, counts, slots) && a.Fits(batch) && b.Fits(batch) && 0 <= i < batch && 0 <= m < M
    ensures var x := CountPlace(a.rows, a.cuRows, i, m, counts);
            && CountPlace(b.rows, b.cuRows, i, m, counts) == x
            && (x < counts ==> forall w :: 0 <= w < N ==>
                  SlotPlace(a.rows, a.cols, a.cuIdx, i, m, w, slots) == SlotPlace(b.rows, b.cols, b.cuIdx, i, m, w, slots))
  {
    assert SameCountPlace(a, b, i, m, counts);
    if CountPlace(a.rows, a.cuRows, i, m, counts) < counts {
      assert RowLive(a, i, m, counts);
      forall w | 0 <= w < N
        ensures SlotPlace(a.rows, a.cols, a.cuIdx, i, m, w, slots) == SlotPlace(b.rows, b.cols, b.cuIdx, i, m, w, slots)
      {
        assert SameSlotPlace(a, b, i, m, w, slots);
      }
    }
    hide CountPlace, SlotPlace;
  }

  lemma SameList(a: Grid, b: Grid, i: int, j: int, m: int, counts: seq<int>, x: nat)
    requires a.width == b.width && Cnt(a, i, j, m) == Cnt(b, i, j, m) == At(counts, x)
    requires x < |counts| ==> forall w :: 0 <= w < a.width ==> Idx(a, i, j, m, w) == Idx(b, i, j, m, w)
    ensures Live(a, i, j, m) == Live(b, i, j, m)
  {
    hide Cnt, Idx;
  }

  /** The same live places give the same names. */
  lemma LivePairSame(cnt: Content, idx: Content, g: Fields, s: Scalars)
    requires Sensible(s) && Validated(g, s) && g.cuRows.Some? && PairFits(cnt, idx, g, s) && |cnt.shape| == 2 && |idx.shape| == 2
    requires Validated(Swapped(g), s) && Swapped(g).cuRows.Some? && PairFits(cnt, idx, Swapped(g), s)
    requires SameLivePlaces(ReaderOf(g, s), ReaderOf(Swapped(g), s), s.batch, RowBlocks(s), ColBlocks(s), cnt.shape[1], idx.shape[1])
    ensures UnpackPair(cnt, idx, g, s).Some? && UnpackPair(cnt, idx, Swapped(g), s).Some?
    ensures SameNames(UnpackPair(cnt, idx, g, s).value, UnpackPair(cnt, idx, Swapped(g), s).value, ColBlocks(s))
  {
    PackedShape(cnt, idx, g, s);
    PackedShape(cnt, idx, Swapped(g), s);
    var a, b := UnpackPair(cnt, idx, g, s).value, UnpackPair(cnt, idx, Swapped(g), s).value;
    hide SameLivePlaces, UnpackPair, PairFits, Validated, Swapped, ReaderOf, Live;
    forall i, j, m, c | InGrid(a, i, j, m) && 0 <= c < ColBlocks(s)
      ensures Names(a, i, j, m, c) <==> Names(b, i, j, m, c)
    {
      LiveRowSame(cnt, idx, g, s, i, j, m);
    }
  }

  /** Names of an unpacked request are those of its pairs. */
  lemma NamesOfPair(g: Fields, s: Scalars, i: int, j: int, m: int)
    requires Sensible(s) && Validated(g, s) && g.cuRows.Some? && BothFit(g, s) && UnpackBoth(g, s).Some?
    requires InGrid(UnpackBoth(g, s).value.0, i, j, m)
    ensures UnpackPair(g.maskCnt, g.maskIdx, g, s).Some?
    ensures g.fullCnt.Some? ==> UnpackPair(g.fullCnt.value, g.fullIdx.value, g, s).Some?
    ensures var x, p := UnpackBoth(g, s).value, UnpackPair(g.maskCnt, g.maskIdx, g, s).value;
            Live(x.0, i, j, m) == Live(p, i, Bc(j, p.heads), m) && InGrid(p, i, Bc(j, p.heads), m)
    ensures g.fullCnt.Some? ==>
              var x, p := UnpackBoth(g, s).value, UnpackPair(g.fullCnt.value, g.fullIdx.value, g, s).value;
              Live(x.1, i, j, m) == Live(p, i, Bc(j, p.heads), m) && InGrid(p, i, Bc(j, p.heads), m)
    ensures g.fullCnt.None? ==> Live(UnpackBoth(g, s).value.1, i, j, m) == []
  {
    BothLists(g, s, i, j, m);
    BothShape(g, s);
    PackedHeads(g.maskCnt, g.maskIdx, g, s, j);
    if g.fullCnt.Some? { PackedHeads(g.fullCnt.value, g.fullIdx.value, g, s, j); }
    hide UnpackPair, UnpackBoth, PairFits, Live, Cnt, Validated;
  }

  lemma PackedHeads(cnt: Content, idx: Content, g: Fields, s: Scalars, j: int)
    requires Sensible(s) && Validated(g, s) && g.cuRows.Some? && BothFit(g, s) && PairFits(cnt, idx, g, s)
    requires (cnt == g.maskCnt && idx == g.maskIdx) || (g.fullCnt == Some(cnt) && g.fullIdx == Some(idx))
    requires 0 <= j < OutHeads(g, s)
    ensures UnpackPair(cnt, idx, g, s).Some? && OutBatch(g, s) == s.batch
    ensures var p := UnpackPair(cnt, idx, g, s).value;
            && p.batch == s.batch && p.rows == RowBlocks(s) && 0 <= Bc(j, p.heads) < p.heads
            && forall i :: 0 <= i < s.batch ==> Bc(i, p.batch) == i
  {
    PackedShape(cnt, idx, g, s);
    hide UnpackPair, RowBlocks, ColBlocks;
  }

  /** Pairs with the same names make requests that are alike in the backward pass. */
  lemma NamesAlike(g: Fields, s: Scalars)
    requires Sensible(s) && Validated(g, s) && g.cuRows.Some? && BothFit(g, s) && s.backward
    requires Validated(Swapped(g), s) && Swapped(g).cuRows.Some? && BothFit(Swapped(g), s)
    requires PairNames(g.maskCnt, g.maskIdx, g, s) && (g.fullCnt.Some? ==> PairNames(g.fullCnt.value, g.fullIdx.value, g, s))
    ensures Alike(g, s)
  {
    SwappedIs(g, s);
    var k := Swapped(g);
    BothShape(g, s);
    BothShape(k, s);
    SameShapes(g, s);
    var x, y := UnpackBoth(g, s).value, UnpackBoth(k, s).value;
    hide UnpackPair, UnpackBoth, PairFits, Live, Validated, Swapped, Alike, BothFit, OutHeads, OutBatch, SameNames;
    forall i, j, m, c | InGrid(x.0, i, j, m) && 0 <= c < ColBlocks(s)
      ensures Names(x.0, i, j, m, c) <==> Names(y.0, i, j, m, c)
      ensures Names(x.1, i, j, m, c) <==> Names(y.1, i, j, m, c)
    {
      NamesOfPair(g, s, i, j, m);
      NamesOfPair(k, s, i, j, m);
      PairNamesAt(g.maskCnt, g.maskIdx, g, s, i, j, m, c);
      if g.fullCnt.Some? { PairNamesAt(g.fullCnt.value, g.fullIdx.value, g, s, i, j, m, c); }
    }
    assert SameNames(x.0, y.0, ColBlocks(s)) && SameNames(x.1, y.1, ColBlocks(s)) by { NamesSame(x.0, y.0, ColBlocks(s)); NamesSame(x.1, y.1, ColBlocks(s)); }
    AlikeIs(g, s);
  }

  lemma NamesSame(a: Grid, b: Grid, cols: nat)
    requires forall i, j, m, c :: InGrid(a, i, j, m) && 0 <= c < cols ==> (Names(a, i, j, m, c) <==> Names(b, i, j, m, c))
    ensures SameNames(a, b, cols)
  {
  }

  /** Both readings of a pair name the same columns. */
  ghost predicate PairNames(cnt: Content, idx: Content, g: Fields, s: Scalars)
    requires Sensible(s) && Validated(g, s) && Validated(Swapped(g), s)
  {
    var a, b := UnpackPair(cnt, idx, g, s), UnpackPair(cnt, idx, Swapped(g), s);
    a.Some? && b.Some? && SameNames(a.value, b.value, ColBlocks(s))
  }

  lemma PairNamesAt(cnt: Content, idx: Content, g: Fields, s: Scalars, i: int, j: int, m: int, c: int)
    requires Sensible(s) && Validated(g, s) && g.cuRows.Some? && BothFit(g, s) && PairFits(cnt, idx, g, s)
    requires Validated(Swapped(g), s) && PairNames(cnt, idx, g, s) && 0 <= c < ColBlocks(s)
    requires UnpackPair(cnt, idx, g, s).Some? && UnpackPair(cnt, idx, Swapped(g), s).Some?
    requires var p := UnpackPair(cnt, idx, g, s).value; InGrid(p, i, Bc(j, p.heads), m)
    ensures var p, q := UnpackPair(cnt, idx, g, s).value, UnpackPair(cnt, idx, Swapped(g), s).value;
            p.heads == q.heads && (c in Live(p, i, Bc(j, p.heads), m) <==> c in Live(q, i, Bc(j, q.heads), m))
  {
    SwappedIs(g, s);
    PackedShape(cnt, idx, g, s);
    PackedShape(cnt, idx, Swapped(g), s);
    var p, q := UnpackPair(cnt, idx, g, s).value, UnpackPair(cnt, idx, Swapped(g), s).value;
    hide UnpackPair, PairFits, Live, Validated, Swapped, BothFit;
    assert Names(p, i, Bc(j, p.heads), m, c) <==> Names(q, i, Bc(j, p.heads), m, c);
  }

  /** Requests that read the same places are alike, whatever the lists hold. */
  lemma PlacesSuffice(g: Fields, s: Scalars)
    requires Sensible(s) && Validated(g, s) && g.cuRows.Some? && BothFit(g, s) && PlacesAgree(g, s)
    ensures Validated(Swapped(g), s) && BothFit(Swapped(g), s) && Alike(g, s)
  {
    SameShapes(g, s);
    SwappedIs(g, s);
    assert PairFits(g.maskCnt, g.maskIdx, g, s);
    hide Swapped, SamePlaces, SameLivePlaces, UnpackPair, Alike;
    if s.backward {
      LivePairSame(g.maskCnt, g.maskIdx, g, s);
      if g.fullCnt.Some? { LivePairSame(g.fullCnt.value, g.fullIdx.value, g, s); }
      hide SameNames;
      NamesAlike(g, s);
    } else {
      SamePlacesSamePair(g.maskCnt, g.maskIdx, g, s);
      if g.fullCnt.Some? { SamePlacesSamePair(g.fullCnt.value, g.fullIdx.value, g, s); }
      SamePairsAlike(g, s);
    }
  }

  /* Well-formed metadata. */

  /** The block counts of the request fit the offsets of its packed lists. */
  ghost predicate OffsetsMatch(g: Fields, s: Scalars)
    requires Sensible(s) && Validated(g, s) && g.cuRows.Some?
  {
    var r := ReaderOf(g, s);
    OffsetsFit(r.rows, r.cols, r.cuRows, r.cuIdx)
  }

  lemma MatchingSamePair(cnt: Content, idx: Content, g: Fields, s: Scalars)
    requires Sensible(s) && Validated(g, s) && g.cuRows.Some? && PairFits(cnt, idx, g, s)
    requires Validated(Swapped(g), s) && OffsetsMatch(g, s) && OffsetsMatch(Swapped(g), s)
    ensures UnpackPair(cnt, idx, Swapped(g), s) == UnpackPair(cnt, idx, g, s)
  {
    SwappedIs(g, s);
    var a, b, M, N := ReaderOf(g, s), ReaderOf(Swapped(g), s), RowBlocks(s), ColBlocks(s);
    var cuRows, cuIdx := g.cuRows.value, g.cuIdx.value;
    PackedReader(cnt, idx, g, s);
    PackedReader(cnt, idx, Swapped(g), s);
    SameReaders(g, s);
    hide OffsetsFit, PairFits, UnpackPair, Unpack, UnpackHeads, ReaderOf, Swapped, Validated;
    var f := UnpackHeads(cnt, idx, cuRows, cuIdx, a.rows, a.cols, M, N);
    var h := UnpackHeads(cnt, idx, cuRows, cuIdx, b.rows, b.cols, M, N);
    forall j | 0 <= j < |f|
      ensures f[j] == h[j]
    {
      UnpackByOffsets(HeadLists(cnt, idx, j), a.rows, a.cols, b.rows, b.cols, cuRows.values, cuIdx.values, M, N);
    }
    assert f == h;
  }

  lemma SameReaders(g: Fields, s: Scalars)
    requires Sensible(s) && Validated(g, s) && g.cuRows.Some? && Validated(Swapped(g), s)
    ensures Swapped(g).cuRows.Some? && ReaderOf(Swapped(g), s).cuRows == ReaderOf(g, s).cuRows == g.cuRows.value.values
    ensures ReaderOf(Swapped(g), s).cuIdx == ReaderOf(g, s).cuIdx == g.cuIdx.value.values
  {
    hide RowSegments, ColSegments;
  }

  lemma PackedReader(cnt: Content, idx: Content, g: Fields, s: Scalars)
    requires Sensible(s) && Validated(g, s) && g.cuRows.Some? && PairFits(cnt, idx, g, s)
    ensures ReaderOf(g, s).Fits(s.batch) && |cnt.shape| == 2 && |idx.shape| == 2
    ensures |g.cuRows.value.values| == |g.cuIdx.value.values| == s.batch + 1
    ensures var r := ReaderOf(g, s);
            UnpackPair(cnt, idx, g, s)
              == Some(JoinHeads(UnpackHeads(cnt, idx, g.cuRows.value, g.cuIdx.value, r.rows, r.cols, RowBlocks(s), ColBlocks(s)),
                                s.batch, RowBlocks(s), ColBlocks(s)))
  {
    hide UnpackHeads, JoinHeads, RowSegments, ColSegments;
  }

  /** Requests that both fit the offsets are alike, whatever the lists hold. */
  lemma MatchingAlike(g: Fields, s: Scalars)
    requires Sensible(s) && Validated(g, s) && g.cuRows.Some? && BothFit(g, s)
    requires Validated(Swapped(g), s) && OffsetsMatch(g, s) && OffsetsMatch(Swapped(g), s)
    ensures BothFit(Swapped(g), s) && Alike(g, s)
  {
    SameShapes(g, s);
    SwappedIs(g, s);
    assert PairFits(g.maskCnt, g.maskIdx, g, s);
    hide Swapped, OffsetsMatch, UnpackPair, Alike;
    MatchingSamePair(g.maskCnt, g.maskIdx, g, s);
    if g.fullCnt.Some? {
      MatchingSamePair(g.fullCnt.value, g.fullIdx.value, g, s);
    }
    SamePairsAlike(g, s);
  }

  /* The places decide. */

  /** The same boundaries, offsets and shapes; the lists may hold anything. */
  ghost predicate SameBounds(g: Fields, h: Fields) {
    && h.cuRows == g.cuRows && h.cuIdx == g.cuIdx && h.cuQ == g.cuQ && h.cuK == g.cuK
    && h.maskCnt.shape == g.maskCnt.shape && h.maskIdx.shape == g.maskIdx.shape
    && SameShape(g.fullCnt, h.fullCnt) && SameShape(g.fullIdx, h.fullIdx)
  }

  predicate SameShape(a: Option<Content>, b: Option<Content>) {
    (a.Some? <==> b.Some?) && (a.Some? ==> a.value.shape == b.value.shape)
  }

  lemma BoundsFit(cpu: bool, g: Fields, h: Fields, s: Scalars)
    requires SameBounds(g, h) && Sensible(s) && Validated(g, s) && BothFit(g, s)
    ensures Validated(h, s) && BothFit(h, s) && SameBounds(Swapped(g), Swapped(h))
    ensures Accepted(cpu, g, s) <==> Accepted(cpu, h, s)
  {
  }

  lemma BoundsAgree(g: Fields, h: Fields, s: Scalars)
    requires SameBounds(g, h) && Sensible(s) && Validated(g, s) && BothFit(g, s) && Validated(h, s) && BothFit(h, s)
    requires g.cuRows.Some? && h.cuRows.Some?
    ensures PlacesAgree(g, s) <==> PlacesAgree(h, s)
  {
    hide SamePlaces, SameLivePlaces;
  }

  /** A tensor of that shape that holds v everywhere but u at place k. */
  function Filled(c: Content, v: int, k: int, u: int): (r: Content)
    ensures r.shape == c.shape
  {
    Data(c.shape, seq(|c.values|, e => if e == k then u else v))
  }

  lemma FilledIn(c: Content, v: int, k: int, u: int, x: int)
    requires |c.shape| == 2 && c.shape[0] >= 1 && k < c.shape[1] && 0 <= x <= c.shape[1]
    ensures |HeadOf(Filled(c, v, k, u), 0)| == c.shape[1]
    ensures At(HeadOf(Filled(c, v, k, u), 0), x) == if x == c.shape[1] then 0 else if x == k then u else v
  {
    var r := Filled(c, v, k, u);
    Volumes(c.shape[0], c.shape[1], 0, 0);
    assert c.shape == [c.shape[0], c.shape[1]];
    MulMono(1, c.shape[0], c.shape[1]);
    assert HeadOf(r, 0) == r.values[0..c.shape[1]];
    hide Volume;
  }

  /** The tables of both readings differ in a cell of head 0. */
  ghost predicate ApartAt(a: Grid, b: Grid, i: int, m: int, w: int) {
    && 0 <= i < a.batch && a.heads >= 1 && 0 <= m < a.rows
    && if w < 0 then Cnt(a, i, 0, m) != Cnt(b, i, 0, m) else w < a.width && Idx(a, i, 0, m, w) != Idx(b, i, 0, m, w)
  }

  lemma CountApart(cnt: Content, idx: Content, g: Fields, s: Scalars, i: int, m: int) returns (c: Content)
    requires Sensible(s) && Validated(g, s) && g.cuRows.Some? && PairFits(cnt, idx, g, s) && |cnt.shape| == 2 && |idx.shape| == 2
    requires Validated(Swapped(g), s) && Swapped(g).cuRows.Some?
    requires 0 <= i < s.batch && 0 <= m < RowBlocks(s) && !SameCountPlace(ReaderOf(g, s), ReaderOf(Swapped(g), s), i, m, cnt.shape[1])
    ensures c.shape == cnt.shape && UnpackPair(c, idx, g, s).Some? && UnpackPair(c, idx, Swapped(g), s).Some?
    ensures ApartAt(UnpackPair(c, idx, g, s).value, UnpackPair(c, idx, Swapped(g), s).value, i, m, -1)
  {
    SwappedIs(g, s);
    var a, b, n := ReaderOf(g, s), ReaderOf(Swapped(g), s), cnt.shape[1];
    PackedReader(cnt, idx, g, s);
    PackedReader(cnt, idx, Swapped(g), s);
    var x, y := CountPlace(a.rows, a.cuRows, i, m, n), CountPlace(b.rows, b.cuRows, i, m, n);
    assert x != y;
    var k := if x < n then x else y;
    c := Filled(cnt, 0, k, 1);
    SameShapeFits(cnt, idx, c, idx, g, s);
    HeadsExist(cnt, s);
    FilledIn(cnt, 0, k, 1, x);
    FilledIn(cnt, 0, k, 1, y);
    PackedShape(c, idx, g, s);
    hide CountPlace, SlotPlace, PairFits, UnpackPair, Validated, Swapped, ReaderOf, HeadOf, Filled, Cnt, Idx;
    PackedCells(c, idx, g, s, i, 0, m);
    PackedCells(c, idx, Swapped(g), s, i, 0, m);
  }

  lemma SameShapeFits(cnt: Content, idx: Content, c: Content, x: Content, g: Fields, s: Scalars)
    requires Sensible(s) && Validated(g, s) && PairFits(cnt, idx, g, s) && c.shape == cnt.shape && x.shape == idx.shape
    requires Validated(Swapped(g), s)
    ensures PairFits(c, x, g, s) && PairFits(c, x, Swapped(g), s)
  {
  }

  lemma HeadsExist(c: Content, s: Scalars)
    requires |c.shape| == 2 && Sensible(s)
    ensures AxisFits(c.shape[0], s.heads) ==> c.shape[0] >= 1
  {
  }

  lemma SlotApart(cnt: Content, idx: Content, g: Fields, s: Scalars, i: int, m: int, w: int) returns (c: Content)
    requires Sensible(s) && Validated(g, s) && g.cuRows.Some? && PairFits(cnt, idx, g, s) && |cnt.shape| == 2 && |idx.shape| == 2
    requires Validated(Swapped(g), s) && Swapped(g).cuRows.Some?
    requires 0 <= i < s.batch && 0 <= m < RowBlocks(s) && 0 <= w < ColBlocks(s)
    requires !SameSlotPlace(ReaderOf(g, s), ReaderOf(Swapped(g), s), i, m, w, idx.shape[1])
    ensures c.shape == idx.shape && UnpackPair(cnt, c, g, s).Some? && UnpackPair(cnt, c, Swapped(g), s).Some?
    ensures ApartAt(UnpackPair(cnt, c, g, s).value, UnpackPair(cnt, c, Swapped(g), s).value, i, m, w)
  {
    SwappedIs(g, s);
    var a, b, n := ReaderOf(g, s), ReaderOf(Swapped(g), s), idx.shape[1];
    PackedReader(cnt, idx, g, s);
    PackedReader(cnt, idx, Swapped(g), s);
    var x, y := SlotPlace(a.rows, a.cols, a.cuIdx, i, m, w, n), SlotPlace(b.rows, b.cols, b.cuIdx, i, m, w, n);
    assert x != y;
    var k := if x < n then x else y;
    c := Filled(idx, 0, k, 1);
    SameShapeFits(cnt, idx, cnt, c, g, s);
    HeadsExist(idx, s);
    FilledIn(idx, 0, k, 1, x);
    FilledIn(idx, 0, k, 1, y);
    PackedShape(cnt, c, g, s);
    hide CountPlace, SlotPlace, PairFits, UnpackPair, Validated, Swapped, ReaderOf, HeadOf, Filled, Cnt, Idx;
    PackedCells(cnt, c, g, s, i, 0, m);
    PackedCells(cnt, c, Swapped(g), s, i, 0, m);
  }

  lemma PairApart(cnt: Content, idx: Content, g: Fields, s: Scalars) returns (c: Content, x: Content, i: int, m: int, w: int)
    requires Sensible(s) && Validated(g, s) && g.cuRows.Some? && PairFits(cnt, idx, g, s) && |cnt.shape| == 2 && |idx.shape| == 2
    requires Validated(Swapped(g), s) && Swapped(g).cuRows.Some?
    requires !SamePlaces(ReaderOf(g, s), ReaderOf(Swapped(g), s), s.batch, RowBlocks(s), ColBlocks(s), cnt.shape[1], idx.shape[1])
    ensures c.shape == cnt.shape && x.shape == idx.shape && UnpackPair(c, x, g, s).Some? && UnpackPair(c, x, Swapped(g), s).Some?
    ensures ApartAt(UnpackPair(c, x, g, s).value, UnpackPair(c, x, Swapped(g), s).value, i, m, w)
  {
    var a, b, M, N := ReaderOf(g, s), ReaderOf(Swapped(g), s), RowBlocks(s), ColBlocks(s);
    hide ReaderOf, Swapped, Validated, PairFits, UnpackPair, SameCountPlace, SameSlotPlace, ApartAt;
    c, x, w := cnt, idx, -1;
    if k, n :| 0 <= k < s.batch && 0 <= n < M && !SameCountPlace(a, b, k, n, cnt.shape[1]) {
      i, m := k, n;
      c := CountApart(cnt, idx, g, s, i, m);
    } else {
      i, m, w :| 0 <= i < s.batch && 0 <= m < M && 0 <= w < N && !SameSlotPlace(a, b, i, m, w, idx.shape[1]);
      x := SlotApart(cnt, idx, g, s, i, m, w);
    }
  }

  lemma SpreadApart(a: Grid, b: Grid, B: nat, h: nat, i: int, m: int, w: int)
    requires ApartAt(a, b, i, m, w) && a.batch == b.batch == B && a.heads == b.heads && a.rows == b.rows && a.width == b.width && h >= 1
    ensures a != b && Spread(a, B, h) != Spread(b, B, h)
  {
    SpreadList(a, B, h, i, 0, m);
    SpreadList(b, B, h, i, 0, m);
    assert Bc(i, B) == i && Bc(0, a.heads) == 0;
    hide Spread, Cnt, Idx, Live;
  }

  /** Different partial tables, or different full tables, make the readings differ. */
  lemma ApartNotAlike(cnt: Content, idx: Content, h: Fields, s: Scalars, i: int, m: int, w: int)
    requires Sensible(s) && Validated(h, s) && h.cuRows.Some? && BothFit(h, s) && Validated(Swapped(h), s) && BothFit(Swapped(h), s)
    requires (cnt == h.maskCnt && idx == h.maskIdx) || (h.fullCnt == Some(cnt) && h.fullIdx == Some(idx))
    requires UnpackPair(cnt, idx, h, s).Some? && UnpackPair(cnt, idx, Swapped(h), s).Some? && !s.backward
    requires ApartAt(UnpackPair(cnt, idx, h, s).value, UnpackPair(cnt, idx, Swapped(h), s).value, i, m, w)
    ensures !Alike(h, s)
  {
    SwappedIs(h, s);
    var k := Swapped(h);
    PackedShape(cnt, idx, h, s);
    PackedShape(cnt, idx, k, s);
    HeadsPositive(cnt, idx, h, s);
    BothShape(h, s);
    BothShape(k, s);
    AlikeIs(h, s);
    SameShapes(h, s);
    var a, b := UnpackPair(cnt, idx, h, s).value, UnpackPair(cnt, idx, k, s).value;
    SpreadOf(cnt, idx, h, s);
    SpreadOf(cnt, idx, k, s);
    hide UnpackPair, UnpackBoth, PairFits, Swapped, Validated, Alike, ApartAt, OutHeads, OutBatch;
    SpreadApart(a, b, s.batch, OutHeads(h, s), i, m, w);
  }

  /* The same for lists that are exchanged: one reading names column 0, the other does not. */

  ghost predicate NameApart(a: Grid, b: Grid, i: int, m: int) {
    && 0 <= i < a.batch && a.heads >= 1 && 0 <= m < a.rows
    && (0 in Live(a, i, 0, m)) != (0 in Live(b, i, 0, m))
  }

  lemma NamesZero(a: Grid, i: int, m: int, w: int)
    requires Cnt(a, i, 0, m) == w + 1 && 0 <= w < a.width && Idx(a, i, 0, m, w) == 0
    ensures 0 in Live(a, i, 0, m)
  {
    assert Live(a, i, 0, m)[w] == 0;
  }

  lemma NamesNoZero(a: Grid, i: int, m: int)
    requires forall w :: 0 <= w < a.width && w < Cnt(a, i, 0, m) ==> Idx(a, i, 0, m, w) != 0
    ensures 0 !in Live(a, i, 0, m)
  {
    hide Cnt, Idx;
  }

  /** Cells of head 0 of a reading. */
  lemma HeadCells(cnt: Content, idx: Content, g: Fields, s: Scalars, i: int, m: int)
    requires Sensible(s) && Validated(g, s) && g.cuRows.Some? && PairFits(cnt, idx, g, s) && |cnt.shape| == 2 && |idx.shape| == 2
    requires 0 <= i < s.batch && 0 <= m < RowBlocks(s)
    ensures UnpackPair(cnt, idx, g, s).Some? && ReaderOf(g, s).Fits(s.batch)
    ensures var a, r := UnpackPair(cnt, idx, g, s).value, ReaderOf(g, s);
            && a.batch == s.batch && a.heads >= 1 && a.rows == RowBlocks(s) && a.width == ColBlocks(s) >= 1
            && Cnt(a, i, 0, m) == At(HeadOf(cnt, 0), CountPlace(r.rows, r.cuRows, i, m, cnt.shape[1]))
            && forall w :: 0 <= w < ColBlocks(s) ==>
                 Idx(a, i, 0, m, w) == At(HeadOf(idx, 0), SlotPlace(r.rows, r.cols, r.cuIdx, i, m, w, idx.shape[1]))
  {
    HeadsExist(cnt, s);
    PackedShape(cnt, idx, g, s);
    PackedCells(cnt, idx, g, s, i, 0, m);
    hide UnpackPair, ReaderOf, HeadOf, CountPlace, SlotPlace, Cnt, Idx, Validated;
  }

  /** A count at place x names column 0 exactly if it is the single one. */
  lemma OneCount(cnt: Content, idx: Content, c: Content, x: Content, k: int, g: Fields, s: Scalars, i: int, m: int)
    requires Sensible(s) && Validated(g, s) && g.cuRows.Some? && PairFits(c, x, g, s) && |cnt.shape| == 2 && |idx.shape| == 2
    requires c == Filled(cnt, 0, k, 1) && x == Filled(idx, 0, -1, 0) && k < cnt.shape[1] && cnt.shape[0] >= 1 && idx.shape[0] >= 1
    requires 0 <= i < s.batch && 0 <= m < RowBlocks(s)
    ensures UnpackPair(c, x, g, s).Some? && ReaderOf(g, s).Fits(s.batch)
    ensures var r := ReaderOf(g, s);
            0 in Live(UnpackPair(c, x, g, s).value, i, 0, m) <==> CountPlace(r.rows, r.cuRows, i, m, cnt.shape[1]) == k
  {
    HeadCells(c, x, g, s, i, m);
    var a, r := UnpackPair(c, x, g, s).value, ReaderOf(g, s);
    var at := CountPlace(r.rows, r.cuRows, i, m, cnt.shape[1]);
    FilledIn(cnt, 0, k, 1, at);
    FilledIn(idx, 0, -1, 0, SlotPlace(r.rows, r.cols, r.cuIdx, i, m, 0, idx.shape[1]));
    hide UnpackPair, ReaderOf, HeadOf, CountPlace, SlotPlace, Cnt, Idx, Validated, PairFits, Live, Filled;
    if at == k { NamesZero(a, i, m, 0); } else { NamesNoZero(a, i, m); }
  }

  /** With w + 1 entries, all one but for place p, a row names column 0 if slot w reads it or the
      zero behind the list, and does not if all slots read places before it. */
  lemma LastSlot(cnt: Content, idx: Content, c: Content, x: Content, p: int, w: int, g: Fields, s: Scalars, i: int, m: int)
    requires Sensible(s) && Validated(g, s) && g.cuRows.Some? && PairFits(c, x, g, s) && |cnt.shape| == 2 && |idx.shape| == 2
    requires c == Filled(cnt, w + 1, -1, 0) && cnt.shape[0] >= 1 && idx.shape[0] >= 1
    requires 0 <= p <= idx.shape[1] && x == Filled(idx, 1, if p < idx.shape[1] then p else -1, 0)
    requires 0 <= i < s.batch && 0 <= m < RowBlocks(s) && 0 <= w < ColBlocks(s)
    requires ReaderOf(g, s).Fits(s.batch) && RowLive(ReaderOf(g, s), i, m, cnt.shape[1])
    ensures UnpackPair(c, x, g, s).Some?
    ensures var r, a := ReaderOf(g, s), UnpackPair(c, x, g, s).value;
            var at := SlotPlace(r.rows, r.cols, r.cuIdx, i, m, w, idx.shape[1]);
            (at == p ==> 0 in Live(a, i, 0, m)) && (at < p ==> 0 !in Live(a, i, 0, m))
  {
    HeadCells(c, x, g, s, i, m);
    var a, r, n := UnpackPair(c, x, g, s).value, ReaderOf(g, s), idx.shape[1];
    var k := if p < n then p else -1;
    FilledIn(cnt, w + 1, -1, 0, CountPlace(r.rows, r.cuRows, i, m, cnt.shape[1]));
    assert CountPlace(r.rows, r.cuRows, i, m, cnt.shape[1]) < cnt.shape[1];
    hide UnpackPair, ReaderOf, HeadOf, CountPlace, Cnt, Idx, Validated, PairFits, Live, Filled, Clamp;
    var at := SlotPlace(r.rows, r.cols, r.cuIdx, i, m, w, n);
    FilledIn(idx, 1, k, 0, at);
    if at == p {
      NamesZero(a, i, m, w);
    }
    if at < p {
      forall v | 0 <= v < a.width && v < Cnt(a, i, 0, m)
        ensures Idx(a, i, 0, m, v) != 0
      {
        SlotsAscend(r, i, m, v, w, n);
        FilledIn(idx, 1, k, 0, SlotPlace(r.rows, r.cols, r.cuIdx, i, m, v, n));
      }
      NamesNoZero(a, i, m);
    }
  }

  lemma SlotsAscend(r: Reader, i: int, m: int, v: int, w: int, n: nat)
    requires 0 <= i < |r.rows| && i < |r.cols| && i < |r.cuIdx| && v <= w
    ensures SlotPlace(r.rows, r.cols, r.cuIdx, i, m, v, n) <= SlotPlace(r.rows, r.cols, r.cuIdx, i, m, w, n)
  {
  }

  lemma NamesDiffer(cnt: Content, idx: Content, g: Fields, s: Scalars) returns (c: Content, x: Content, i: int, m: int)
    requires Sensible(s) && Validated(g, s) && g.cuRows.Some? && PairFits(cnt, idx, g, s) && |cnt.shape| == 2 && |idx.shape| == 2
    requires Validated(Swapped(g), s) && Swapped(g).cuRows.Some?
    requires !SameLivePlaces(ReaderOf(g, s), ReaderOf(Swapped(g), s), s.batch, RowBlocks(s), ColBlocks(s), cnt.shape[1], idx.shape[1])
    ensures c.shape == cnt.shape && x.shape == idx.shape && UnpackPair(c, x, g, s).Some? && UnpackPair(c, x, Swapped(g), s).Some?
    ensures NameApart(UnpackPair(c, x, g, s).value, UnpackPair(c, x, Swapped(g), s).value, i, m)
  {
    var a, b, M, N := ReaderOf(g, s), ReaderOf(Swapped(g), s), RowBlocks(s), ColBlocks(s);
    hide ReaderOf, Swapped, Validated, PairFits, UnpackPair, SameCountPlace, SameSlotPlace, NameApart, RowLive;
    if k, n :| 0 <= k < s.batch && 0 <= n < M && !SameCountPlace(a, b, k, n, cnt.shape[1]) {
      i, m := k, n;
      c, x := CountNamesDiffer(cnt, idx, g, s, i, m);
    } else {
      var w;
      i, m, w :| 0 <= i < s.batch && 0 <= m < M && 0 <= w < N && RowLive(a, i, m, cnt.shape[1]) && !SameSlotPlace(a, b, i, m, w, idx.shape[1]);
      assert SameCountPlace(a, b, i, m, cnt.shape[1]);
      c, x := SlotNamesDiffer(cnt, idx, g, s, i, m, w);
    }
  }

  lemma CountNamesDiffer(cnt: Content, idx: Content, g: Fields, s: Scalars, i: int, m: int) returns (c: Content, x: Content)
    requires Sensible(s) && Validated(g, s) && g.cuRows.Some? && PairFits(cnt, idx, g, s) && |cnt.shape| == 2 && |idx.shape| == 2
    requires Validated(Swapped(g), s) && Swapped(g).cuRows.Some?
    requires 0 <= i < s.batch && 0 <= m < RowBlocks(s) && !SameCountPlace(ReaderOf(g, s), ReaderOf(Swapped(g), s), i, m, cnt.shape[1])
    ensures c.shape == cnt.shape && x.shape == idx.shape && UnpackPair(c, x, g, s).Some? && UnpackPair(c, x, Swapped(g), s).Some?
    ensures NameApart(UnpackPair(c, x, g, s).value, UnpackPair(c, x, Swapped(g), s).value, i, m)
  {
    SwappedIs(g, s);
    var a, b, n := ReaderOf(g, s), ReaderOf(Swapped(g), s), cnt.shape[1];
    PackedReader(cnt, idx, g, s);
    PackedReader(cnt, idx, Swapped(g), s);
    var y, z := CountPlace(a.rows, a.cuRows, i, m, n), CountPlace(b.rows, b.cuRows, i, m, n);
    assert y != z;
    var k := if y < n then y else z;
    c, x := Filled(cnt, 0, k, 1), Filled(idx, 0, -1, 0);
    SameShapeFits(cnt, idx, c, x, g, s);
    HeadsFit(cnt, idx, g, s);
    PackedShape(c, x, g, s);
    HeadCells(c, x, g, s, i, m);
    hide *;
    OneCount(cnt, idx, c, x, k, g, s, i, m);
    OneCount(cnt, idx, c, x, k, Swapped(g), s, i, m);
    ApartIs(UnpackPair(c, x, g, s).value, UnpackPair(c, x, Swapped(g), s).value, i, m);
  }

  lemma HeadsFit(cnt: Content, idx: Content, g: Fields, s: Scalars)
    requires Sensible(s) && Validated(g, s) && g.cuRows.Some? && PairFits(cnt, idx, g, s) && |cnt.shape| == 2 && |idx.shape| == 2
    ensures cnt.shape[0] >= 1 && idx.shape[0] >= 1
  {
  }

  lemma ApartIs(a: Grid, b: Grid, i: int, m: int)
    requires 0 <= i < a.batch && a.heads >= 1 && 0 <= m < a.rows && (0 in Live(a, i, 0, m)) != (0 in Live(b, i, 0, m))
    ensures NameApart(a, b, i, m)
  {
  }

  lemma SlotNamesDiffer(cnt: Content, idx: Content, g: Fields, s: Scalars, i: int, m: int, w: int) returns (c: Content, x: Content)
    requires Sensible(s) && Validated(g, s) && g.cuRows.Some? && PairFits(cnt, idx, g, s) && |cnt.shape| == 2 && |idx.shape| == 2
    requires Validated(Swapped(g), s) && Swapped(g).cuRows.Some?
    requires 0 <= i < s.batch && 0 <= m < RowBlocks(s) && 0 <= w < ColBlocks(s)
    requires SameCountPlace(ReaderOf(g, s), ReaderOf(Swapped(g), s), i, m, cnt.shape[1]) && RowLive(ReaderOf(g, s), i, m, cnt.shape[1])
    requires !SameSlotPlace(ReaderOf(g, s), ReaderOf(Swapped(g), s), i, m, w, idx.shape[1])
    ensures c.shape == cnt.shape && x.shape == idx.shape && UnpackPair(c, x, g, s).Some? && UnpackPair(c, x, Swapped(g), s).Some?
    ensures NameApart(UnpackPair(c, x, g, s).value, UnpackPair(c, x, Swapped(g), s).value, i, m)
  {
    SwappedIs(g, s);
    var a, b, n := ReaderOf(g, s), ReaderOf(Swapped(g), s), idx.shape[1];
    PackedReader(cnt, idx, g, s);
    PackedReader(cnt, idx, Swapped(g), s);
    var y, z := SlotPlace(a.rows, a.cols, a.cuIdx, i, m, w, n), SlotPlace(b.rows, b.cols, b.cuIdx, i, m, w, n);
    assert y != z;
    assert RowLive(b, i, m, cnt.shape[1]);
    var p := if y < z then z else y;
    c, x := Filled(cnt, w + 1, -1, 0), Filled(idx, 1, if p < n then p else -1, 0);
    SameShapeFits(cnt, idx, c, x, g, s);
    HeadsFit(cnt, idx, g, s);
    HeadCells(c, x, g, s, i, m);
    hide *;
    LastSlot(cnt, idx, c, x, p, w, g, s, i, m);
    LastSlot(cnt, idx, c, x, p, w, Swapped(g), s, i, m);
    ApartIs(UnpackPair(c, x, g, s).value, UnpackPair(c, x, Swapped(g), s).value, i, m);
  }

  /** Different names make the readings differ in the backward pass. */
  lemma NameNotAlike(cnt: Content, idx: Content, h: Fields, s: Scalars, i: int, m: int)
    requires Sensible(s) && Validated(h, s) && h.cuRows.Some? && BothFit(h, s) && Validated(Swapped(h), s) && BothFit(Swapped(h), s)
    requires Swapped(h).cuRows.Some? && s.backward
    requires (cnt == h.maskCnt && idx == h.maskIdx) || (h.fullCnt == Some(cnt) && h.fullIdx == Some(idx))
    requires UnpackPair(cnt, idx, h, s).Some? && UnpackPair(cnt, idx, Swapped(h), s).Some?
    requires NameApart(UnpackPair(cnt, idx, h, s).value, UnpackPair(cnt, idx, Swapped(h), s).value, i, m)
    ensures !Alike(h, s)
  {
    SwappedIs(h, s);
    var k := Swapped(h);
    PackedShape(cnt, idx, h, s);
    HeadsPositive(cnt, idx, h, s);
    BothShape(h, s);
    BothShape(k, s);
    SameShapes(h, s);
    AlikeIs(h, s);
    var x, y := UnpackBoth(h, s).value, UnpackBoth(k, s).value;
    assert Bc(0, UnpackPair(cnt, idx, h, s).value.heads) == 0 && Bc(0, UnpackPair(cnt, idx, k, s).value.heads) == 0;
    assert ColBlocks(s) >= 1;
    hide UnpackPair, UnpackBoth, PairFits, Live, Validated, Swapped, Alike, BothFit, OutHeads, OutBatch;
    assert InGrid(x.0, i, 0, m) && InGrid(x.1, i, 0, m);
    NamesOfPair(h, s, i, 0, m);
    NamesOfPair(k, s, i, 0, m);
    assert Names(x.0, i, 0, m, 0) <==> 0 in Live(x.0, i, 0, m);
    assert Names(y.0, i, 0, m, 0) <==> 0 in Live(y.0, i, 0, m);
    assert Names(x.1, i, 0, m, 0) <==> 0 in Live(x.1, i, 0, m);
    assert Names(y.1, i, 0, m, 0) <==> 0 in Live(y.1, i, 0, m);
  }

  lemma HeadsPositive(cnt: Content, idx: Content, g: Fields, s: Scalars)
    requires Sensible(s) && Validated(g, s) && g.cuRows.Some? && BothFit(g, s)
    ensures OutHeads(g, s) >= 1 && OutBatch(g, s) == s.batch
  {
  }

  /** Where an unpacked pair ends up. */
  lemma SpreadOf(cnt: Content, idx: Content, g: Fields, s: Scalars)
    requires Sensible(s) && Validated(g, s) && g.cuRows.Some? && BothFit(g, s)
    requires UnpackBoth(g, s).Some? && UnpackPair(cnt, idx, g, s).Some?
    ensures var a, x := UnpackPair(cnt, idx, g, s).value, UnpackBoth(g, s).value;
            && (cnt == g.maskCnt && idx == g.maskIdx ==> x.0 == if g.fullCnt.None? then a else Spread(a, s.batch, OutHeads(g, s)))
            && (g.fullCnt == Some(cnt) && g.fullIdx == Some(idx) ==> x.1 == Spread(a, s.batch, OutHeads(g, s)))
  {
    PairShape(g.maskCnt, g.maskIdx, g, s);
    if g.fullCnt.Some? { PairShape(g.fullCnt.value, g.fullIdx.value, g, s); }
    hide UnpackPair, PairFits, Spread, Validated;
  }

  /** A request and the one with the boundaries swapped are normalised alike for all lists of the
      same shapes exactly if both are accepted and read the same places. */
  lemma PlacesDecide(cpu: bool, g: Fields, s: Scalars)
    requires Accepted(cpu, g, s) && g.cuRows.Some?
    ensures Accepted(cpu, Swapped(g), s) && PlacesAgree(g, s)
       <==> forall h :: SameBounds(g, h) ==> Normalised(cpu, Swapped(h), s) == Normalised(cpu, h, s)
  {
    hide Normalised, PlacesAgree, Accepted, SameBounds;
    AcceptedParts(cpu, g, s);
    SameShapes(g, s);
    if Accepted(cpu, Swapped(g), s) && PlacesAgree(g, s) {
      forall h | SameBounds(g, h)
        ensures Normalised(cpu, Swapped(h), s) == Normalised(cpu, h, s)
      {
        SameForAll(cpu, g, h, s);
      }
    }
    if forall h :: SameBounds(g, h) ==> Normalised(cpu, Swapped(h), s) == Normalised(cpu, h, s) {
      SameItself(g);
      SwapAlike(cpu, g, s);
      if !PlacesAgree(g, s) {
        var h := DifferentLists(cpu, g, s);
      }
    }
  }

  lemma SameItself(g: Fields)
    ensures SameBounds(g, g)
  {
  }

  lemma AcceptedParts(cpu: bool, g: Fields, s: Scalars)
    requires Accepted(cpu, g, s)
    ensures Sensible(s) && Validated(g, s) && BothFit(g, s)
  {
    hide Validated, BothFit, PairFits;
  }

  lemma SameForAll(cpu: bool, g: Fields, h: Fields, s: Scalars)
    requires Accepted(cpu, g, s) && g.cuRows.Some? && SameBounds(g, h)
    requires Sensible(s) && Validated(g, s) && BothFit(g, s) && PlacesAgree(g, s)
    requires Accepted(cpu, Swapped(g), s)
    ensures Normalised(cpu, Swapped(h), s) == Normalised(cpu, h, s)
  {
    BoundsFit(cpu, g, h, s);
    SameShapes(g, s);
    BoundsFit(cpu, Swapped(g), Swapped(h), s);
    assert h.cuRows == g.cuRows;
    BoundsAgree(g, h, s);
    hide *;
    PlacesSuffice(h, s);
    SwapAlike(cpu, h, s);
  }

  /** Tensors of the shape of a pair that the two readings tell apart. */
  lemma PairTold(cnt: Content, idx: Content, g: Fields, s: Scalars) returns (c: Content, x: Content, i: int, m: int, w: int)
    requires Sensible(s) && Validated(g, s) && g.cuRows.Some? && PairFits(cnt, idx, g, s) && |cnt.shape| == 2 && |idx.shape| == 2
    requires Validated(Swapped(g), s) && Swapped(g).cuRows.Some? && !PairPlaces(cnt, idx, g, s)
    ensures c.shape == cnt.shape && x.shape == idx.shape && UnpackPair(c, x, g, s).Some? && UnpackPair(c, x, Swapped(g), s).Some?
    ensures ToldApart(UnpackPair(c, x, g, s).value, UnpackPair(c, x, Swapped(g), s).value, s, i, m, w)
  {
    hide SamePlaces, SameLivePlaces, ApartAt, NameApart, UnpackPair, PairFits, Validated, Swapped, ReaderOf;
    if s.backward {
      c, x, i, m := NamesDiffer(cnt, idx, g, s);
      w := 0;
    } else {
      c, x, i, m, w := PairApart(cnt, idx, g, s);
    }
  }

  ghost predicate ToldApart(a: Grid, b: Grid, s: Scalars, i: int, m: int, w: int) {
    if s.backward then NameApart(a, b, i, m) else ApartAt(a, b, i, m, w)
  }

  lemma DifferentLists(cpu: bool, g: Fields, s: Scalars) returns (h: Fields)
    requires Accepted(cpu, g, s) && g.cuRows.Some? && Accepted(cpu, Swapped(g), s)
    requires Sensible(s) && Validated(g, s) && BothFit(g, s) && !PlacesAgree(g, s)
    ensures SameBounds(g, h) && Normalised(cpu, Swapped(h), s) != Normalised(cpu, h, s)
  {
    SameShapes(g, s);
    var i, m, w;
    var c, x;
    if !PairPlaces(g.maskCnt, g.maskIdx, g, s) {
      c, x, i, m, w := PairTold(g.maskCnt, g.maskIdx, g, s);
      h := g.(maskCnt := c, maskIdx := x);
    } else {
      c, x, i, m, w := PairTold(g.fullCnt.value, g.fullIdx.value, g, s);
      h := g.(fullCnt := Some(c), fullIdx := Some(x));
    }
    SamePair(c, x, g, h, s);
    BoundsFit(cpu, g, h, s);
    SameShapes(h, s);
    hide PairPlaces, ApartAt, NameApart, UnpackPair, PairFits, Normalised, Accepted, Validated, BothFit;
    if s.backward {
      NameNotAlike(c, x, h, s, i, m);
    } else {
      ApartNotAlike(c, x, h, s, i, m, w);
    }
    SwapAlike(cpu, h, s);
  }

  /** A pair is unpacked the same way whatever the other lists are. */
  lemma SamePair(cnt: Content, idx: Content, g: Fields, h: Fields, s: Scalars)
    requires Sensible(s) && Validated(g, s) && Validated(h, s)
    requires h.cuRows == g.cuRows && h.cuIdx == g.cuIdx && h.cuQ == g.cuQ && h.cuK == g.cuK
    ensures Validated(Swapped(g), s) && Validated(Swapped(h), s)
    ensures UnpackPair(cnt, idx, h, s) == UnpackPair(cnt, idx, g, s)
    ensures UnpackPair(cnt, idx, Swapped(h), s) == UnpackPair(cnt, idx, Swapped(g), s)
  {
  }
}
