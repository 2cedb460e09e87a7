/** Packed and fixed layouts of sparse row lists. In the packed layout the rows of all
    segments lie behind each other, with `rows * cols` index slots for each segment; in the
    fixed layout every segment is padded to the same number of rows and slots. All heads are
    treated alike, so the layouts of one head are modelled. */
module SparsePacked {
  import opened Arith
  import opened Wrappers
  import opened SparseLists

  const BLOCK := 128

  function Blocks(length: nat): nat { (length + (BLOCK - 1)) / BLOCK }

  /** r blocks of 128 hold n tokens, and none of them is without a token. */
  predicate Hold(r: int, n: int) {
    if n <= 0 then r == 0 else (r - 1) * 128 < n <= r * 128
  }

  lemma BlocksHold(n: nat)
    ensures Hold(Blocks(n), n)
  {
  }

  /** Block counts of the segments between cumulative lengths. */
  ghost predicate Cumulative(cu: seq<nat>) {
    |cu| >= 1 && cu[0] == 0 && forall b :: 0 <= b < |cu| - 1 ==> SegmentAt(cu, b)
  }

  predicate SegmentAt(cu: seq<nat>, b: int)
    requires 0 <= b < |cu| - 1
  {
    cu[b] <= cu[b + 1]
  }

  predicate HoldAt(cu: seq<int>, r: int, b: int)
    requires 0 <= b < |cu| - 1
  {
    Hold(r, cu[b + 1] - cu[b])
  }

  function BlocksOf(cu: seq<nat>): (r: seq<nat>)
    requires Cumulative(cu)
    ensures |r| == |cu| - 1
    ensures forall b :: 0 <= b < |r| ==> HoldAt(cu, r[b], b)
  {
    seq(|cu| - 1, b requires 0 <= b < |cu| - 1 => assert SegmentAt(cu, b); Blocks(cu[b + 1] - cu[b]))
  }

  /* Offsets. */

  function SumTo(xs: seq<nat>, n: nat): nat
    requires n <= |xs|
  {
    if n == 0 then 0 else SumTo(xs, n - 1) + xs[n - 1]
  }

  function AreaTo(rows: seq<nat>, cols: seq<nat>, n: nat): nat
    requires n <= |rows| == |cols|
  {
    if n == 0 then 0 else AreaTo(rows, cols, n - 1) + Area(rows[n - 1], cols[n - 1])
  }

  /** The last offsets fit a signed 32-bit number, and with them all others. */
  predicate Narrow(rows: seq<nat>, cols: seq<nat>)
    requires |rows| == |cols|
  {
    SumTo(rows, |rows|) < 0x8000_0000 && AreaTo(rows, cols, |rows|) < 0x8000_0000
  }

  function Area(m: nat, n: nat): nat { m * n }

  lemma SumNext(rows: seq<nat>, n: nat)
    requires n < |rows|
    ensures SumTo(rows, n + 1) == SumTo(rows, n) + rows[n]
  {
  }

  lemma AreaNext(rows: seq<nat>, cols: seq<nat>, n: nat)
    requires n < |rows| == |cols|
    ensures AreaTo(rows, cols, n + 1) == AreaTo(rows, cols, n) + rows[n] * cols[n]
  {
  }

  lemma NoOffsets(rows: seq<nat>, cols: seq<nat>)
    requires |rows| == |cols|
    ensures SumTo(rows, 0) == 0 && AreaTo(rows, cols, 0) == 0
  {
  }

  /** The two cumulative arrays of the packed layout. */
  method Offsets(rows: seq<nat>, cols: seq<nat>) returns (offsetsR: seq<nat>, offsetsI: seq<nat>)
    requires |rows| == |cols|
    ensures |offsetsR| == |offsetsI| == |rows| + 1
    ensures forall b :: 0 <= b <= |rows| ==> offsetsR[b] == SumTo(rows, b) && offsetsI[b] == AreaTo(rows, cols, b)
  {
    hide SumTo, AreaTo;
    offsetsR, offsetsI := [0], [0];
    NoOffsets(rows, cols);
    for b := 0 to |rows|
      invariant |offsetsR| == |offsetsI| == b + 1
      invariant forall a :: 0 <= a <= b ==> offsetsR[a] == SumTo(rows, a) && offsetsI[a] == AreaTo(rows, cols, a)
    {
      SumNext(rows, b);
      AreaNext(rows, cols, b);
      offsetsR := offsetsR + [offsetsR[|offsetsR| - 1] + rows[b]];
      offsetsI := offsetsI + [offsetsI[|offsetsI| - 1] + rows[b] * cols[b]];
    }
  }

  /* The layouts of one head. */

  /** `cnt[b][m]` and `idx[b][m][n]`: count and index slots of row m of segment b. */
  datatype Fixed = Fixed(cnt: seq<seq<int>>, idx: seq<seq<seq<int>>>)

  datatype Packed = Packed(cnt: seq<int>, idx: seq<int>)

  /** A fixed layout of `segments` segments, `height` rows and `width` slots. */
  ghost predicate FixedShape(f: Fixed, segments: nat, height: nat, width: nat) {
    && |f.cnt| == |f.idx| == segments
    && forall b :: 0 <= b < segments ==> SegmentShape(f, b, height, width)
  }

  ghost predicate SegmentShape(f: Fixed, b: int, height: nat, width: nat)
    requires 0 <= b < |f.cnt| && b < |f.idx|
  {
    |f.cnt[b]| == height && |f.idx[b]| == height && forall m :: 0 <= m < height ==> |f.idx[b][m]| == width
  }

  predicate AllBelow(xs: seq<nat>, n: nat) { forall b :: 0 <= b < |xs| ==> xs[b] <= n }

  /* Packing. */

  /** The first n slots of a row, padded with zeros. */
  function PackRow(row: seq<int>, n: nat): (r: seq<int>)
    ensures |r| == n
    ensures forall k :: 0 <= k < n ==> r[k] == if k < |row| then row[k] else 0
  {
    if |row| < n then row + seq(n - |row|, _ => 0) else row[..n]
  }

  function PackSegment(idx: seq<seq<int>>, m: nat, n: nat): (r: seq<int>)
    requires m <= |idx|
    ensures |r| == m * n
  {
    if m == 0 then [] else PackSegment(idx, m - 1, n) + PackRow(idx[m - 1], n)
  }

  function PackCounts(cnt: seq<seq<int>>, rows: seq<nat>, n: nat): (r: seq<int>)
    requires n <= |rows| && n <= |cnt| && forall b :: 0 <= b < n ==> rows[b] <= |cnt[b]|
    ensures |r| == SumTo(rows, n)
  {
    if n == 0 then [] else PackCounts(cnt, rows, n - 1) + cnt[n - 1][..rows[n - 1]]
  }

  function PackIndices(idx: seq<seq<seq<int>>>, rows: seq<nat>, cols: seq<nat>, n: nat): (r: seq<int>)
    requires n <= |rows| == |cols| && n <= |idx| && forall b :: 0 <= b < n ==> rows[b] <= |idx[b]|
    ensures |r| == AreaTo(rows, cols, n)
  {
    if n == 0 then [] else PackIndices(idx, rows, cols, n - 1) + PackSegment(idx[n - 1], rows[n - 1], cols[n - 1])
  }

  /** The packed form of a fixed layout: a piece per segment, joined. */
  method Pack(f: Fixed, rows: seq<nat>, cols: seq<nat>, height: nat, width: nat) returns (p: Packed)
    requires |rows| == |cols| && FixedShape(f, |rows|, height, width) && AllBelow(rows, height)
    ensures forall b :: 0 <= b < |rows| ==> rows[b] <= |f.cnt[b]| && rows[b] <= |f.idx[b]|
    ensures p == Packed(PackCounts(f.cnt, rows, |rows|), PackIndices(f.idx, rows, cols, |rows|))
  {
    hide *;
    SegmentsFit(f, rows, height, width);
    PiecesBefore(f, rows, cols);
    var counts, values := [], [];
    for b := 0 to |rows|
      invariant counts == PackCounts(f.cnt, rows, b) && values == PackIndices(f.idx, rows, cols, b)
    {
      NextPieces(f, rows, cols, b);
      counts := counts + f.cnt[b][..rows[b]];
      var piece := PackPiece(f.idx[b], rows[b], cols[b]);
      values := values + piece;
    }
    p := Packed(counts, values);
  }

  lemma SegmentsFit(f: Fixed, rows: seq<nat>, height: nat, width: nat)
    requires FixedShape(f, |rows|, height, width) && AllBelow(rows, height)
    ensures |f.cnt| == |f.idx| == |rows| && forall b :: 0 <= b < |rows| ==> rows[b] <= |f.cnt[b]| && rows[b] <= |f.idx[b]|
  {
    forall b | 0 <= b < |rows|
      ensures rows[b] <= |f.cnt[b]| && rows[b] <= |f.idx[b]|
    {
      assert SegmentShape(f, b, height, width);
    }
  }

  lemma PiecesBefore(f: Fixed, rows: seq<nat>, cols: seq<nat>)
    requires |rows| == |cols|
    ensures PackCounts(f.cnt, rows, 0) == [] && PackIndices(f.idx, rows, cols, 0) == []
  {
  }

  lemma NextPieces(f: Fixed, rows: seq<nat>, cols: seq<nat>, b: nat)
    requires b < |rows| == |cols| == |f.cnt| == |f.idx|
    requires forall a :: 0 <= a < |rows| ==> rows[a] <= |f.cnt[a]| && rows[a] <= |f.idx[a]|
    ensures PackCounts(f.cnt, rows, b + 1) == PackCounts(f.cnt, rows, b) + f.cnt[b][..rows[b]]
    ensures PackIndices(f.idx, rows, cols, b + 1) == PackIndices(f.idx, rows, cols, b) + PackSegment(f.idx[b], rows[b], cols[b])
  {
    hide PackSegment, SumTo, AreaTo;
  }

  method PackPiece(idx: seq<seq<int>>, m: nat, n: nat) returns (piece: seq<int>)
    requires m <= |idx|
    ensures piece == PackSegment(idx, m, n)
  {
    piece := [];
    for k := 0 to m
      invariant piece == PackSegment(idx, k, n)
    {
      piece := piece + PackRow(idx[k], n);
    }
  }

  /* Unpacking. */

  /** Gather from a list with a zero behind its end. */
  function Gather(xs: seq<int>, x: int): int {
    (xs + [0])[Clamp(x, |xs|)]
  }

  /** Fixed layout of a packed list; rows and slots beyond a segment's own read the zero. */
  function Unpack(p: Packed, cuRows: seq<int>, cuIdx: seq<int>, rows: seq<nat>, cols: seq<nat>, height: nat, width: nat): (f: Fixed)
    requires |rows| == |cols| && |cuRows| == |cuIdx| == |rows| + 1
    ensures FixedShape(f, |rows|, height, width)
  {
    var f := Fixed(
      seq(|rows|, b requires 0 <= b < |rows| => seq(height, m requires 0 <= m < height =>
        Gather(p.cnt, if m < rows[b] then cuRows[b] + m else |p.cnt|))),
      seq(|rows|, b requires 0 <= b < |rows| => seq(height, m requires 0 <= m < height => seq(width, n requires 0 <= n < width =>
        Gather(p.idx, if m < rows[b] && n < cols[b] then cuIdx[b] + m * cols[b] + n else |p.idx|)))));
    assert forall b :: 0 <= b < |rows| ==> SegmentShape(f, b, height, width);
    f
  }

  /* Where a packed entry is found. */

  lemma {:induction false} SumMono(xs: seq<nat>, a: nat, b: nat)
    requires a <= b <= |xs|
    ensures SumTo(xs, a) <= SumTo(xs, b)
    decreases b
  {
    if a < b { SumMono(xs, a, b - 1); }
  }

  lemma {:induction false} AreaMono(rows: seq<nat>, cols: seq<nat>, a: nat, b: nat)
    requires a <= b <= |rows| == |cols|
    ensures AreaTo(rows, cols, a) <= AreaTo(rows, cols, b)
    decreases b
  {
    if a < b {
      AreaMono(rows, cols, a, b - 1);
      MulMono(0, rows[b - 1], cols[b - 1]);
    }
  }

  lemma {:induction false} CountAt(cnt: seq<seq<int>>, rows: seq<nat>, n: nat, b: nat, m: nat)
    requires b < n <= |rows| && n <= |cnt| && (forall i :: 0 <= i < n ==> rows[i] <= |cnt[i]|) && m < rows[b]
    ensures SumTo(rows, b) + m < SumTo(rows, n)
    ensures PackCounts(cnt, rows, n)[SumTo(rows, b) + m] == cnt[b][m]
    decreases n
  {
    if b < n - 1 {
      CountAt(cnt, rows, n - 1, b, m);
    }
  }

  lemma {:induction false} SegmentSlot(idx: seq<seq<int>>, m: nat, n: nat, r: nat, k: nat)
    requires r < m <= |idx| && k < n
    ensures 0 <= r * n + k < m * n && PackSegment(idx, m, n)[r * n + k] == PackRow(idx[r], n)[k]
    decreases m
  {
    hide PackRow;
    RowFits(m, n, r);
    NextMultiple(m - 1, n);
    assert PackSegment(idx, m, n) == PackSegment(idx, m - 1, n) + PackRow(idx[m - 1], n);
    hide PackSegment;
    if r < m - 1 {
      SegmentSlot(idx, m - 1, n, r, k);
    }
  }

  lemma {:induction false} IndexAt(idx: seq<seq<seq<int>>>, rows: seq<nat>, cols: seq<nat>, n: nat, b: nat, y: nat)
    requires b < n <= |rows| == |cols| && n <= |idx| && (forall i :: 0 <= i < n ==> rows[i] <= |idx[i]|)
    requires y < rows[b] * cols[b]
    ensures AreaTo(rows, cols, b) + y < AreaTo(rows, cols, n)
    ensures PackIndices(idx, rows, cols, n)[AreaTo(rows, cols, b) + y] == PackSegment(idx[b], rows[b], cols[b])[y]
    decreases n
  {
    hide PackSegment;
    if b < n - 1 {
      IndexAt(idx, rows, cols, n - 1, b, y);
      MulMono(0, rows[n - 1], cols[n - 1]);
    }
  }

  /* Unpacking a packed layout. */

  /** The cumulative arrays fit the block counts. */
  ghost predicate OffsetsFit(rows: seq<nat>, cols: seq<nat>, cuRows: seq<int>, cuIdx: seq<int>) {
    && |rows| == |cols| && |cuRows| == |cuIdx| == |rows| + 1
    && forall b :: 0 <= b <= |rows| ==> cuRows[b] == SumTo(rows, b) && cuIdx[b] == AreaTo(rows, cols, b)
  }

  lemma GatherIs(xs: seq<int>, x: int)
    requires 0 <= x <= |xs|
    ensures Gather(xs, x) == if x < |xs| then xs[x] else 0
  {
  }

  lemma UnpackIs(p: Packed, cuRows: seq<int>, cuIdx: seq<int>, rows: seq<nat>, cols: seq<nat>, high: nat, wide: nat, b: nat, m: nat)
    requires |rows| == |cols| && |cuRows| == |cuIdx| == |rows| + 1 && b < |rows| && m < high
    ensures var u := Unpack(p, cuRows, cuIdx, rows, cols, high, wide);
            && FixedShape(u, |rows|, high, wide) && SegmentShape(u, b, high, wide)
            && u.cnt[b][m] == Gather(p.cnt, if m < rows[b] then cuRows[b] + m else |p.cnt|)
            && forall n :: 0 <= n < wide ==>
                             u.idx[b][m][n] == Gather(p.idx, if m < rows[b] && n < cols[b] then cuIdx[b] + m * cols[b] + n else |p.idx|)
  {
    hide Gather, FixedShape;
    assert SegmentShape(Unpack(p, cuRows, cuIdx, rows, cols, high, wide), b, high, wide);
  }

  lemma UnpackedCount(f: Fixed, rows: seq<nat>, cols: seq<nat>, cuRows: seq<int>, cuIdx: seq<int>, height: nat, width: nat,
                      p: Packed, high: nat, wide: nat, b: nat, m: nat)
    requires OffsetsFit(rows, cols, cuRows, cuIdx) && FixedShape(f, |rows|, height, width) && AllBelow(rows, height)
    requires b < |rows| && m < high && p.cnt == CountsOf(f, rows, height, width)
    ensures FixedShape(Unpack(p, cuRows, cuIdx, rows, cols, high, wide), |rows|, high, wide)
    ensures var u := Unpack(p, cuRows, cuIdx, rows, cols, high, wide);
            && SegmentShape(u, b, high, wide) && SegmentShape(f, b, height, width) && rows[b] <= height
            && u.cnt[b][m] == if m < rows[b] then f.cnt[b][m] else 0
  {
    UnpackIs(p, cuRows, cuIdx, rows, cols, high, wide, b, m);
    RowsFit(f, rows, height, width);
    assert SegmentShape(f, b, height, width);
    hide Unpack, FixedShape, SegmentShape, Gather, PackCounts;
    if m < rows[b] {
      CountAt(f.cnt, rows, |rows|, b, m);
      GatherIs(p.cnt, cuRows[b] + m);
    } else {
      GatherIs(p.cnt, |p.cnt|);
    }
  }

  lemma RowsFit(f: Fixed, rows: seq<nat>, height: nat, width: nat)
    requires FixedShape(f, |rows|, height, width) && AllBelow(rows, height)
    ensures forall b :: 0 <= b < |rows| ==> rows[b] <= |f.cnt[b]| && rows[b] <= |f.idx[b]|
  {
    forall b | 0 <= b < |rows|
      ensures rows[b] <= |f.cnt[b]| && rows[b] <= |f.idx[b]|
    {
      assert SegmentShape(f, b, height, width);
    }
  }

  ghost function CountsOf(f: Fixed, rows: seq<nat>, height: nat, width: nat): seq<int>
    requires FixedShape(f, |rows|, height, width) && AllBelow(rows, height)
  {
    RowsFit(f, rows, height, width);
    PackCounts(f.cnt, rows, |rows|)
  }

  ghost function IndicesOf(f: Fixed, rows: seq<nat>, cols: seq<nat>, height: nat, width: nat): seq<int>
    requires FixedShape(f, |rows|, height, width) && AllBelow(rows, height) && |rows| == |cols|
  {
    RowsFit(f, rows, height, width);
    PackIndices(f.idx, rows, cols, |rows|)
  }

  lemma ShapeAt(f: Fixed, segments: nat, height: nat, width: nat, b: int)
    requires FixedShape(f, segments, height, width) && 0 <= b < segments
    ensures |f.cnt| == |f.idx| == segments && SegmentShape(f, b, height, width) && |f.idx[b]| == height
    ensures forall m :: 0 <= m < height ==> |f.idx[b][m]| == width
  {
  }

  lemma PackedSlot(idx: seq<seq<seq<int>>>, rows: seq<nat>, cols: seq<nat>, b: nat, m: nat, n: nat)
    requires b < |rows| == |cols| <= |idx| && (forall i :: 0 <= i < |rows| ==> rows[i] <= |idx[i]|) && m < rows[b] && n < cols[b]
    ensures 0 <= AreaTo(rows, cols, b) + m * cols[b] + n < AreaTo(rows, cols, |rows|)
    ensures PackIndices(idx, rows, cols, |rows|)[AreaTo(rows, cols, b) + m * cols[b] + n] == if n < |idx[b][m]| then idx[b][m][n] else 0
  {
    hide *;
    SegmentSlot(idx[b], rows[b], cols[b], m, n);
    IndexAt(idx, rows, cols, |rows|, b, m * cols[b] + n);
  }

  lemma OffsetAt(rows: seq<nat>, cols: seq<nat>, cuRows: seq<int>, cuIdx: seq<int>, b: nat)
    requires OffsetsFit(rows, cols, cuRows, cuIdx) && b <= |rows|
    ensures |rows| == |cols| && |cuRows| == |cuIdx| == |rows| + 1 && cuRows[b] == SumTo(rows, b) && cuIdx[b] == AreaTo(rows, cols, b)
  {
  }

  lemma UnpackedSlot(f: Fixed, rows: seq<nat>, cols: seq<nat>, cuRows: seq<int>, cuIdx: seq<int>, height: nat, width: nat,
                     p: Packed, high: nat, wide: nat, b: nat, m: nat, n: nat)
    requires OffsetsFit(rows, cols, cuRows, cuIdx) && FixedShape(f, |rows|, height, width) && AllBelow(rows, height)
    requires b < |rows| && m < high && n < wide && p.idx == IndicesOf(f, rows, cols, height, width)
    ensures FixedShape(Unpack(p, cuRows, cuIdx, rows, cols, high, wide), |rows|, high, wide)
    ensures var u := Unpack(p, cuRows, cuIdx, rows, cols, high, wide);
            && SegmentShape(u, b, high, wide) && SegmentShape(f, b, height, width) && rows[b] <= height
            && u.idx[b][m][n] == if m < rows[b] && n < cols[b] && n < width then f.idx[b][m][n] else 0
  {
    ShapeAt(f, |rows|, height, width, b);
    OffsetAt(rows, cols, cuRows, cuIdx, b);
    hide Unpack, Gather, PackIndices, PackSegment, FixedShape, SegmentShape, SumTo, AreaTo, OffsetsFit, AllBelow;
    UnpackIs(p, cuRows, cuIdx, rows, cols, high, wide, b, m);
    RowsFit(f, rows, height, width);
    if m < rows[b] && n < cols[b] {
      PackedSlot(f.idx, rows, cols, b, m, n);
      GatherIs(p.idx, cuIdx[b] + m * cols[b] + n);
    } else {
      GatherIs(p.idx, |p.idx|);
    }
  }

  /** Row m of segment b reads the same in both layouts: its count and its slots are kept, and
      padded rows and slots are zero. */
  ghost predicate SameRow(f: Fixed, u: Fixed, rows: seq<nat>, cols: seq<nat>, width: nat, wide: nat, b: int, m: int)
    requires 0 <= b < |rows| == |cols| && b < |f.cnt| && b < |f.idx| && b < |u.cnt| && b < |u.idx|
    requires 0 <= m < |u.cnt[b]| == |u.idx[b]| && |u.idx[b][m]| == wide
    requires m < rows[b] ==> m < |f.cnt[b]| && m < |f.idx[b]| && |f.idx[b][m]| == width
  {
    && u.cnt[b][m] == (if m < rows[b] then f.cnt[b][m] else 0)
    && (forall n :: 0 <= n < wide ==>
                      u.idx[b][m][n] == if m < rows[b] && n < cols[b] && n < width then f.idx[b][m][n] else 0)
  }

  /** Unpacking a packed export gives back every real row, with zeros for the padding. */
  lemma UnpackPack(f: Fixed, rows: seq<nat>, cols: seq<nat>, cuRows: seq<int>, cuIdx: seq<int>, height: nat, width: nat,
                   p: Packed, high: nat, wide: nat, b: nat, m: nat)
    requires OffsetsFit(rows, cols, cuRows, cuIdx) && FixedShape(f, |rows|, height, width) && AllBelow(rows, height)
    requires p == Packed(CountsOf(f, rows, height, width), IndicesOf(f, rows, cols, height, width))
    requires b < |rows| && m < high
    ensures FixedShape(Unpack(p, cuRows, cuIdx, rows, cols, high, wide), |rows|, high, wide)
    ensures var u := Unpack(p, cuRows, cuIdx, rows, cols, high, wide);
            && SegmentShape(u, b, high, wide) && SegmentShape(f, b, height, width) && rows[b] <= height
            && SameRow(f, u, rows, cols, width, wide, b, m)
  {
    UnpackedCount(f, rows, cols, cuRows, cuIdx, height, width, p, high, wide, b, m);
    var u := Unpack(p, cuRows, cuIdx, rows, cols, high, wide);
    hide Unpack, FixedShape, CountsOf, IndicesOf, OffsetsFit;
    forall n | 0 <= n < wide
      ensures u.idx[b][m][n] == if m < rows[b] && n < cols[b] && n < width then f.idx[b][m][n] else 0
    {
      UnpackedSlot(f, rows, cols, cuRows, cuIdx, height, width, p, high, wide, b, m, n);
    }
  }

  /** In particular the live entries of a real row are kept. */
  lemma LiveEntriesKept(f: Fixed, u: Fixed, rows: seq<nat>, cols: seq<nat>, width: nat, wide: nat, b: int, m: int)
    requires 0 <= b < |rows| == |cols| && b < |f.cnt| && b < |f.idx| && b < |u.cnt| && b < |u.idx|
    requires 0 <= m < |u.cnt[b]| == |u.idx[b]| && |u.idx[b][m]| == wide
    requires 0 <= m < rows[b] && m < |f.cnt[b]| && m < |f.idx[b]| && |f.idx[b][m]| == width
    requires SameRow(f, u, rows, cols, width, wide, b, m)
    requires 0 <= f.cnt[b][m] <= width && f.cnt[b][m] <= cols[b] <= wide
    ensures u.cnt[b][m] == f.cnt[b][m] && u.idx[b][m][..u.cnt[b][m]] == f.idx[b][m][..f.cnt[b][m]]
  {
  }

  /* Packing an unpacked layout. */

  /** Row b of `cnt` is its stretch of the packed counts. */
  ghost predicate IsStretch(cnt: seq<int>, packed: seq<int>, lo: int, n: nat) {
    n <= |cnt| && 0 <= lo && lo + n <= |packed| && cnt[..n] == packed[lo..lo + n]
  }

  lemma {:induction false} CountsJoin(cnt: seq<seq<int>>, packed: seq<int>, rows: seq<nat>, n: nat)
    requires n <= |rows| && n <= |cnt| && SumTo(rows, n) <= |packed|
    requires forall b :: 0 <= b < n ==> IsStretch(cnt[b], packed, SumTo(rows, b), rows[b])
    ensures forall b :: 0 <= b < n ==> rows[b] <= |cnt[b]|
    ensures PackCounts(cnt, rows, n) == packed[..SumTo(rows, n)]
    decreases n
  {
    hide *;
    if n == 0 {
      NoCounts(cnt, rows);
    } else {
      SumNext(rows, n - 1);
      CountsJoin(cnt, packed, rows, n - 1);
      StretchEnds(cnt[n - 1], packed, SumTo(rows, n - 1), rows[n - 1], SumTo(rows, n));
      PackCountsNext(cnt, rows, n - 1);
    }
  }

  lemma NoCounts(cnt: seq<seq<int>>, rows: seq<nat>)
    ensures SumTo(rows, 0) == 0 && PackCounts(cnt, rows, 0) == []
  {
  }

  lemma PackCountsNext(cnt: seq<seq<int>>, rows: seq<nat>, n: nat)
    requires n < |rows| && n < |cnt| && forall b :: 0 <= b <= n ==> rows[b] <= |cnt[b]|
    ensures PackCounts(cnt, rows, n + 1) == PackCounts(cnt, rows, n) + cnt[n][..rows[n]]
  {
  }

  lemma StretchEnds(cnt: seq<int>, packed: seq<int>, lo: int, n: nat, hi: int)
    requires IsStretch(cnt, packed, lo, n) && hi == lo + n
    ensures n <= |cnt| && 0 <= lo <= hi <= |packed| && packed[..lo] + cnt[..n] == packed[..hi]
  {
  }

  lemma CountsStretch(p: Packed, rows: seq<nat>, cols: seq<nat>, cuRows: seq<int>, cuIdx: seq<int>, high: nat, wide: nat, b: nat)
    requires OffsetsFit(rows, cols, cuRows, cuIdx) && AllBelow(rows, high) && b < |rows| && |p.cnt| == SumTo(rows, |rows|)
    ensures var u := Unpack(p, cuRows, cuIdx, rows, cols, high, wide);
            b < |u.cnt| && IsStretch(u.cnt[b], p.cnt, SumTo(rows, b), rows[b])
  {
    var u := Unpack(p, cuRows, cuIdx, rows, cols, high, wide);
    SumMono(rows, b + 1, |rows|);
    var lo := SumTo(rows, b);
    assert cuRows[b] == lo && rows[b] <= high && lo + rows[b] <= |p.cnt|;
    assert SegmentShape(u, b, high, wide) && |u.cnt| == |rows|;
    hide Unpack, Gather, SumTo, OffsetsFit, AllBelow, FixedShape;
    forall m | 0 <= m < rows[b]
      ensures u.cnt[b][m] == p.cnt[lo + m]
    {
      UnpackIs(p, cuRows, cuIdx, rows, cols, high, wide, b, m);
      GatherIs(p.cnt, lo + m);
    }
  }

  /* The same for the index slots. */

  ghost predicate IsPiece(idx: seq<seq<int>>, packed: seq<int>, lo: int, m: nat, n: nat) {
    && m <= |idx| && m * n >= 0 && 0 <= lo && lo + m * n <= |packed|
    && PackSegment(idx, m, n) == packed[lo..lo + m * n]
  }

  lemma {:induction false} IndicesJoin(idx: seq<seq<seq<int>>>, packed: seq<int>, rows: seq<nat>, cols: seq<nat>, n: nat)
    requires n <= |rows| == |cols| && n <= |idx| && AreaTo(rows, cols, n) <= |packed|
    requires forall b :: 0 <= b < n ==> IsPiece(idx[b], packed, AreaTo(rows, cols, b), rows[b], cols[b])
    ensures forall b :: 0 <= b < n ==> rows[b] <= |idx[b]|
    ensures PackIndices(idx, rows, cols, n) == packed[..AreaTo(rows, cols, n)]
    decreases n
  {
    hide *;
    if n == 0 {
      NoIndices(idx, rows, cols);
    } else {
      AreaMono(rows, cols, n - 1, n);
      AreaNext(rows, cols, n - 1);
      IndicesJoin(idx, packed, rows, cols, n - 1);
      PieceEnds(idx[n - 1], packed, AreaTo(rows, cols, n - 1), rows[n - 1], cols[n - 1], AreaTo(rows, cols, n));
      PackIndicesNext(idx, rows, cols, n - 1);
    }
  }

  lemma NoIndices(idx: seq<seq<seq<int>>>, rows: seq<nat>, cols: seq<nat>)
    requires |rows| == |cols|
    ensures AreaTo(rows, cols, 0) == 0 && PackIndices(idx, rows, cols, 0) == []
  {
  }

  lemma PackIndicesNext(idx: seq<seq<seq<int>>>, rows: seq<nat>, cols: seq<nat>, n: nat)
    requires n < |rows| == |cols| && n < |idx| && forall b :: 0 <= b <= n ==> rows[b] <= |idx[b]|
    ensures PackIndices(idx, rows, cols, n + 1) == PackIndices(idx, rows, cols, n) + PackSegment(idx[n], rows[n], cols[n])
  {
  }

  lemma PieceEnds(idx: seq<seq<int>>, packed: seq<int>, lo: int, m: nat, n: nat, hi: int)
    requires IsPiece(idx, packed, lo, m, n) && hi == lo + m * n
    ensures m <= |idx| && 0 <= lo <= hi <= |packed| && packed[..lo] + PackSegment(idx, m, n) == packed[..hi]
  {
    hide PackSegment;
  }

  /** Every row of `idx` starts with its n slots of the packed list. */
  ghost predicate IsSlots(row: seq<int>, packed: seq<int>, lo: int, n: nat) {
    n <= |row| && 0 <= lo && lo + n <= |packed| && forall k :: 0 <= k < n ==> row[k] == packed[lo + k]
  }

  lemma {:induction false} SegmentJoin(idx: seq<seq<int>>, packed: seq<int>, lo: int, m: nat, n: nat)
    requires m <= |idx| && 0 <= lo && m * n >= 0 && lo + m * n <= |packed|
    requires forall r :: 0 <= r < m ==> IsSlots(idx[r], packed, RowStart(lo, r, n), n)
    ensures PackSegment(idx, m, n) == packed[lo..lo + m * n]
    decreases m
  {
    if m > 0 {
      NextMultiple(m - 1, n);
      MulMono(0, m - 1, n);
      SegmentJoin(idx, packed, lo, m - 1, n);
      assert IsSlots(idx[m - 1], packed, RowStart(lo, m - 1, n), n);
      var mid := lo + (m - 1) * n;
      assert PackRow(idx[m - 1], n) == packed[mid..mid + n];
      assert packed[lo..mid + n] == packed[lo..mid] + packed[mid..mid + n];
    }
  }

  function RowStart(lo: int, r: int, n: int): int { lo + r * n }

  lemma IndicesPiece(p: Packed, rows: seq<nat>, cols: seq<nat>, cuRows: seq<int>, cuIdx: seq<int>, high: nat, wide: nat, b: nat)
    requires OffsetsFit(rows, cols, cuRows, cuIdx) && AllBelow(rows, high) && AllBelow(cols, wide) && b < |rows|
    requires |p.idx| == AreaTo(rows, cols, |rows|)
    ensures var u := Unpack(p, cuRows, cuIdx, rows, cols, high, wide);
            b < |u.idx| && IsPiece(u.idx[b], p.idx, AreaTo(rows, cols, b), rows[b], cols[b])
  {
    var u := Unpack(p, cuRows, cuIdx, rows, cols, high, wide);
    AreaMono(rows, cols, b + 1, |rows|);
    MulMono(0, rows[b], cols[b]);
    var lo, m, n := AreaTo(rows, cols, b), rows[b], cols[b];
    assert cuIdx[b] == lo && m <= high && n <= wide && lo + m * n <= |p.idx|;
    assert SegmentShape(u, b, high, wide) && |u.idx| == |rows|;
    hide Unpack, Gather, AreaTo, OffsetsFit, AllBelow, FixedShape, PackSegment, RowStart;
    forall r | 0 <= r < m
      ensures IsSlots(u.idx[b][r], p.idx, RowStart(lo, r, n), n)
    {
      SlotsOfRow(p, cuRows, cuIdx, rows, cols, high, wide, b, r, lo);
    }
    SegmentJoin(u.idx[b], p.idx, lo, m, n);
  }

  lemma SlotsOfRow(p: Packed, cuRows: seq<int>, cuIdx: seq<int>, rows: seq<nat>, cols: seq<nat>, high: nat, wide: nat,
                   b: nat, r: nat, lo: int)
    requires |rows| == |cols| && |cuRows| == |cuIdx| == |rows| + 1 && b < |rows| && r < rows[b] <= high && cols[b] <= wide
    requires cuIdx[b] == lo >= 0 && rows[b] * cols[b] >= 0 && lo + rows[b] * cols[b] <= |p.idx|
    ensures var u := Unpack(p, cuRows, cuIdx, rows, cols, high, wide);
            && SegmentShape(u, b, high, wide) && b < |u.idx| && r < |u.idx[b]|
            && IsSlots(u.idx[b][r], p.idx, RowStart(lo, r, cols[b]), cols[b])
  {
    UnpackIs(p, cuRows, cuIdx, rows, cols, high, wide, b, r);
    RowFits(rows[b], cols[b], r);
    hide Unpack, Gather, FixedShape;
    var u, first := Unpack(p, cuRows, cuIdx, rows, cols, high, wide), lo + r * cols[b];
    forall k | 0 <= k < cols[b]
      ensures u.idx[b][r][k] == p.idx[first + k]
    {
      GatherIs(p.idx, first + k);
    }
  }

  lemma FitSizes(rows: seq<nat>, cols: seq<nat>, cuRows: seq<int>, cuIdx: seq<int>)
    requires OffsetsFit(rows, cols, cuRows, cuIdx)
    ensures |rows| == |cols| && |cuRows| == |cuIdx| == |rows| + 1
  {
  }

  lemma PackedIs(u: Fixed, rows: seq<nat>, cols: seq<nat>, height: nat, width: nat, p: Packed)
    requires |rows| == |cols| && FixedShape(u, |rows|, height, width) && AllBelow(rows, height)
    requires forall b :: 0 <= b < |rows| ==> b < |u.cnt| && b < |u.idx| && rows[b] <= |u.cnt[b]| && rows[b] <= |u.idx[b]|
    requires |rows| <= |u.cnt| && |rows| <= |u.idx|
    requires p.cnt == PackCounts(u.cnt, rows, |rows|) && p.idx == PackIndices(u.idx, rows, cols, |rows|)
    ensures p == Packed(CountsOf(u, rows, height, width), IndicesOf(u, rows, cols, height, width))
  {
    hide PackCounts, PackIndices, FixedShape, AllBelow;
  }

  /** Exporting an unpacked well-formed packed list returns it unchanged, unused slots included. */
  lemma PackUnpack(p: Packed, rows: seq<nat>, cols: seq<nat>, cuRows: seq<int>, cuIdx: seq<int>, high: nat, wide: nat)
    requires OffsetsFit(rows, cols, cuRows, cuIdx) && AllBelow(rows, high) && AllBelow(cols, wide)
    requires |p.cnt| == SumTo(rows, |rows|) && |p.idx| == AreaTo(rows, cols, |rows|)
    ensures var u := Unpack(p, cuRows, cuIdx, rows, cols, high, wide);
            && FixedShape(u, |rows|, high, wide)
            && p == Packed(CountsOf(u, rows, high, wide), IndicesOf(u, rows, cols, high, wide))
  {
    hide *;
    FitSizes(rows, cols, cuRows, cuIdx);
    var u := Unpack(p, cuRows, cuIdx, rows, cols, high, wide);
    UnpackSizes(p, cuRows, cuIdx, rows, cols, high, wide);
    forall b | 0 <= b < |rows|
      ensures IsStretch(u.cnt[b], p.cnt, SumTo(rows, b), rows[b])
      ensures IsPiece(u.idx[b], p.idx, AreaTo(rows, cols, b), rows[b], cols[b])
    {
      CountsStretch(p, rows, cols, cuRows, cuIdx, high, wide, b);
      IndicesPiece(p, rows, cols, cuRows, cuIdx, high, wide, b);
    }
    CountsJoin(u.cnt, p.cnt, rows, |rows|);
    IndicesJoin(u.idx, p.idx, rows, cols, |rows|);
    assert p.cnt[..|p.cnt|] == p.cnt && p.idx[..|p.idx|] == p.idx;
    PackedIs(u, rows, cols, high, wide, p);
  }

  /* The export. */

  /** A packed list with its two cumulative arrays. */
  datatype Export = Export(packed: Packed, cuRows: seq<nat>, cuIdx: seq<nat>)

  /** Column blocks of every segment: from cumulative lengths, or the same for all. */
  function ColsOf(cuCols: Option<seq<nat>>, colLen: nat, segments: nat): (cols: seq<nat>)
    requires cuCols.Some? ==> Cumulative(cuCols.value) && |cuCols.value| == segments + 1
    ensures |cols| == segments
  {
    match cuCols
    case Some(cu) => BlocksOf(cu)
    case None => seq(segments, _ => Blocks(colLen))
  }

  predicate Matches(given: Option<seq<nat>>, wanted: seq<nat>) { given.None? || given.value == wanted }

  ghost predicate IsExport(f: Fixed, rows: seq<nat>, cols: seq<nat>, height: nat, width: nat, e: Export)
    requires |rows| == |cols| && FixedShape(f, |rows|, height, width) && AllBelow(rows, height)
  {
    && OffsetsFit(rows, cols, e.cuRows, e.cuIdx)
    && e.packed == Packed(CountsOf(f, rows, height, width), IndicesOf(f, rows, cols, height, width))
  }

  /** Export the lists of one head. Block offsets that the caller brings along must be the ones
      that follow from the sequence lengths. */
  method PackedExport(f: Fixed, cuRows: seq<nat>, cuCols: Option<seq<nat>>, colLen: nat, height: nat, width: nat,
                      givenRows: Option<seq<nat>>, givenIdx: Option<seq<nat>>) returns (r: Result<Export>)
    requires Cumulative(cuRows) && FixedShape(f, |cuRows| - 1, height, width) && AllBelow(BlocksOf(cuRows), height)
    requires cuCols.Some? ==> Cumulative(cuCols.value) && |cuCols.value| == |cuRows|
    ensures var rows, cols := BlocksOf(cuRows), ColsOf(cuCols, colLen, |cuRows| - 1);
            && |rows| == |cols| == |cuRows| - 1
            && (r.Success? ==> Narrow(rows, cols) && IsExport(f, rows, cols, height, width, r.value)
                               && Matches(givenRows, r.value.cuRows) && Matches(givenIdx, r.value.cuIdx))
            && (r.Failure? ==> !Narrow(rows, cols)
                               || forall m, i :: OffsetsFit(rows, cols, m, i) ==> !Matches(givenRows, m) || !Matches(givenIdx, i))
  {
    var rows, cols := BlocksOf(cuRows), ColsOf(cuCols, colLen, |cuRows| - 1);
    RowsFit(f, rows, height, width);
    hide BlocksOf, ColsOf, FixedShape, PackCounts, PackIndices, Cumulative;
    var expectedRows, expectedIdx := Offsets(rows, cols);
    OffsetsUnique(rows, cols, expectedRows, expectedIdx);
    if expectedRows[|rows|] >= 0x8000_0000 || expectedIdx[|rows|] >= 0x8000_0000 {
      r := Failure("offsets cannot be converted to int32");
    } else if !Matches(givenRows, expectedRows) {
      r := Failure("cu_total_m_blocks does not match sequence lengths");
    } else if !Matches(givenIdx, expectedIdx) {
      r := Failure("cu_block_idx_offsets does not match sequence lengths");
    } else {
      var packed := Pack(f, rows, cols, height, width);
      r := Success(Export(packed, expectedRows, expectedIdx));
    }
  }

  lemma OffsetsUnique(rows: seq<nat>, cols: seq<nat>, cuRows: seq<int>, cuIdx: seq<int>)
    requires |rows| == |cols| && OffsetsFit(rows, cols, cuRows, cuIdx)
    ensures forall m, i :: OffsetsFit(rows, cols, m, i) ==> m == cuRows && i == cuIdx
  {
    hide SumTo, AreaTo;
  }

  /** Every offset fits a signed 32-bit number exactly if the last ones do. */
  lemma NarrowOffsets(rows: seq<nat>, cols: seq<nat>, cuRows: seq<int>, cuIdx: seq<int>)
    requires OffsetsFit(rows, cols, cuRows, cuIdx)
    ensures (Narrow(rows, cols)) <==> forall b :: 0 <= b <= |rows| ==> cuRows[b] <= 0x7fff_ffff && cuIdx[b] <= 0x7fff_ffff
  {
    hide SumTo, AreaTo;
    forall b | 0 <= b <= |rows|
      ensures cuRows[b] <= cuRows[|rows|] && cuIdx[b] <= cuIdx[|rows|]
    {
      SumMono(rows, b, |rows|);
      AreaMono(rows, cols, b, |rows|);
    }
  }

  /** Unpacking an export, row by row. */
  lemma ExportRoundTrip(f: Fixed, rows: seq<nat>, cols: seq<nat>, height: nat, width: nat, e: Export, high: nat, wide: nat, b: nat, m: nat)
    requires |rows| == |cols| && FixedShape(f, |rows|, height, width) && AllBelow(rows, height)
    requires IsExport(f, rows, cols, height, width, e) && b < |rows| && m < high
    ensures |e.cuRows| == |e.cuIdx| == |rows| + 1
    ensures var u := Unpack(e.packed, e.cuRows, e.cuIdx, rows, cols, high, wide);
            && FixedShape(u, |rows|, high, wide)
            && SegmentShape(u, b, high, wide) && SegmentShape(f, b, height, width) && rows[b] <= height
            && SameRow(f, u, rows, cols, width, wide, b, m)
  {
    hide FixedShape, SegmentShape, CountsOf, IndicesOf, Unpack, SameRow, AllBelow;
    UnpackPack(f, rows, cols, e.cuRows, e.cuIdx, height, width, e.packed, high, wide, b, m);
  }

  /* Boundaries only matter through the offsets. */

  lemma SameCancel(m: nat, a: nat, c: nat)
    requires m * a == m * c && m > 0
    ensures a == c
  {
    if a < c { MulMono(a + 1, c, m); NextMultiple(a, m); } else if c < a { MulMono(c + 1, a, m); NextMultiple(c, m); }
  }

  lemma SameBlocks(rows: seq<nat>, cols: seq<nat>, rows': seq<nat>, cols': seq<nat>, cuRows: seq<int>, cuIdx: seq<int>, b: nat)
    requires OffsetsFit(rows, cols, cuRows, cuIdx) && OffsetsFit(rows', cols', cuRows, cuIdx) && b < |rows|
    ensures b < |rows'| == |rows| && rows[b] == rows'[b] && (rows[b] > 0 ==> cols[b] == cols'[b])
  {
    AreaNext(rows, cols, b);
    AreaNext(rows', cols', b);
    var n := b + 1;
    assert cuRows[b] == SumTo(rows, b) == SumTo(rows', b) && cuRows[n] == SumTo(rows, n) == SumTo(rows', n);
    assert cuIdx[b] == AreaTo(rows, cols, b) == AreaTo(rows', cols', b);
    assert cuIdx[n] == AreaTo(rows, cols, n) == AreaTo(rows', cols', n);
    if rows[b] > 0 { SameCancel(rows[b], cols[b], cols'[b]); }
  }

  /** Two requests whose block counts both fit the offsets of a packed list unpack it to the same
      layout, whichever sequence boundaries the counts come from. */
  lemma UnpackByOffsets(p: Packed, rows: seq<nat>, cols: seq<nat>, rows': seq<nat>, cols': seq<nat>, cuRows: seq<int>, cuIdx: seq<int>,
                        high: nat, wide: nat)
    requires OffsetsFit(rows, cols, cuRows, cuIdx) && OffsetsFit(rows', cols', cuRows, cuIdx)
    ensures Unpack(p, cuRows, cuIdx, rows, cols, high, wide) == Unpack(p, cuRows, cuIdx, rows', cols', high, wide)
  {
    var u, v := Unpack(p, cuRows, cuIdx, rows, cols, high, wide), Unpack(p, cuRows, cuIdx, rows', cols', high, wide);
    UnpackSizes(p, cuRows, cuIdx, rows, cols, high, wide);
    UnpackSizes(p, cuRows, cuIdx, rows', cols', high, wide);
    hide Unpack, OffsetsFit, FixedShape, SegmentShape, Gather;
    forall b | 0 <= b < |rows|
      ensures u.cnt[b] == v.cnt[b] && u.idx[b] == v.idx[b]
    {
      SameBlocks(rows, cols, rows', cols', cuRows, cuIdx, b);
      SameSegment(p, rows, cols, rows', cols', cuRows, cuIdx, high, wide, b);
    }
    assert u.cnt == v.cnt && u.idx == v.idx;
  }

  lemma UnpackSizes(p: Packed, cuRows: seq<int>, cuIdx: seq<int>, rows: seq<nat>, cols: seq<nat>, high: nat, wide: nat)
    requires |rows| == |cols| && |cuRows| == |cuIdx| == |rows| + 1
    ensures var u := Unpack(p, cuRows, cuIdx, rows, cols, high, wide); |u.cnt| == |u.idx| == |rows|
  {
  }

  lemma SameSegment(p: Packed, rows: seq<nat>, cols: seq<nat>, rows': seq<nat>, cols': seq<nat>, cuRows: seq<int>, cuIdx: seq<int>,
                    high: nat, wide: nat, b: nat)
    requires |rows| == |cols| == |rows'| == |cols'| && |cuRows| == |cuIdx| == |rows| + 1 && b < |rows|
    requires rows[b] == rows'[b] && (rows[b] > 0 ==> cols[b] == cols'[b])
    ensures var u, v := Unpack(p, cuRows, cuIdx, rows, cols, high, wide), Unpack(p, cuRows, cuIdx, rows', cols', high, wide);
            |u.cnt| == |v.cnt| == |u.idx| == |v.idx| == |rows| && u.cnt[b] == v.cnt[b] && u.idx[b] == v.idx[b]
  {
    hide Gather;
    var u, v := Unpack(p, cuRows, cuIdx, rows, cols, high, wide), Unpack(p, cuRows, cuIdx, rows', cols', high, wide);
    assert SegmentShape(u, b, high, wide) && SegmentShape(v, b, high, wide);
    forall m | 0 <= m < high
      ensures u.cnt[b][m] == v.cnt[b][m] && u.idx[b][m] == v.idx[b][m]
    {
      SameUnpackedRow(p, rows, cols, rows', cols', cuRows, cuIdx, high, wide, b, m);
    }
  }

  lemma SameUnpackedRow(p: Packed, rows: seq<nat>, cols: seq<nat>, rows': seq<nat>, cols': seq<nat>, cuRows: seq<int>, cuIdx: seq<int>,
                        high: nat, wide: nat, b: nat, m: nat)
    requires |rows| == |cols| == |rows'| == |cols'| && |cuRows| == |cuIdx| == |rows| + 1 && b < |rows| && m < high
    requires rows[b] == rows'[b] && (rows[b] > 0 ==> cols[b] == cols'[b])
    ensures var u, v := Unpack(p, cuRows, cuIdx, rows, cols, high, wide), Unpack(p, cuRows, cuIdx, rows', cols', high, wide);
            && SegmentShape(u, b, high, wide) && SegmentShape(v, b, high, wide)
            && u.cnt[b][m] == v.cnt[b][m] && u.idx[b][m] == v.idx[b][m]
  {
    UnpackIs(p, cuRows, cuIdx, rows, cols, high, wide, b, m);
    UnpackIs(p, cuRows, cuIdx, rows', cols', high, wide, b, m);
    hide Gather, Unpack, FixedShape;
  }
}
