/** Gathering the rows of `dout` and `out` for the row sums of the backward pass: a (batch,
    head, sequence) odometer that every vector core resumes from one burst to the next. */
module SfmgGather {
  import opened Arith
  import opened SfmgRank

  type Row = seq<real>

  /** Distances, in elements, between batches, tokens and heads of a tensor. */
  datatype Strides = Strides(batch: int, sequence: int, head: int)

  /** A tensor in global memory: the row of `headdim` values at an element address. */
  datatype Tensor = Tensor(row: int -> Row, strides: Strides)

  /** Address of row (b, n, s). */
  function Addr(sq: Seqs, st: Strides, b: int, n: int, s: int): int
    requires ValidSeqs(sq) && 0 <= b < sq.batch
  {
    (if sq.packed then 0 else b * st.batch) + (s + if sq.packed then StartOf(sq, b) else 0) * st.sequence + n * st.head
  }

  /** Tokens of a dense tensor lie behind each other, packed or not, and the heads of a token behind
      each other: a row is found by its token and its head. */
  lemma DenseAddr(sq: Seqs, st: Strides, headdim: int, b: int, n: int, s: int)
    requires ValidSeqs(sq) && 0 <= b < sq.batch
    requires st == Strides(sq.seqQ * sq.nheads * headdim, sq.nheads * headdim, headdim)
    ensures Addr(sq, st, b, n, s)
         == (((if !sq.packed then b * sq.seqQ else if b == 0 then 0 else sq.ends[b - 1]) + s) * sq.nheads + n) * headdim
  {
    var token := if !sq.packed then b * sq.seqQ else if b == 0 then 0 else sq.ends[b - 1];
    var row := sq.nheads * headdim;
    assert ((token + s) * sq.nheads + n) * headdim == (token + s) * sq.nheads * headdim + n * headdim;
    Assoc(token + s, sq.nheads, headdim);
    if !sq.packed {
      Assoc(sq.seqQ, sq.nheads, headdim);
      Assoc(b, sq.seqQ, row);
      AddMultiples(b * sq.seqQ, s, row);
    }
  }

  lemma Assoc(a: int, b: int, c: int)
    ensures a * b * c == a * (b * c)
  {
  }

  /** Rows of `headdim` elements that do not overlap: heads inside tokens, or tokens inside heads. */
  predicate Apart(sq: Seqs, st: Strides, headdim: int) {
    if sq.packed || st.head <= st.sequence then
      && st.head >= headdim && st.sequence >= (sq.nheads - 1) * st.head + headdim
      && (sq.packed || st.batch >= (sq.seqQ - 1) * st.sequence + (sq.nheads - 1) * st.head + headdim)
    else
      && st.sequence >= headdim && st.head >= (sq.seqQ - 1) * st.sequence + headdim
      && st.batch >= (sq.nheads - 1) * st.head + (sq.seqQ - 1) * st.sequence + headdim
  }

  /** Places of two digits, the lower one below m. */
  lemma TwoDigits(x: int, y: int, x': int, y': int, m: int, big: int, small: int, width: int)
    requires 0 <= y < m && 0 <= y' < m && small >= width >= 0 && big >= (m - 1) * small + width
    requires x < x' || (x == x' && y < y')
    ensures x * big + y * small + width <= x' * big + y' * small
  {
    MulMono(0, y', small);
    if x < x' {
      MulMono(y, m - 1, small);
      MulMono(0, m - 1, small);
      MulMono(x + 1, x', big);
      NextMultiple(x, big);
    } else {
      MulMono(y + 1, y', small);
      NextMultiple(y, small);
    }
  }

  /** Places of three digits. */
  lemma ThreeDigits(b: int, x: int, y: int, b': int, x': int, y': int, k: int, m: int, huge: int, big: int, small: int, width: int)
    requires 0 <= x < k && 0 <= x' < k && 0 <= y < m && 0 <= y' < m
    requires small >= width >= 0 && big >= (m - 1) * small + width && huge >= (k - 1) * big + (m - 1) * small + width
    requires b < b' || (b == b' && (x < x' || (x == x' && y < y')))
    ensures b * huge + x * big + y * small + width <= b' * huge + x' * big + y' * small
  {
    if b < b' {
      MulMono(0, m - 1, small);
      MulMono(x, k - 1, big);
      MulMono(y, m - 1, small);
      MulMono(0, x', big);
      MulMono(0, y', small);
      MulMono(b + 1, b', huge);
      NextMultiple(b, huge);
      MulMono(0, k - 1, big);
    } else {
      TwoDigits(x, y, x', y', m, big, small, width);
    }
  }

  /** Different rows lie at addresses at least a row apart. */
  lemma RowsApart(sq: Seqs, st: Strides, headdim: nat, b: int, n: int, s: int, b': int, n': int, s': int)
    requires ValidSeqs(sq) && Apart(sq, st, headdim) && IsRow(sq, b, n, s) && IsRow(sq, b', n', s')
    requires (b, n, s) != (b', n', s')
    ensures var x, y := Addr(sq, st, b, n, s), Addr(sq, st, b', n', s'); x + headdim <= y || y + headdim <= x
  {
    if sq.packed {
      PackedApart(sq, st, headdim, b, n, s, b', n', s');
    } else if st.head <= st.sequence {
      if b < b' || (b == b' && (s < s' || (s == s' && n < n'))) {
        ThreeDigits(b, s, n, b', s', n', sq.seqQ, sq.nheads, st.batch, st.sequence, st.head, headdim);
      } else {
        ThreeDigits(b', s', n', b, s, n, sq.seqQ, sq.nheads, st.batch, st.sequence, st.head, headdim);
      }
    } else {
      if b < b' || (b == b' && (n < n' || (n == n' && s < s'))) {
        ThreeDigits(b, n, s, b', n', s', sq.nheads, sq.seqQ, st.batch, st.head, st.sequence, headdim);
      } else {
        ThreeDigits(b', n', s', b, n, s, sq.nheads, sq.seqQ, st.batch, st.head, st.sequence, headdim);
      }
    }
  }

  lemma PackedApart(sq: Seqs, st: Strides, headdim: nat, b: int, n: int, s: int, b': int, n': int, s': int)
    requires ValidSeqs(sq) && sq.packed && Apart(sq, st, headdim) && IsRow(sq, b, n, s) && IsRow(sq, b', n', s')
    requires (b, n, s) != (b', n', s')
    ensures var x, y := Addr(sq, st, b, n, s), Addr(sq, st, b', n', s'); x + headdim <= y || y + headdim <= x
  {
    if b < b' { TokensApart(sq, b, s, b', s'); }
    if b' < b { TokensApart(sq, b', s', b, s); }
    var t, t' := StartOf(sq, b) + s, StartOf(sq, b') + s';
    hide StartOf, LenOf, ValidSeqs;
    if t < t' || (t == t' && n < n') {
      TwoDigits(t, n, t', n', sq.nheads, st.sequence, st.head, headdim);
    } else {
      TwoDigits(t', n', t, n, sq.nheads, st.sequence, st.head, headdim);
    }
  }

  lemma TokensApart(sq: Seqs, b: int, s: int, b': int, s': int)
    requires ValidSeqs(sq) && 0 <= b < b' < sq.batch && s < LenOf(sq, b) && 0 <= s'
    ensures StartOf(sq, b) + s < StartOf(sq, b') + s'
  {
    StartNext(sq, b);
    StartMono(sq, b + 1, b');
  }

  /** `x` is the row of rank k. */
  ghost predicate IsRowOf(sq: Seqs, t: Tensor, k: int, x: Row)
    requires ValidSeqs(sq)
  {
    forall b, n, s :: IsRow(sq, b, n, s) && Rank(sq, b, n, s) == k ==> x == t.row(Addr(sq, t.strides, b, n, s))
  }

  /** `rows` are the rows of ranks k, k + 1, ... */
  ghost predicate AreRowsOf(sq: Seqs, t: Tensor, k: int, rows: seq<Row>)
    requires ValidSeqs(sq)
  {
    forall j :: 0 <= j < |rows| ==> IsRowOf(sq, t, k + j, rows[j])
  }

  lemma RowsJoin(sq: Seqs, t: Tensor, k: int, rows: seq<Row>, more: seq<Row>)
    requires ValidSeqs(sq) && AreRowsOf(sq, t, k, rows) && AreRowsOf(sq, t, k + |rows|, more)
    ensures AreRowsOf(sq, t, k, rows + more)
  {
    var all := rows + more;
    hide IsRowOf, ValidSeqs;
    forall j | 0 <= j < |all|
      ensures IsRowOf(sq, t, k + j, all[j])
    {
      if j >= |rows| {
        var i := j - |rows|;
        assert IsRowOf(sq, t, k + |rows| + i, more[i]);
      }
    }
  }

  /** Rows of one sequence, read a token apart, have consecutive ranks. */
  lemma RunIsRows(sq: Seqs, t: Tensor, b: int, n: int, s: int, rows: seq<Row>)
    requires ValidSeqs(sq) && 0 <= b < sq.batch && 0 <= n < sq.nheads && 0 <= s && s + |rows| <= LenOf(sq, b)
    requires forall j :: 0 <= j < |rows| ==> rows[j] == t.row(Addr(sq, t.strides, b, n, s) + j * t.strides.sequence)
    ensures AreRowsOf(sq, t, Rank(sq, b, n, s), rows)
  {
    var k := Rank(sq, b, n, s);
    forall j | 0 <= j < |rows|
      ensures IsRowOf(sq, t, k + j, rows[j])
    {
      AddrStep(sq, t.strides, b, n, s, j);
      OneRow(sq, t, b, n, s + j);
      RankStep(sq, b, n, s, j);
    }
  }

  lemma RankStep(sq: Seqs, b: int, n: int, s: int, j: int)
    requires ValidSeqs(sq) && 0 <= b < sq.batch
    ensures Rank(sq, b, n, s + j) == Rank(sq, b, n, s) + j
  {
  }

  lemma AddrStep(sq: Seqs, st: Strides, b: int, n: int, s: int, j: int)
    requires ValidSeqs(sq) && 0 <= b < sq.batch
    ensures Addr(sq, st, b, n, s + j) == Addr(sq, st, b, n, s) + j * st.sequence
  {
    var x := s + if sq.packed then StartOf(sq, b) else 0;
    assert (x + j) * st.sequence == x * st.sequence + j * st.sequence;
  }

  lemma OneRow(sq: Seqs, t: Tensor, b: int, n: int, s: int)
    requires ValidSeqs(sq) && IsRow(sq, b, n, s)
    ensures IsRowOf(sq, t, Rank(sq, b, n, s), t.row(Addr(sq, t.strides, b, n, s)))
  {
    forall b', n', s' | IsRow(sq, b', n', s') && Rank(sq, b', n', s') == Rank(sq, b, n, s)
      ensures b' == b && n' == n && s' == s
    {
      RankUnique(sq, b, n, s, b', n', s');
    }
    hide Rank, IsRow;
  }

  /* Index arithmetic in elements. */

  lemma ScaledLess(a: int, b: int, h: int)
    requires h >= 1
    ensures a * h < b * h <==> a < b
  {
    if a < b { MulMono(a + 1, b, h); assert (a + 1) * h == a * h + h; } else { MulMono(b, a, h); }
  }

  /** Dividing both sides by the row length. */
  lemma ScaledDivide(a: int, n: int, h: int)
    requires a >= 0 && n >= 1 && h >= 1
    ensures n * h >= 1 && a * h / (n * h) == a / n && a * h % (n * h) == a % n * h
    ensures a % n * h / h == a % n
  {
    var q, r := a / n, a % n;
    assert a == q * n + r;
    MulMono(1, n, h);
    assert a * h == q * (n * h) + r * h by { Distribute(q, n, r, h); }
    MulMono(r + 1, n, h);
    MulMono(0, r, h);
    assert (r + 1) * h == r * h + h;
    assert (q + 1) * (n * h) == q * (n * h) + n * h;
    DivideBetween(a * h, n * h, q);
    DivideBetween(r * h, h, r);
  }

  lemma Distribute(q: int, n: int, r: int, h: int)
    ensures (q * n + r) * h == q * (n * h) + r * h
  {
  }

  class Odometer {
    var bIdx: int
    var nIdx: int
    var sIdx: int
    const sq: Seqs
    const headdim: int

    ghost predicate Valid()
      reads this
    {
      && ValidSeqs(sq) && headdim >= 1
      && 0 <= bIdx < sq.batch && 0 <= nIdx < sq.nheads && 0 <= sIdx <= LenOf(sq, bIdx)
    }

    /** Rank of the next row. */
    ghost function Position(): int
      requires Valid()
      reads this
    {
      Rank(sq, bIdx, nIdx, sIdx)
    }

    constructor (sq: Seqs, headdim: int)
      requires ValidSeqs(sq) && headdim >= 1
      ensures Valid() && this.sq == sq && this.headdim == headdim && bIdx == 0
    {
      this.sq, this.headdim := sq, headdim;
      bIdx, nIdx, sIdx := 0, 0, 0;
      new;
      StartNext(sq, 0);
    }

    /** Move to the row of rank k. Packed sequences are searched from the current batch on,
        which must not lie behind the row. */
    method InitIndex(startIdx: int, curS: int, ghost k: int) returns (newS: int)
      requires Valid() && startIdx == k * headdim && 0 <= k < Total(sq) && sq.nheads * StartOf(sq, bIdx) <= k
      requires !sq.packed ==> curS == sq.seqQ
      modifies this
      ensures Valid() && newS == LenOf(sq, bIdx) && IsRow(sq, bIdx, nIdx, sIdx) && Position() == k
    {
      if sq.packed {
        newS := Search(startIdx, k);
      } else {
        newS := curS;
        Divide(startIdx, k);
      }
    }

    /** Fixed lengths: the place follows by division. */
    method Divide(startIdx: int, ghost k: int)
      requires Valid() && startIdx == k * headdim && 0 <= k < Total(sq) && !sq.packed
      modifies this
      ensures Valid() && IsRow(sq, bIdx, nIdx, sIdx) && Position() == k
    {
      FixedPlace(sq, k, headdim);
      bIdx := startIdx / (sq.nheads * sq.seqQ * headdim);
      var bTail := startIdx % (sq.nheads * sq.seqQ * headdim);
      nIdx := bTail / (sq.seqQ * headdim);
      var nTail := bTail % (sq.seqQ * headdim);
      sIdx := nTail / headdim;
    }

    /** Packed lengths: the first batch that ends behind the row. */
    method Search(startIdx: int, ghost k: int) returns (newS: int)
      requires Valid() && startIdx == k * headdim && 0 <= k < Total(sq) && sq.nheads * StartOf(sq, bIdx) <= k && sq.packed
      modifies this
      ensures Valid() && newS == LenOf(sq, bIdx) && IsRow(sq, bIdx, nIdx, sIdx) && Position() == k
    {
      newS := 0;
      var bDimIdx := bIdx;
      while bDimIdx < sq.batch
        invariant bIdx <= bDimIdx <= sq.batch && sq.nheads * StartOf(sq, bDimIdx) <= k && Valid()
      {
        var totalLen := sq.nheads * sq.ends[bDimIdx] * headdim;
        ScaledLess(k, sq.nheads * sq.ends[bDimIdx], headdim);
        if totalLen > startIdx {
          bIdx := bDimIdx;
          newS := if bIdx == 0 then sq.ends[bIdx] else sq.ends[bIdx] - sq.ends[bIdx - 1];
          PackedPlace(sq, k, bIdx, headdim);
          var bTail := startIdx - (totalLen - sq.nheads * newS * headdim);
          nIdx := bTail / (newS * headdim);
          var nTail := bTail % (newS * headdim);
          sIdx := nTail / headdim;
          return;
        }
        bDimIdx := bDimIdx + 1;
      }
    }

    /** Read `curNBurst` rows of the current sequence, a token apart. */
    method DoCopyIn(t: Tensor, curNBurst: int) returns (rows: seq<Row>)
      requires Valid() && 0 <= curNBurst && sIdx + curNBurst <= LenOf(sq, bIdx)
      ensures |rows| == curNBurst && AreRowsOf(sq, t, Position(), rows)
    {
      var token := sIdx + if sq.packed then (if bIdx == 0 then 0 else sq.ends[bIdx - 1]) else 0;
      var offset := (if sq.packed then 0 else bIdx * t.strides.batch) + token * t.strides.sequence + nIdx * t.strides.head;
      assert offset == Addr(sq, t.strides, bIdx, nIdx, sIdx);
      rows := seq(curNBurst, j requires 0 <= j < curNBurst => t.row(offset + j * t.strides.sequence));
      RunIsRows(sq, t, bIdx, nIdx, sIdx, rows);
    }

    /** Step to the next head, or the next batch, behind the end of a sequence; at the very end
        there is no axis left to borrow from. */
    method Borrow(curS: int) returns (newS: int, more: bool)
      requires Valid() && curS == LenOf(sq, bIdx) && sIdx == LenOf(sq, bIdx)
      modifies this
      ensures Valid() && newS == LenOf(sq, bIdx) && sIdx == 0
      ensures more <==> old(nIdx) < sq.nheads - 1 || old(bIdx) < sq.batch - 1
      ensures more ==> Position() == old(Position())
      ensures more ==> bIdx > old(bIdx) || (bIdx == old(bIdx) && nIdx > old(nIdx))
      ensures !more ==> old(Position()) == Total(sq)
    {
      newS, more := curS, true;
      Ends(sq, bIdx, nIdx);
      StartNext(sq, bIdx);
      sIdx := 0;
      if nIdx < sq.nheads - 1 {
        nIdx := nIdx + 1;
      } else {
        nIdx := 0;
        if bIdx < sq.batch - 1 {
          StartNext(sq, bIdx + 1);
          bIdx := bIdx + 1;
          newS := if sq.packed then sq.ends[bIdx] - sq.ends[bIdx - 1] else sq.seqQ;
        } else {
          more := false;
        }
      }
    }

    /** Gather the next `left` rows of both tensors, from the current place on, across heads,
        batches and empty sequences. */
    method CopyInSfmg(left: int, curS: int, dout: Tensor, out: Tensor) returns (newS: int, rowsD: seq<Row>, rowsO: seq<Row>)
      requires Valid() && left >= 0 && curS == LenOf(sq, bIdx) && Position() + left <= Total(sq)
      modifies this
      ensures Valid() && newS == LenOf(sq, bIdx) && Position() == old(Position()) + left
      ensures |rowsD| == |rowsO| == left
      ensures AreRowsOf(sq, dout, old(Position()), rowsD) && AreRowsOf(sq, out, old(Position()), rowsO)
    {
      newS, rowsD, rowsO := curS, [], [];
      var leftNburst := left;
      ghost var k := Position();
      while leftNburst > 0
        invariant 0 <= leftNburst <= left && Valid() && newS == LenOf(sq, bIdx)
        invariant |rowsD| == |rowsO| == left - leftNburst && Position() == k + (left - leftNburst)
        invariant AreRowsOf(sq, dout, k, rowsD) && AreRowsOf(sq, out, k, rowsO)
        decreases leftNburst, sq.batch - bIdx, sq.nheads - nIdx
      {
        var curNburst := if newS - sIdx < leftNburst then newS - sIdx else leftNburst;
        var moreD := DoCopyIn(dout, curNburst);
        var moreO := DoCopyIn(out, curNburst);
        RowsJoin(sq, dout, k, rowsD, moreD);
        RowsJoin(sq, out, k, rowsO, moreO);
        rowsD, rowsO := rowsD + moreD, rowsO + moreO;
        RankStep(sq, bIdx, nIdx, sIdx, curNburst);
        sIdx := sIdx + curNburst;
        leftNburst := leftNburst - curNburst;
        if leftNburst > 0 {
          var more: bool;
          newS, more := Borrow(newS);
          if !more { leftNburst := 0; }
        }
      }
    }
  }

  /** The end of a sequence is the start of the next one. */
  lemma Ends(sq: Seqs, b: int, n: int)
    requires ValidSeqs(sq) && 0 <= b < sq.batch && 0 <= n < sq.nheads
    ensures n < sq.nheads - 1 ==> Rank(sq, b, n, LenOf(sq, b)) == Rank(sq, b, n + 1, 0)
    ensures n == sq.nheads - 1 && b < sq.batch - 1 ==> Rank(sq, b, n, LenOf(sq, b)) == Rank(sq, b + 1, 0, 0)
    ensures n == sq.nheads - 1 && b == sq.batch - 1 ==> Rank(sq, b, n, LenOf(sq, b)) == Total(sq)
  {
    var len := LenOf(sq, b);
    assert (n + 1) * len == n * len + len;
    StartNext(sq, b);
    Scale(sq.nheads, StartOf(sq, b), len);
  }

  /** The divisions of `Divide` find the row of rank k. */
  lemma FixedPlace(sq: Seqs, k: int, headdim: int)
    requires ValidSeqs(sq) && headdim >= 1 && 0 <= k < Total(sq) && !sq.packed
    ensures sq.nheads * sq.seqQ * headdim >= 1 && sq.seqQ * headdim >= 1
    ensures var b := k * headdim / (sq.nheads * sq.seqQ * headdim);
            var bTail := k * headdim % (sq.nheads * sq.seqQ * headdim);
            var n, s := bTail / (sq.seqQ * headdim), bTail % (sq.seqQ * headdim) / headdim;
            IsRow(sq, b, n, s) && Rank(sq, b, n, s) == k
  {
    var m, len := sq.nheads * sq.seqQ, sq.seqQ;
    assert len == 0 ==> sq.batch * len == 0 && sq.nheads * (sq.batch * len) == 0;
    MulMono(1, len, headdim);
    MulMono(1, sq.nheads, len);
    assert k < sq.batch * m by { Commute3(sq.nheads, sq.batch, len); }
    ScaledDivide(k, m, headdim);
    QuotientBelow(k, m, sq.batch);
    var b, rest := k / m, k % m;
    ScaledDivide(rest, len, headdim);
    QuotientBelow(rest, len, sq.nheads);
    Commute3(sq.nheads, b, len);
  }

  lemma Commute3(h: int, b: int, n: int)
    ensures h * (b * n) == b * (h * n)
  {
  }

  /** The divisions of `Search` find the row of rank k in its batch. */
  lemma PackedPlace(sq: Seqs, k: int, b: int, headdim: int)
    requires ValidSeqs(sq) && headdim >= 1 && 0 <= b < sq.batch && sq.packed
    requires sq.nheads * StartOf(sq, b) <= k < sq.nheads * sq.ends[b]
    ensures LenOf(sq, b) >= 1 && LenOf(sq, b) * headdim >= 1
    ensures var bTail := k * headdim - (sq.nheads * sq.ends[b] * headdim - sq.nheads * LenOf(sq, b) * headdim);
            var n, s := bTail / (LenOf(sq, b) * headdim), bTail % (LenOf(sq, b) * headdim) / headdim;
            IsRow(sq, b, n, s) && Rank(sq, b, n, s) == k
  {
    StartNext(sq, b);
    var len := LenOf(sq, b);
    var n, s := PlaceInBatch(sq, k, b);
    Scale(sq.nheads, StartOf(sq, b), len);
    var rest := k - sq.nheads * StartOf(sq, b);
    hide ValidSeqs, LenOf;
    MulMono(1, len, headdim);
    TailOf(k, sq.nheads * sq.ends[b], sq.nheads * len, sq.nheads * StartOf(sq, b), headdim);
    ScaledDivide(rest, len, headdim);
  }

  lemma TailOf(k: int, end: int, width: int, start: int, h: int)
    requires end == start + width
    ensures k * h - (end * h - width * h) == (k - start) * h
  {
    assert end * h == start * h + width * h;
  }
}
