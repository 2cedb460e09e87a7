/** The rows of the backward pass, ranked by (batch, head, sequence position): the order in
    which the row sums are gathered and stored, and in which their consumer looks them up. */
module SfmgRank {
  import opened Arith

  /** The query sequences: packed behind each other, `ends` being the inclusive prefix sums of
      their lengths, or `seqQ` tokens in every batch. */
  datatype Seqs = Seqs(packed: bool, ends: seq<int>, seqQ: nat, batch: nat, nheads: nat)

  predicate EndAt(ends: seq<int>, b: int)
    requires 0 <= b < |ends|
  {
    (if b == 0 then 0 else ends[b - 1]) <= ends[b]
  }

  ghost predicate ValidSeqs(sq: Seqs) {
    && sq.batch >= 1 && sq.nheads >= 1
    && (sq.packed ==> |sq.ends| == sq.batch && forall b :: 0 <= b < sq.batch ==> EndAt(sq.ends, b))
  }

  /** Tokens before batch b. */
  function StartOf(sq: Seqs, b: int): int
    requires ValidSeqs(sq) && 0 <= b <= sq.batch
  {
    if sq.packed then (if b == 0 then 0 else sq.ends[b - 1]) else b * sq.seqQ
  }

  function LenOf(sq: Seqs, b: int): int
    requires ValidSeqs(sq) && 0 <= b < sq.batch
  {
    if sq.packed then (if b == 0 then sq.ends[0] else sq.ends[b] - sq.ends[b - 1]) else sq.seqQ
  }

  lemma StartNext(sq: Seqs, b: int)
    requires ValidSeqs(sq) && 0 <= b < sq.batch
    ensures StartOf(sq, b + 1) == StartOf(sq, b) + LenOf(sq, b) && LenOf(sq, b) >= 0
  {
    assert (b + 1) * sq.seqQ == b * sq.seqQ + sq.seqQ;
    if sq.packed { assert EndAt(sq.ends, b); }
  }

  lemma {:induction false} StartMono(sq: Seqs, a: int, b: int)
    requires ValidSeqs(sq) && 0 <= a <= b <= sq.batch
    ensures 0 <= StartOf(sq, a) <= StartOf(sq, b)
    decreases b
  {
    if a < b {
      StartMono(sq, a, b - 1);
      StartNext(sq, b - 1);
    } else if b > 0 {
      StartMono(sq, b - 1, b - 1);
      StartNext(sq, b - 1);
    }
  }

  predicate IsRow(sq: Seqs, b: int, n: int, s: int)
    requires ValidSeqs(sq)
  {
    0 <= b < sq.batch && 0 <= n < sq.nheads && 0 <= s < LenOf(sq, b)
  }

  /** Rank of a place; the place may be one past the end of a sequence. */
  function Rank(sq: Seqs, b: int, n: int, s: int): int
    requires ValidSeqs(sq) && 0 <= b < sq.batch
  {
    sq.nheads * StartOf(sq, b) + n * LenOf(sq, b) + s
  }

  /** Number of rows. */
  function Total(sq: Seqs): int
    requires ValidSeqs(sq)
  {
    sq.nheads * StartOf(sq, sq.batch)
  }

  lemma Scale(h: int, a: int, b: int)
    ensures h * (a + b) == h * a + h * b
  {
  }

  /** The rows of a batch have the ranks between its start and that of the next batch. */
  lemma RankInBatch(sq: Seqs, b: int, n: int, s: int)
    requires ValidSeqs(sq) && IsRow(sq, b, n, s)
    ensures sq.nheads * StartOf(sq, b) <= Rank(sq, b, n, s) < sq.nheads * StartOf(sq, b + 1)
  {
    StartNext(sq, b);
    Scale(sq.nheads, StartOf(sq, b), LenOf(sq, b));
    MulMono(n + 1, sq.nheads, LenOf(sq, b));
    MulMono(0, n, LenOf(sq, b));
    assert (n + 1) * LenOf(sq, b) == n * LenOf(sq, b) + LenOf(sq, b);
  }

  /** Every row has its own rank. */
  lemma RankUnique(sq: Seqs, b: int, n: int, s: int, b': int, n': int, s': int)
    requires ValidSeqs(sq) && IsRow(sq, b, n, s) && IsRow(sq, b', n', s')
    requires Rank(sq, b, n, s) == Rank(sq, b', n', s')
    ensures b == b' && n == n' && s == s'
  {
    RankInBatch(sq, b, n, s);
    RankInBatch(sq, b', n', s');
    if b < b' {
      StartMono(sq, b + 1, b');
      MulMonoLeft(sq.nheads, StartOf(sq, b + 1), StartOf(sq, b'));
    } else if b' < b {
      StartMono(sq, b' + 1, b);
      MulMonoLeft(sq.nheads, StartOf(sq, b' + 1), StartOf(sq, b));
    }
    var len := LenOf(sq, b);
    hide ValidSeqs, StartOf, LenOf;
    if b == b' {
      assert (n + 1) * len == n * len + len && (n' + 1) * len == n' * len + len;
      DivideBetween(n * len + s, len, n);
      DivideBetween(n' * len + s', len, n');
    }
  }

  /** Every rank below the total belongs to a row. */
  lemma RankOnto(sq: Seqs, k: int) returns (b: int, n: int, s: int)
    requires ValidSeqs(sq) && 0 <= k < Total(sq)
    ensures IsRow(sq, b, n, s) && Rank(sq, b, n, s) == k
  {
    b := BatchOf(sq, k, sq.batch);
    n, s := PlaceInBatch(sq, k, b);
  }

  lemma {:induction false} BatchOf(sq: Seqs, k: int, m: int) returns (b: int)
    requires ValidSeqs(sq) && 0 <= m <= sq.batch && 0 <= k < sq.nheads * StartOf(sq, m)
    ensures 0 <= b < m && sq.nheads * StartOf(sq, b) <= k < sq.nheads * StartOf(sq, b + 1)
    decreases m
  {
    assert StartOf(sq, 0) == 0;
    if m == 0 {
      b := 0;
    } else if k < sq.nheads * StartOf(sq, m - 1) {
      b := BatchOf(sq, k, m - 1);
    } else {
      b := m - 1;
    }
  }

  lemma PlaceInBatch(sq: Seqs, k: int, b: int) returns (n: int, s: int)
    requires ValidSeqs(sq) && 0 <= b < sq.batch && sq.nheads * StartOf(sq, b) <= k < sq.nheads * StartOf(sq, b + 1)
    ensures IsRow(sq, b, n, s) && Rank(sq, b, n, s) == k
    ensures LenOf(sq, b) > 0 && n == (k - sq.nheads * StartOf(sq, b)) / LenOf(sq, b) && s == (k - sq.nheads * StartOf(sq, b)) % LenOf(sq, b)
  {
    StartNext(sq, b);
    Scale(sq.nheads, StartOf(sq, b), LenOf(sq, b));
    var rest, len := k - sq.nheads * StartOf(sq, b), LenOf(sq, b);
    assert len == 0 ==> sq.nheads * len == 0;
    QuotientBelow(rest, len, sq.nheads);
    n, s := rest / len, rest % len;
  }
}
