/** What a parallel step stores: a set of (address, value) cells, everything else unchanged. */
module CombineCells {

  datatype Cell<T> = Cell(at: int, val: T)

  ghost predicate Touches<T(!new)>(cells: iset<Cell<T>>, x: int) {
    exists c :: c in cells && c.at == x
  }

  ghost predicate Stored<T(!new)>(before: seq<T>, after: seq<T>, cells: iset<Cell<T>>) {
    && |after| == |before|
    && (forall c :: c in cells ==> 0 <= c.at < |after| && after[c.at] == c.val)
    && (forall x :: 0 <= x < |after| && !Touches(cells, x) ==> after[x] == before[x])
  }

  /** No address is in both. */
  ghost predicate Separate<T(!new)>(a: iset<Cell<T>>, b: iset<Cell<T>>) {
    forall c, d :: c in a && d in b ==> c.at != d.at
  }

  lemma StoredNothing<T(!new)>(before: seq<T>)
    ensures Stored(before, before, iset{})
  {
  }

  /** Separate stores compose, in any order. */
  lemma StoredBoth<T(!new)>(before: seq<T>, mid: seq<T>, after: seq<T>, a: iset<Cell<T>>, b: iset<Cell<T>>)
    requires Stored(before, mid, a) && Stored(mid, after, b) && Separate(a, b)
    ensures Stored(before, after, a + b)
  {
    forall c | c in a
      ensures 0 <= c.at < |after| && after[c.at] == c.val
    {
      assert !Touches(b, c.at);
    }
    forall x | 0 <= x < |after| && !Touches(a + b, x)
      ensures after[x] == before[x]
    {
      NotTouched(a, b, x);
    }
  }

  lemma NotTouched<T(!new)>(a: iset<Cell<T>>, b: iset<Cell<T>>, x: int)
    requires !Touches(a + b, x)
    ensures !Touches(a, x) && !Touches(b, x)
  {
    forall c | c in a || c in b
      ensures c.at != x
    {
      assert c in a + b;
    }
  }

  lemma StoredOne<T(!new)>(before: seq<T>, x: int, v: T)
    requires 0 <= x < |before|
    ensures Stored(before, before[x := v], iset{Cell(x, v)})
  {
    var cells := iset{Cell(x, v)};
    assert Cell(x, v) in cells;
    assert Touches(cells, x);
  }

  /** The cells of a set of parallel steps, the p-th storing f(p). */
  ghost function UnionOf<T(!new)>(f: int -> iset<Cell<T>>, steps: set<int>): iset<Cell<T>> {
    iset p, c | p in steps && c in f(p) :: c
  }

  /** Different steps below n store to different addresses. */
  ghost predicate AllSeparate<T(!new)>(f: int -> iset<Cell<T>>, n: int) {
    forall p, q :: 0 <= p < n && 0 <= q < n && p != q ==> Separate(f(p), f(q))
  }

  /** One more step. */
  lemma StoredStep<T(!new)>(f: int -> iset<Cell<T>>, n: int, steps: set<int>, p: int, before: seq<T>, mid: seq<T>, after: seq<T>)
    requires AllSeparate(f, n) && (forall q :: q in steps ==> 0 <= q < n) && 0 <= p < n && p !in steps
    requires Stored(before, mid, UnionOf(f, steps)) && Stored(mid, after, f(p))
    ensures Stored(before, after, UnionOf(f, steps + {p}))
  {
    var all := UnionOf(f, steps + {p});
    UnionStep(f, steps, p);
    forall c, d | c in UnionOf(f, steps) && d in f(p)
      ensures c.at != d.at
    {
      var q :| q in steps && c in f(q);
      assert Separate(f(q), f(p));
    }
    hide UnionOf, Stored, AllSeparate;
    StoredBoth(before, mid, after, UnionOf(f, steps), f(p));
  }

  lemma UnionStep<T(!new)>(f: int -> iset<Cell<T>>, steps: set<int>, p: int)
    ensures UnionOf(f, steps + {p}) == UnionOf(f, steps) + f(p)
  {
    forall c
      ensures c in UnionOf(f, steps + {p}) <==> c in UnionOf(f, steps) + f(p)
    {
      if c in f(p) {
        assert p in steps + {p};
      }
      if c in UnionOf(f, steps) {
        var q :| q in steps && c in f(q);
        assert q in steps + {p};
      }
    }
  }

  lemma UnionNone<T(!new)>(f: int -> iset<Cell<T>>)
    ensures UnionOf(f, {}) == iset{}
  {
  }
}
