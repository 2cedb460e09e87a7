/** The sort-based transpose of `block_sparsity.py`: edges are keyed by their output list,
    sorted stably, counted, ranked inside their list and scattered. */
module SparseTranspose {
  import opened Arith
  import opened SparseLists
  import opened StableSort

  /** Counts and indices of `groups * rows` lists, each stored in `width` slots of which the
      first `cnt` are live. */
  datatype Pair = Pair(cnt: seq<int>, idx: seq<int>, groups: nat, rows: nat, width: nat)

  ghost predicate Sized(p: Pair) {
    && |p.cnt| == p.groups * p.rows && |p.idx| == p.groups * p.rows * p.width
    && forall r :: 0 <= r < |p.cnt| ==> 0 <= p.cnt[r] <= p.width
  }

  lemma SlotIn(p: Pair, r: int, j: int)
    requires Sized(p) && 0 <= r < |p.cnt| && 0 <= j < p.width
    ensures 0 <= r * p.width && r * p.width + j < r * p.width + p.width <= |p.idx|
    ensures (r * p.width + j) / p.width == r && (r * p.width + j) % p.width == j
  {
    RowFits(|p.cnt|, p.width, r);
    assert (r + 1) * p.width == r * p.width + p.width;
    DivideBetween(r * p.width + j, p.width, r);
  }

  /** The live entries of list r. */
  ghost function ListOf(p: Pair, r: int): (list: seq<int>)
    requires Sized(p) && 0 <= r < |p.cnt|
    ensures |list| == p.cnt[r]
  {
    if p.cnt[r] > 0 then SlotIn(p, r, p.cnt[r] - 1); p.idx[r * p.width..r * p.width + p.cnt[r]] else []
  }

  ghost function ListsOf(p: Pair): (lists: seq<seq<int>>)
    requires Sized(p)
    ensures |lists| == p.groups * p.rows && forall r :: 0 <= r < |lists| ==> lists[r] == ListOf(p, r)
  {
    seq(|p.cnt|, r requires 0 <= r < |p.cnt| => ListOf(p, r))
  }

  lemma ListEntry(p: Pair, r: int, j: int)
    requires Sized(p) && 0 <= r < |p.cnt| && 0 <= j < p.cnt[r]
    ensures 0 <= r * p.width + j < |p.idx| && ListOf(p, r)[j] == p.idx[r * p.width + j]
  {
    SlotIn(p, r, j);
  }

  /* Keys. */

  /** The output list an edge belongs to, or `groups * cols` for a dead slot. */
  function KeyOf(p: Pair, cols: nat, e: int): int
    requires p.width > 0 && p.rows > 0 && 0 <= e < |p.idx| && e / p.width < |p.cnt|
  {
    if e % p.width < p.cnt[e / p.width] then e / p.width / p.rows * cols + p.idx[e] else p.groups * cols
  }

  lemma EdgeRow(p: Pair, e: int)
    requires Sized(p) && p.width > 0 && 0 <= e < |p.idx|
    ensures 0 <= e / p.width < |p.cnt| && 0 <= e % p.width < p.width && e == e / p.width * p.width + e % p.width
  {
    QuotientBelow(e, p.width, |p.cnt|);
  }

  ghost predicate AreKeys(p: Pair, cols: nat, keys: seq<int>)
    requires Sized(p) && p.width > 0 && p.rows > 0
  {
    |keys| == |p.idx| && forall e :: 0 <= e < |keys| ==> EdgeKey(p, cols, keys, e)
  }

  ghost predicate EdgeKey(p: Pair, cols: nat, keys: seq<int>, e: int)
    requires Sized(p) && p.width > 0 && p.rows > 0 && |keys| == |p.idx| && 0 <= e < |keys|
  {
    EdgeRow(p, e);
    keys[e] == KeyOf(p, cols, e)
  }

  method MakeKeys(p: Pair, cols: nat) returns (keys: seq<int>)
    requires Sized(p) && p.width > 0 && p.rows > 0
    ensures AreKeys(p, cols, keys)
  {
    forall e | 0 <= e < |p.idx|
      ensures 0 <= e / p.width < |p.cnt|
    {
      EdgeRow(p, e);
    }
    hide Sized;
    keys := seq(|p.idx|, e requires 0 <= e < |p.idx| => KeyOf(p, cols, e));
  }

  /** A live edge of list (g, c): a slot of a row of group g that names column c. */
  ghost predicate IsEdge(p: Pair, g: int, c: int, e: int)
    requires Sized(p) && p.width > 0 && p.rows > 0 && 0 <= e < |p.idx|
  {
    EdgeRow(p, e);
    e % p.width < p.cnt[e / p.width] && e / p.width / p.rows == g && p.idx[e] == c
  }

  lemma KeyIsEdge(p: Pair, cols: nat, keys: seq<int>, g: int, c: int, e: int)
    requires Sized(p) && p.width > 0 && p.rows > 0 && AreKeys(p, cols, keys) && Table(ListsOf(p), p.groups, p.rows, cols)
    requires 0 <= g < p.groups && 0 <= c < cols && 0 <= e < |keys|
    ensures keys[e] == g * cols + c <==> IsEdge(p, g, c, e)
  {
    EdgeRow(p, e);
    assert EdgeKey(p, cols, keys, e);
    var r, j := e / p.width, e % p.width;
    if j < p.cnt[r] {
      ListEntry(p, r, j);
      assert InRange(ListsOf(p)[r], cols);
      assert 0 <= p.idx[e] < cols;
      SameDigits(r / p.rows, p.idx[e], g, c, cols);
    } else {
      KeyBelow(p.groups, cols, g, c);
    }
  }

  lemma SameDigits(a: int, x: int, b: int, y: int, n: int)
    requires 0 <= x < n && 0 <= y < n
    ensures a * n + x == b * n + y <==> a == b && x == y
  {
    if a * n + x == b * n + y {
      assert (a + 1) * n == a * n + n && (b + 1) * n == b * n + n;
      DivideBetween(a * n + x, n, a);
      DivideBetween(b * n + y, n, b);
    }
  }

  lemma KeyBelow(groups: int, cols: int, g: int, c: int)
    requires 0 <= g < groups && 0 <= c < cols
    ensures 0 <= g * cols + c < groups * cols
  {
    RowFits(groups, cols, g);
  }

  lemma KeyRange(p: Pair, cols: nat, keys: seq<int>, e: int)
    requires Sized(p) && p.width > 0 && p.rows > 0 && AreKeys(p, cols, keys) && Table(ListsOf(p), p.groups, p.rows, cols)
    requires 0 <= e < |keys|
    ensures 0 <= keys[e] <= p.groups * cols
  {
    EdgeRow(p, e);
    assert EdgeKey(p, cols, keys, e);
    var r, j := e / p.width, e % p.width;
    MulMono(0, p.groups, cols);
    if j < p.cnt[r] {
      ListEntry(p, r, j);
      assert InRange(ListsOf(p)[r], cols);
      QuotientBelow(r, p.rows, p.groups);
      KeyBelow(p.groups, cols, r / p.rows, p.idx[e]);
    }
  }

  /* The sorted edges. */

  /** The keys in sorted order. */
  ghost predicate SortedKeys(keys: seq<int>, order: seq<int>, sorted: seq<int>) {
    && StableOrder(keys, order, |keys|) && |sorted| == |order|
    && forall i :: 0 <= i < |order| ==> KeyAt(keys, order, sorted, i)
  }

  ghost predicate KeyAt(keys: seq<int>, order: seq<int>, sorted: seq<int>, i: int)
    requires 0 <= i < |order| && i < |sorted|
  {
    0 <= order[i] < |keys| && sorted[i] == keys[order[i]]
  }

  lemma SortedNondecreasing(keys: seq<int>, order: seq<int>, sorted: seq<int>)
    requires SortedKeys(keys, order, sorted)
    ensures Nondecreasing(sorted)
  {
    forall i, j | 0 <= i <= j < |sorted|
      ensures sorted[i] <= sorted[j]
    {
      assert KeyAt(keys, order, sorted, i) && KeyAt(keys, order, sorted, j);
      assert i < j ==> Sooner(keys, order[i], order[j]);
    }
  }

  /** The edges of list c are the stretch of the sorted edges between the prefix counts. */
  lemma StretchOf(sorted: seq<int>, c: int)
    requires Nondecreasing(sorted)
    ensures 0 <= CountLess(sorted, c) <= CountLess(sorted, c) + Count(sorted, c) <= |sorted|
    ensures forall i :: 0 <= i < |sorted| ==> (sorted[i] == c <==> CountLess(sorted, c) <= i < CountLess(sorted, c) + Count(sorted, c))
  {
    CountLessNext(sorted, c);
    CountLessSplits(sorted, c);
    CountLessSplits(sorted, c + 1);
    CountLessBounds(sorted, c + 1);
  }

  /* What a list receives. */

  ghost predicate Prepared(p: Pair, cols: nat, keys: seq<int>, order: seq<int>, sorted: seq<int>) {
    && Sized(p) && p.width > 0 && p.rows > 0 && Table(ListsOf(p), p.groups, p.rows, cols)
    && AreKeys(p, cols, keys) && SortedKeys(keys, order, sorted)
  }

  /** The row, inside its group, of the i-th sorted edge. */
  function ValueAt(p: Pair, order: seq<int>, i: int): int
    requires p.width > 0 && p.rows > 0 && 0 <= i < |order|
  {
    order[i] / p.width % p.rows
  }

  lemma SortedEdge(p: Pair, cols: nat, keys: seq<int>, order: seq<int>, sorted: seq<int>, g: int, c: int, i: int)
    requires Prepared(p, cols, keys, order, sorted) && 0 <= g < p.groups && 0 <= c < cols
    requires 0 <= i < |sorted| && sorted[i] == g * cols + c
    ensures 0 <= order[i] < |p.idx| && IsEdge(p, g, c, order[i])
    ensures 0 <= ValueAt(p, order, i) < p.rows && order[i] / p.width == g * p.rows + ValueAt(p, order, i)
  {
    assert KeyAt(keys, order, sorted, i);
    KeyIsEdge(p, cols, keys, g, c, order[i]);
    EdgeRow(p, order[i]);
    hide AreKeys, SortedKeys, Table, ListsOf, KeyOf;
    QuotientBelow(order[i] / p.width, p.rows, p.groups);
  }

  /** Two edges of one list come from different rows, in the order of the sort. */
  lemma EdgesAscend(p: Pair, cols: nat, keys: seq<int>, order: seq<int>, sorted: seq<int>, g: int, c: int, i: int, j: int)
    requires Prepared(p, cols, keys, order, sorted) && 0 <= g < p.groups && 0 <= c < cols
    requires 0 <= i < j < |sorted| && sorted[i] == g * cols + c == sorted[j]
    ensures ValueAt(p, order, i) < ValueAt(p, order, j)
  {
    SortedEdge(p, cols, keys, order, sorted, g, c, i);
    SortedEdge(p, cols, keys, order, sorted, g, c, j);
    var e, f := order[i], order[j];
    assert e < f by {
      assert KeyAt(keys, order, sorted, i) && KeyAt(keys, order, sorted, j);
      assert Sooner(keys, e, f);
    }
    EdgeRow(p, e);
    EdgeRow(p, f);
    if e / p.width == f / p.width {
      SameRowTwice(p, cols, g, c, e, f);
    } else {
      hide Prepared, IsEdge;
      LaterRow(e, f, p.width);
    }
  }

  lemma LaterRow(e: int, f: int, width: int)
    requires 0 <= e < f && width > 0 && e / width != f / width
    ensures e / width < f / width
  {
    assert e == e / width * width + e % width && f == f / width * width + f % width;
    assert (f / width + 1) * width == f / width * width + width;
    MulLess(e / width, f / width + 1, width);
  }

  /** A row names a column once. */
  lemma SameRowTwice(p: Pair, cols: nat, g: int, c: int, e: int, f: int)
    requires Sized(p) && p.width > 0 && p.rows > 0 && Table(ListsOf(p), p.groups, p.rows, cols)
    requires 0 <= e < f < |p.idx| && IsEdge(p, g, c, e) && IsEdge(p, g, c, f)
    ensures e / p.width != f / p.width
  {
    EdgeRow(p, e);
    EdgeRow(p, f);
    var r := e / p.width;
    assert Distinct(ListsOf(p)[r]);
    ListEntry(p, r, e % p.width);
    if r == f / p.width {
      ListEntry(p, r, f % p.width);
    }
  }

  /** The list (g, c): the rows of its edges, in sorted order. */
  ghost function Gathered(p: Pair, order: seq<int>, sorted: seq<int>, key: int): (list: seq<int>)
    requires p.width > 0 && p.rows > 0 && |sorted| == |order| && Nondecreasing(sorted)
    ensures |list| == Count(sorted, key)
    ensures forall k :: 0 <= k < |list| ==>
                          0 <= CountLess(sorted, key) + k < |order| && list[k] == ValueAt(p, order, CountLess(sorted, key) + k)
  {
    StretchOf(sorted, key);
    seq(Count(sorted, key), k requires 0 <= k < Count(sorted, key) => ValueAt(p, order, CountLess(sorted, key) + k))
  }

  lemma GatheredMember(p: Pair, cols: nat, keys: seq<int>, order: seq<int>, sorted: seq<int>, g: int, c: int, r: int)
    requires Prepared(p, cols, keys, order, sorted) && 0 <= g < p.groups && 0 <= c < cols && Nondecreasing(sorted)
    requires 0 <= r < p.rows && 0 <= g * p.rows + r < |p.cnt|
    requires c in ListOf(p, g * p.rows + r)
    ensures r in Gathered(p, order, sorted, g * cols + c)
  {
    var row, key := g * p.rows + r, g * cols + c;
    var j :| 0 <= j < p.cnt[row] && ListOf(p, row)[j] == c;
    ListEntry(p, row, j);
    SlotIn(p, row, j);
    var e := row * p.width + j;
    assert (g + 1) * p.rows == g * p.rows + p.rows;
    DivideBetween(row, p.rows, g);
    assert IsEdge(p, g, c, e);
    KeyIsEdge(p, cols, keys, g, c, e);
    assert e in order;
    var i :| 0 <= i < |order| && order[i] == e;
    assert KeyAt(keys, order, sorted, i);
    StretchOf(sorted, key);
    var k := i - CountLess(sorted, key);
    assert Gathered(p, order, sorted, key)[k] == ValueAt(p, order, i) == r;
  }

  lemma GatheredIsAscending(p: Pair, cols: nat, keys: seq<int>, order: seq<int>, sorted: seq<int>, g: int, c: int)
    requires Prepared(p, cols, keys, order, sorted) && 0 <= g < p.groups && 0 <= c < cols && Nondecreasing(sorted)
    ensures var list := Gathered(p, order, sorted, g * cols + c);
            Ascending(list) && InRange(list, p.rows)
  {
    var key := g * cols + c;
    var lo, list := CountLess(sorted, key), Gathered(p, order, sorted, key);
    StretchOf(sorted, key);
    hide Prepared, ValueAt, Count, CountLess, Gathered, Nondecreasing;
    forall i | 0 <= i < |list|
      ensures 0 <= list[i] < p.rows
    {
      SortedEdge(p, cols, keys, order, sorted, g, c, lo + i);
    }
    forall i, j | 0 <= i < j < |list|
      ensures list[i] < list[j]
    {
      EdgesAscend(p, cols, keys, order, sorted, g, c, lo + i, lo + j);
    }
  }

  lemma GatheredOnly(p: Pair, cols: nat, keys: seq<int>, order: seq<int>, sorted: seq<int>, g: int, c: int, r: int)
    requires Prepared(p, cols, keys, order, sorted) && 0 <= g < p.groups && 0 <= c < cols && Nondecreasing(sorted)
    requires r in Gathered(p, order, sorted, g * cols + c)
    ensures 0 <= r < p.rows && 0 <= g * p.rows + r < |p.cnt| && c in ListOf(p, g * p.rows + r)
  {
    var key := g * cols + c;
    var lo, list := CountLess(sorted, key), Gathered(p, order, sorted, key);
    StretchOf(sorted, key);
    var k :| 0 <= k < |list| && list[k] == r;
    SortedEdge(p, cols, keys, order, sorted, g, c, lo + k);
    var e := order[lo + k];
    EdgeRow(p, e);
    ListEntry(p, e / p.width, e % p.width);
    assert ListOf(p, e / p.width)[e % p.width] == c;
  }

  /** The sorted edges of list (g, c) name exactly the rows whose list holds c. */
  lemma GatheredIsRowsWith(p: Pair, cols: nat, keys: seq<int>, order: seq<int>, sorted: seq<int>, g: int, c: int)
    requires Prepared(p, cols, keys, order, sorted) && 0 <= g < p.groups && 0 <= c < cols && Nondecreasing(sorted)
    ensures 0 <= g * p.rows && g * p.rows + p.rows <= |ListsOf(p)|
    ensures Gathered(p, order, sorted, g * cols + c) == RowsWith(ListsOf(p), p.rows, g, c, p.rows)
  {
    RowFits(p.groups, p.rows, g);
    var list, rows := Gathered(p, order, sorted, g * cols + c), RowsWith(ListsOf(p), p.rows, g, c, p.rows);
    hide Gathered, RowsWith, ListOf, Nondecreasing, Ascending, InRange;
    GatheredIsAscending(p, cols, keys, order, sorted, g, c);
    forall r
      ensures r in list <==> r in rows
    {
      if r in list { GatheredOnly(p, cols, keys, order, sorted, g, c, r); }
      if r in rows { GatheredMember(p, cols, keys, order, sorted, g, c, r); }
    }
    hide Prepared, Gathered, RowsWith, ListsOf;
    AscendingUnique(list, rows);
  }

  /* Scattering the rows to the output lists. */

  /** Counts and starts of the output lists, none longer than `rows`. */
  ghost predicate Listed(sorted: seq<int>, counts: seq<int>, start: seq<int>, rows: nat) {
    && Nondecreasing(sorted) && |start| == |counts|
    && (forall i :: 0 <= i < |sorted| ==> 0 <= sorted[i] <= |counts|)
    && (forall c :: 0 <= c < |counts| ==> 0 <= counts[c] == Count(sorted, c) <= rows && start[c] == CountLess(sorted, c))
  }

  /** Entry x of the flat output once the first i sorted edges are scattered. */
  ghost function Expected(p: Pair, order: seq<int>, counts: seq<int>, start: seq<int>, x: int, i: int): int
    requires p.width > 0 && p.rows > 0 && 0 <= x && x / p.rows < |counts| == |start|
  {
    var at := start[x / p.rows] + x % p.rows;
    if x % p.rows < counts[x / p.rows] && at < i && 0 <= at < |order| then ValueAt(p, order, at) else 0
  }

  lemma SlotBelow(x: int, rows: int, lists: int)
    requires 0 <= x < lists * rows && rows > 0
    ensures 0 <= x / rows < lists && 0 <= x % rows < rows && x == x / rows * rows + x % rows
  {
    QuotientBelow(x, rows, lists);
  }

  /** A live edge is scattered to a slot of its own inside its list. */
  lemma LiveTarget(p: Pair, order: seq<int>, sorted: seq<int>, counts: seq<int>, start: seq<int>, i: int)
    requires p.width > 0 && p.rows > 0 && |sorted| == |order| && Listed(sorted, counts, start, p.rows)
    requires 0 <= i < |order| && sorted[i] < |counts|
    ensures var rank := i - start[sorted[i]]; var target := sorted[i] * p.rows + rank;
            && 0 <= rank < counts[sorted[i]] && 0 <= target < |counts| * p.rows
            && target / p.rows == sorted[i] && target % p.rows == rank
  {
    var c := sorted[i];
    StretchOf(sorted, c);
    hide Count, CountLess, Nondecreasing;
    RowFits(|counts|, p.rows, c);
    assert (c + 1) * p.rows == c * p.rows + p.rows;
    DivideBetween(c * p.rows + (i - start[c]), p.rows, c);
  }

  lemma OtherSlot(p: Pair, order: seq<int>, sorted: seq<int>, counts: seq<int>, start: seq<int>, i: int, x: int)
    requires p.width > 0 && p.rows > 0 && |sorted| == |order| && Listed(sorted, counts, start, p.rows)
    requires 0 <= i < |order| && 0 <= x < |counts| * p.rows
    requires sorted[i] < |counts| ==> x != sorted[i] * p.rows + (i - start[sorted[i]])
    ensures x / p.rows < |counts|
    ensures Expected(p, order, counts, start, x, i + 1) == Expected(p, order, counts, start, x, i)
  {
    SlotBelow(x, p.rows, |counts|);
    StretchOf(sorted, x / p.rows);
    hide Count, CountLess, Nondecreasing, ValueAt;
  }

  lemma NothingExpected(p: Pair, order: seq<int>, sorted: seq<int>, counts: seq<int>, start: seq<int>, x: int)
    requires p.width > 0 && p.rows > 0 && |sorted| == |order| && Listed(sorted, counts, start, p.rows)
    requires 0 <= x < |counts| * p.rows
    ensures x / p.rows < |counts| && Expected(p, order, counts, start, x, 0) == 0
  {
    SlotBelow(x, p.rows, |counts|);
  }

  /** Write every edge's row to its rank inside its list; dead slots go to one place behind
      the live output and write a zero there. */
  method Scatter(p: Pair, order: seq<int>, sorted: seq<int>, counts: seq<int>, start: seq<int>) returns (flat: array<int>)
    requires p.width > 0 && p.rows > 0 && |counts| > 0 && |sorted| == |order| && Listed(sorted, counts, start, p.rows)
    requires |counts| * p.rows >= 0
    ensures flat.Length == |counts| * p.rows + 1
    ensures forall x :: 0 <= x < |counts| * p.rows ==>
                          x / p.rows < |counts| && flat[x] == Expected(p, order, counts, start, x, |order|)
  {
    var numel := |counts| * p.rows;
    flat := new int[numel + 1](_ => 0);
    forall x | 0 <= x < numel
      ensures x / p.rows < |counts| && flat[x] == Expected(p, order, counts, start, x, 0)
    {
      NothingExpected(p, order, sorted, counts, start, x);
    }
    hide Expected;
    for i := 0 to |order|
      invariant forall x :: 0 <= x < numel ==>
                              x / p.rows < |counts| && flat[x] == Expected(p, order, counts, start, x, i)
    {
      ScatterOne(p, order, sorted, counts, start, flat, i);
    }
  }

  method ScatterOne(p: Pair, order: seq<int>, sorted: seq<int>, counts: seq<int>, start: seq<int>, flat: array<int>, i: int)
    requires p.width > 0 && p.rows > 0 && |counts| > 0 && |sorted| == |order| && Listed(sorted, counts, start, p.rows)
    requires 0 <= i < |order| && |counts| * p.rows >= 0 && flat.Length == |counts| * p.rows + 1
    requires forall x :: 0 <= x < |counts| * p.rows ==>
                           x / p.rows < |counts| && flat[x] == Expected(p, order, counts, start, x, i)
    modifies flat
    ensures forall x :: 0 <= x < |counts| * p.rows ==>
                          x / p.rows < |counts| && flat[x] == Expected(p, order, counts, start, x, i + 1)
  {
    var numel := |counts| * p.rows;
    var inRange := sorted[i] < |counts|;
    var safe := if inRange then sorted[i] else |counts| - 1;
    assert 0 <= safe < |counts|;
    var rank := i - start[safe];
    var target := if inRange then safe * p.rows + rank else numel;
    var value := if inRange then ValueAt(p, order, i) else 0;
    if inRange { LiveTarget(p, order, sorted, counts, start, i); }
    assert inRange ==> Expected(p, order, counts, start, target, i + 1) == value;
    forall x | 0 <= x < numel && x != target
      ensures x / p.rows < |counts|
      ensures Expected(p, order, counts, start, x, i + 1) == Expected(p, order, counts, start, x, i)
    {
      OtherSlot(p, order, sorted, counts, start, i, x);
    }
    hide Expected, Listed, ValueAt;
    flat[target] := value;
  }

  /* The whole transpose. */

  /** Slots behind the live entries hold zeros. */
  ghost predicate ZeroFilled(p: Pair)
    requires Sized(p)
  {
    forall r, j :: 0 <= r < |p.cnt| && p.cnt[r] <= j < p.width ==> SlotIs(p, r, j, 0)
  }

  ghost predicate SlotIs(p: Pair, r: int, j: int, x: int)
    requires Sized(p) && 0 <= r < |p.cnt| && 0 <= j < p.width
  {
    SlotIn(p, r, j);
    p.idx[r * p.width + j] == x
  }

  /** What the transpose promises of its output. */
  ghost predicate IsTranspose(p: Pair, cols: nat, out: Pair)
    requires Sized(p)
  {
    && out.groups == p.groups && out.rows == cols && out.width == AtLeast1(p.rows)
    && Sized(out) && ZeroFilled(out)
    && ListsOf(out) == Transposed(ListsOf(p), p.groups, p.rows, cols)
  }

  /** Without any slot all output lists are empty. */
  lemma EmptyTranspose(p: Pair, cols: nat, out: Pair)
    requires Sized(p) && (p.width == 0 || |p.idx| == 0) && p.groups * cols >= 0
    requires p.groups * cols * AtLeast1(p.rows) >= 0
    requires out == Pair(seq(p.groups * cols, _ => 0), seq(p.groups * cols * AtLeast1(p.rows), _ => 0), p.groups, cols, AtLeast1(p.rows))
    ensures IsTranspose(p, cols, out)
  {
    assert Sized(out);
    var t := Transposed(ListsOf(p), p.groups, p.rows, cols);
    NoEntries(p);
    forall k | 0 <= k < |t|
      ensures t[k] == []
    {
      QuotientBelow(k, cols, p.groups);
      EmptyColumn(p, cols, k);
    }
    hide Transposed;
    assert ListsOf(out) == t;
    forall r, j | 0 <= r < |out.cnt| && out.cnt[r] <= j < out.width
      ensures SlotIs(out, r, j, 0)
    {
      SlotIn(out, r, j);
    }
  }

  lemma NoEntries(p: Pair)
    requires Sized(p) && (p.width == 0 || |p.idx| == 0)
    ensures forall r :: 0 <= r < |p.cnt| ==> p.cnt[r] == 0
  {
    forall r | 0 <= r < |p.cnt|
      ensures p.cnt[r] == 0
    {
      if p.width > 0 { SlotIn(p, r, 0); }
    }
  }

  lemma HasMember(list: seq<int>)
    requires list != []
    ensures list[0] in list
  {
  }

  lemma EmptyColumn(p: Pair, cols: nat, k: int)
    requires Sized(p) && 0 <= k < p.groups * cols && forall r :: 0 <= r < |p.cnt| ==> p.cnt[r] == 0
    ensures Transposed(ListsOf(p), p.groups, p.rows, cols)[k] == []
  {
    QuotientBelow(k, cols, p.groups);
    TransposedAt(ListsOf(p), p.groups, p.rows, cols, k / cols, k % cols);
    var list := RowsWith(ListsOf(p), p.rows, k / cols, k % cols, p.rows);
    hide Transposed, RowsWith;
    if list != [] { HasMember(list); }
  }

  ghost predicate IsScattered(p: Pair, order: seq<int>, counts: seq<int>, start: seq<int>, out: Pair)
    requires p.width > 0 && p.rows > 0 && |start| == |counts|
  {
    forall x :: 0 <= x < |out.idx| ==> 0 <= x / p.rows < |counts| && out.idx[x] == Expected(p, order, counts, start, x, |order|)
  }

  lemma ScatteredSlot(p: Pair, order: seq<int>, sorted: seq<int>, counts: seq<int>, start: seq<int>, out: Pair, key: int, j: int)
    requires p.width > 0 && p.rows > 0 && |sorted| == |order| && Listed(sorted, counts, start, p.rows)
    requires Sized(out) && out.cnt == counts && out.width == p.rows && 0 <= key < |counts| && 0 <= j < p.rows
    requires |start| == |counts| && IsScattered(p, order, counts, start, out)
    ensures |Gathered(p, order, sorted, key)| == counts[key]
    ensures SlotIs(out, key, j, if j < counts[key] then Gathered(p, order, sorted, key)[j] else 0)
  {
    StretchOf(sorted, key);
    SlotIn(out, key, j);
    var x := key * p.rows + j;
    assert out.idx[x] == Expected(p, order, counts, start, x, |order|);
    hide Count, CountLess, ValueAt, Nondecreasing, Sized;
  }

  /** The scattered output holds the gathered lists. */
  lemma ScatteredLists(p: Pair, order: seq<int>, sorted: seq<int>, counts: seq<int>, start: seq<int>, out: Pair, key: int)
    requires p.width > 0 && p.rows > 0 && |sorted| == |order| && Listed(sorted, counts, start, p.rows) && Nondecreasing(sorted)
    requires Sized(out) && out.cnt == counts && out.width == p.rows && 0 <= key < |counts|
    requires |start| == |counts| && IsScattered(p, order, counts, start, out)
    ensures ListOf(out, key) == Gathered(p, order, sorted, key)
    ensures forall j :: counts[key] <= j < p.rows && j >= 0 ==> SlotIs(out, key, j, 0)
  {
    CountIn(out, key);
    hide *;
    var list := Gathered(p, order, sorted, key);
    ScatteredSlot(p, order, sorted, counts, start, out, key, 0);
    forall j | 0 <= j < p.rows
      ensures j >= counts[key] ==> SlotIs(out, key, j, 0)
      ensures j < counts[key] ==> ListOf(out, key)[j] == list[j]
    {
      ScatteredSlot(p, order, sorted, counts, start, out, key, j);
      if j < counts[key] { SlotEntry(out, key, j, list[j]); }
    }
  }

  lemma CountIn(p: Pair, r: int)
    requires Sized(p) && 0 <= r < |p.cnt|
    ensures 0 <= p.cnt[r] <= p.width
  {
  }

  lemma SlotEntry(p: Pair, r: int, j: int, x: int)
    requires Sized(p) && 0 <= r < |p.cnt| && 0 <= j < p.cnt[r] <= p.width && SlotIs(p, r, j, x)
    ensures ListOf(p, r)[j] == x
  {
    ListEntry(p, r, j);
  }

  lemma ScatteredIsTranspose(p: Pair, cols: nat, keys: seq<int>, order: seq<int>, sorted: seq<int>, counts: seq<int>, start: seq<int>, out: Pair)
    requires Prepared(p, cols, keys, order, sorted) && |sorted| == |order| && Listed(sorted, counts, start, p.rows) && Nondecreasing(sorted)
    requires Sized(out) && out.cnt == counts && out.width == p.rows && out.groups == p.groups && out.rows == cols
    requires p.width > 0 && p.rows > 0 && Sized(p)
    requires |start| == |counts| && IsScattered(p, order, counts, start, out)
    ensures IsTranspose(p, cols, out)
  {
    var t := Transposed(ListsOf(p), p.groups, p.rows, cols);
    assert |out.cnt| == p.groups * cols;
    hide Prepared, Listed, Nondecreasing, Expected, Transposed, Gathered, ListOf, SlotIs, IsScattered;
    forall key | 0 <= key < |out.cnt|
      ensures ListOf(out, key) == t[key]
      ensures forall j :: counts[key] <= j < p.rows && j >= 0 ==> SlotIs(out, key, j, 0)
    {
      QuotientBelow(key, cols, p.groups);
      ScatteredLists(p, order, sorted, counts, start, out, key);
      GatheredIsRowsWith(p, cols, keys, order, sorted, key / cols, key % cols);
      TransposedAt(ListsOf(p), p.groups, p.rows, cols, key / cols, key % cols);
    }
    hide Sized;
    assert ListsOf(out) == t;
  }

  /** The steps between sorting and scattering. */
  method CountEdges(p: Pair, cols: nat, keys: seq<int>, order: seq<int>) returns (sorted: seq<int>, counts: seq<int>, start: seq<int>)
    requires Sized(p) && p.width > 0 && p.rows > 0 && Table(ListsOf(p), p.groups, p.rows, cols) && p.groups * cols > 0
    requires AreKeys(p, cols, keys) && StableOrder(keys, order, |keys|)
    ensures Prepared(p, cols, keys, order, sorted) && |sorted| == |order| && Nondecreasing(sorted)
    ensures Listed(sorted, counts, start, p.rows) && |start| == |counts| == p.groups * cols && Sized(p)
  {
    hide Table, ListsOf, AreKeys, Sized;
    sorted := seq(|order|, i requires 0 <= i < |order| => keys[order[i]]);
    assert SortedKeys(keys, order, sorted);
    SortedNondecreasing(keys, order, sorted);
    forall i | 0 <= i < |sorted|
      ensures 0 <= sorted[i] <= p.groups * cols
    {
      KeyRange(p, cols, keys, order[i]);
    }
    hide *;
    assert Prepared(p, cols, keys, order, sorted) by { PreparedIs(p, cols, keys, order, sorted); }
    var countArray := ScatterAdd(sorted, p.groups * cols);
    counts := countArray[..];
    start := Starts(counts, sorted);
    forall key | 0 <= key < p.groups * cols
      ensures Count(sorted, key) <= p.rows
    {
      QuotientBelow(key, cols, p.groups);
      GatheredIsAscending(p, cols, keys, order, sorted, key / cols, key % cols);
      AscendingShort(Gathered(p, order, sorted, key), p.rows);
    }
    ListedIs(sorted, counts, start, p.rows);
  }

  lemma PreparedIs(p: Pair, cols: nat, keys: seq<int>, order: seq<int>, sorted: seq<int>)
    requires Sized(p) && p.width > 0 && p.rows > 0 && Table(ListsOf(p), p.groups, p.rows, cols)
    requires AreKeys(p, cols, keys) && SortedKeys(keys, order, sorted)
    ensures Prepared(p, cols, keys, order, sorted)
  {
  }

  lemma ListedIs(sorted: seq<int>, counts: seq<int>, start: seq<int>, rows: nat)
    requires Nondecreasing(sorted) && |start| == |counts|
    requires forall i :: 0 <= i < |sorted| ==> 0 <= sorted[i] <= |counts|
    requires forall c :: 0 <= c < |counts| ==> counts[c] == Count(sorted, c) <= rows && start[c] == CountLess(sorted, c)
    ensures Listed(sorted, counts, start, rows)
  {
    hide Count, CountLess;
  }

  /** Regroup the edges of `p` by their column. Output list (g, c) holds, in ascending order,
      exactly the rows of group g whose list names column c; unused slots are zero. */
  method TransposePair(p: Pair, cols: nat) returns (out: Pair)
    requires Sized(p) && Table(ListsOf(p), p.groups, p.rows, cols) && cols > 0
    ensures IsTranspose(p, cols, out)
  {
    hide *;
    Products(p, cols);
    if p.width == 0 || |p.idx| == 0 {
      out := Pair(seq(p.groups * cols, _ => 0), seq(p.groups * cols * AtLeast1(p.rows), _ => 0), p.groups, cols, AtLeast1(p.rows));
      EmptyTranspose(p, cols, out);
    } else {
      var keys := MakeKeys(p, cols);
      var order := StableArgsort(keys);
      var sorted, counts, start := CountEdges(p, cols, keys, order);
      var flat := Scatter(p, order, sorted, counts, start);
      out := Pair(counts, flat[..flat.Length - 1], p.groups, cols, p.rows);
      ScatteredSize(p, cols, counts, sorted, start, out);
      ScatteredIs(p, order, counts, start, out);
      ScatteredIsTranspose(p, cols, keys, order, sorted, counts, start, out);
    }
  }

  lemma Products(p: Pair, cols: nat)
    requires Sized(p) && cols > 0
    ensures p.groups * cols >= 0 && p.groups * cols * AtLeast1(p.rows) >= 0
    ensures p.width > 0 && |p.idx| > 0 ==> p.groups > 0 && p.rows > 0 && p.groups * cols > 0 && p.groups * cols * p.rows >= 0
  {
    MulMono(0, p.groups, cols);
    MulMono(0, p.groups * cols, AtLeast1(p.rows));
    MulMono(0, p.groups * cols, p.rows);
    if p.groups == 0 || p.rows == 0 {
      assert p.groups * p.rows == 0;
    } else {
      MulMono(1, p.groups, cols);
    }
  }

  lemma ScatteredSize(p: Pair, cols: nat, counts: seq<int>, sorted: seq<int>, start: seq<int>, out: Pair)
    requires p.rows > 0 && Listed(sorted, counts, start, p.rows) && |counts| == p.groups * cols
    requires out.cnt == counts && out.width == p.rows && out.groups == p.groups && out.rows == cols && |out.idx| == |counts| * p.rows
    ensures Sized(out)
  {
    hide Count, CountLess, Nondecreasing;
  }

  lemma ScatteredIs(p: Pair, order: seq<int>, counts: seq<int>, start: seq<int>, out: Pair)
    requires p.width > 0 && p.rows > 0 && |start| == |counts|
    requires forall x :: 0 <= x < |out.idx| ==> 0 <= x / p.rows < |counts| && out.idx[x] == Expected(p, order, counts, start, x, |order|)
    ensures IsScattered(p, order, counts, start, out)
  {
  }

  /* What callers of the transpose rely on. */

  /** Row r is in output list (g, c) if and only if c is in input list (g, r); output lists
      ascend; no entry is lost. */
  lemma TransposeMembers(p: Pair, cols: nat, out: Pair, g: int, c: int, r: int)
    requires Sized(p) && Table(ListsOf(p), p.groups, p.rows, cols) && IsTranspose(p, cols, out)
    requires 0 <= g < p.groups && 0 <= c < cols && 0 <= r < p.rows
    ensures 0 <= g * cols + c < |out.cnt| && 0 <= g * p.rows + r < |p.cnt|
    ensures r in ListOf(out, g * cols + c) <==> c in ListOf(p, g * p.rows + r)
    ensures Ascending(ListOf(out, g * cols + c)) && InRange(ListOf(out, g * cols + c), p.rows)
    ensures Edges(ListsOf(out)) == Edges(ListsOf(p))
  {
    var lists := ListsOf(p);
    TransposedMembers(lists, p.groups, p.rows, cols, g, c, r);
    EdgesKept(lists, p.groups, p.rows, cols);
    assert ListsOf(out)[g * cols + c] == ListOf(out, g * cols + c);
    hide Transposed, Table, ListOf, Edges;
  }

  /** Transposing back gives the original lists, each in ascending order. */
  lemma TransposeBack(p: Pair, cols: nat, out: Pair, back: Pair)
    requires Sized(p) && Table(ListsOf(p), p.groups, p.rows, cols) && IsTranspose(p, cols, out)
    requires Sized(out) && IsTranspose(out, p.rows, back)
    ensures Table(ListsOf(out), out.groups, out.rows, p.rows)
    ensures |back.cnt| == |p.cnt| && Sized(back)
    ensures forall r :: 0 <= r < |p.cnt| ==> SortedCopy(ListOf(p, r), ListOf(back, r))
  {
    var lists := ListsOf(p);
    TransposedTable(lists, p.groups, p.rows, cols);
    hide ListOf, SortedCopy, ZeroFilled;
    forall r | 0 <= r < |p.cnt|
      ensures SortedCopy(ListOf(p, r), ListOf(back, r))
    {
      BackRow(p, cols, out, back, r);
    }
  }

  lemma BackRow(p: Pair, cols: nat, out: Pair, back: Pair, r: int)
    requires Sized(p) && Table(ListsOf(p), p.groups, p.rows, cols) && IsTranspose(p, cols, out)
    requires Sized(out) && IsTranspose(out, p.rows, back) && 0 <= r < |p.cnt|
    ensures r < |back.cnt| && Sized(back) && SortedCopy(ListOf(p, r), ListOf(back, r))
  {
    RowsExist(p, r);
    QuotientBelow(r, p.rows, p.groups);
    TransposedTwice(ListsOf(p), p.groups, p.rows, cols, r / p.rows, r % p.rows);
    assert ListsOf(back)[r] == ListOf(back, r) && ListsOf(p)[r] == ListOf(p, r);
    hide Transposed, Table, ListOf, SortedCopy, ZeroFilled;
  }

  lemma RowsExist(p: Pair, r: int)
    requires Sized(p) && 0 <= r < |p.cnt|
    ensures p.rows >= 1 && r < p.groups * p.rows
  {
    assert p.rows == 0 ==> p.groups * p.rows == 0;
  }

  /** Widening the slots with zeros, as the kernel wants both index lists equally wide. */
  function PadIndices(p: Pair, width: nat): (out: Pair)
    requires width >= p.width && width > 0 && |p.idx| == |p.cnt| * p.width
  {
    Pair(p.cnt, seq(|p.cnt| * width, e requires 0 <= e < |p.cnt| * width =>
      QuotientBelow(e, width, |p.cnt|);
      RowFits(|p.cnt|, p.width, e / width);
      if e % width < p.width then p.idx[e / width * p.width + e % width] else 0), p.groups, p.rows, width)
  }

  lemma PaddedLists(p: Pair, width: nat)
    requires Sized(p) && width >= p.width && width > 0
    ensures Sized(PadIndices(p, width)) && ListsOf(PadIndices(p, width)) == ListsOf(p)
  {
    var out := PadIndices(p, width);
    assert Sized(out);
    forall r | 0 <= r < |p.cnt|
      ensures ListOf(out, r) == ListOf(p, r)
    {
      forall j | 0 <= j < p.cnt[r]
        ensures ListOf(out, r)[j] == ListOf(p, r)[j]
      {
        ListEntry(p, r, j);
        ListEntry(out, r, j);
        SlotIn(out, r, j);
      }
    }
  }
}
