/** Sparse row lists and their transpose: the specification that `_transpose_pair` of
    `block_sparsity.py` meets. A table has `groups` groups (batch and head) of `rows` lists;
    every list names columns below `cols`. */
module SparseLists {
  import opened Arith

  function AtLeast1(n: nat): nat { if n > 1 then n else 1 }

  /** The nearest number between 0 and `high`. */
  function Clamp(x: int, high: nat): (r: nat)
    ensures r <= high && (0 <= x <= high ==> r == x)
  {
    if x < 0 then 0 else if x > high then high else x
  }

  predicate Distinct(list: seq<int>) {
    forall i, j :: 0 <= i < j < |list| ==> list[i] != list[j]
  }

  predicate InRange(list: seq<int>, cols: int) {
    forall i :: 0 <= i < |list| ==> 0 <= list[i] < cols
  }

  predicate Ascending(list: seq<int>) {
    forall i, j :: 0 <= i < j < |list| ==> list[i] < list[j]
  }

  /** `groups * rows` lists of distinct columns. */
  ghost predicate Table(lists: seq<seq<int>>, groups: nat, rows: nat, cols: nat) {
    |lists| == groups * rows && forall r :: 0 <= r < |lists| ==> Distinct(lists[r]) && InRange(lists[r], cols)
  }

  /** Rows of a group, among its first n, whose list holds column c; ascending. */
  function RowsWith(lists: seq<seq<int>>, rows: nat, g: int, c: int, n: nat): (r: seq<int>)
    requires 0 <= g && 0 <= g * rows && g * rows + n <= |lists|
    ensures Ascending(r) && InRange(r, n)
    ensures forall k :: k in r <==> 0 <= k < n && c in lists[g * rows + k]
  {
    if n == 0 then []
    else
      var before := RowsWith(lists, rows, g, c, n - 1);
      if c in lists[g * rows + n - 1] then before + [n - 1] else before
  }

  /** The transposed table: list (g, c) holds the rows of group g that name column c. */
  function Transposed(lists: seq<seq<int>>, groups: nat, rows: nat, cols: nat): (t: seq<seq<int>>)
    requires |lists| == groups * rows
    ensures |t| == groups * cols
    ensures forall k :: 0 <= k < |t| ==> Ascending(t[k]) && InRange(t[k], rows)
  {
    seq(groups * cols, k requires 0 <= k < groups * cols =>
      QuotientBelow(k, cols, groups);
      RowFits(groups, rows, k / cols);
      RowsWith(lists, rows, k / cols, k % cols, rows))
  }

  lemma TransposedAt(lists: seq<seq<int>>, groups: nat, rows: nat, cols: nat, g: int, c: int)
    requires |lists| == groups * rows && 0 <= g < groups && 0 <= c < cols
    ensures 0 <= g * rows && g * rows + rows <= |lists| && 0 <= g * cols + c < groups * cols
    ensures Transposed(lists, groups, rows, cols)[g * cols + c] == RowsWith(lists, rows, g, c, rows)
  {
    RowFits(groups, rows, g);
    RowFits(groups, cols, g);
    assert (g + 1) * cols == g * cols + cols;
    DivideBetween(g * cols + c, cols, g);
  }

  /** Row r is in output list c if and only if c is in input list r. */
  lemma TransposedMembers(lists: seq<seq<int>>, groups: nat, rows: nat, cols: nat, g: int, c: int, r: int)
    requires |lists| == groups * rows && 0 <= g < groups && 0 <= c < cols && 0 <= r < rows
    ensures 0 <= g * rows + r < |lists| && 0 <= g * cols + c < groups * cols
    ensures r in Transposed(lists, groups, rows, cols)[g * cols + c] <==> c in lists[g * rows + r]
  {
    TransposedAt(lists, groups, rows, cols, g, c);
    hide Transposed;
  }

  /** The transpose is again a table of distinct entries, for the other axis. */
  lemma TransposedTable(lists: seq<seq<int>>, groups: nat, rows: nat, cols: nat)
    requires |lists| == groups * rows
    ensures Table(Transposed(lists, groups, rows, cols), groups, cols, rows)
  {
    var t := Transposed(lists, groups, rows, cols);
    hide Transposed;
    forall k | 0 <= k < |t|
      ensures Distinct(t[k])
    {
      assert Ascending(t[k]);
    }
  }

  /* Transposing twice sorts the lists. */

  function Elements(list: seq<int>): set<int> { set x | x in list }

  lemma {:induction false} DistinctCount(list: seq<int>)
    requires Distinct(list)
    ensures |Elements(list)| == |list|
  {
    if list != [] {
      var n := |list| - 1;
      DistinctCount(list[..n]);
      assert list == list[..n] + [list[n]];
      assert Elements(list) == Elements(list[..n]) + {list[n]};
    }
  }

  /** `b` is `a` in ascending order. */
  ghost predicate SortedCopy(a: seq<int>, b: seq<int>) {
    Ascending(b) && |b| == |a| && forall x :: x in a <==> x in b
  }

  lemma SameMembersSorted(a: seq<int>, b: seq<int>)
    requires Distinct(a) && Ascending(b) && forall x :: x in a <==> x in b
    ensures SortedCopy(a, b)
  {
    DistinctCount(a);
    assert Distinct(b);
    DistinctCount(b);
    assert Elements(a) == Elements(b);
  }

  lemma TransposedTwice(lists: seq<seq<int>>, groups: nat, rows: nat, cols: nat, g: int, r: int)
    requires Table(lists, groups, rows, cols) && 0 <= g < groups && 0 <= r < rows
    ensures 0 <= g * rows + r < groups * rows
    ensures SortedCopy(lists[g * rows + r], Transposed(Transposed(lists, groups, rows, cols), groups, cols, rows)[g * rows + r])
  {
    RowFits(groups, rows, g);
    var t := Transposed(lists, groups, rows, cols);
    var list, back := lists[g * rows + r], Transposed(t, groups, cols, rows)[g * rows + r];
    assert InRange(back, cols) && Ascending(back) && Distinct(list) && InRange(list, cols);
    hide Transposed, Table;
    forall x
      ensures x in list <==> x in back
    {
      if 0 <= x < cols {
        TransposedMembers(t, groups, cols, rows, g, r, x);
        TransposedMembers(lists, groups, rows, cols, g, x, r);
      }
    }
    SameMembersSorted(list, back);
  }

  /** There is only one ascending order. */
  lemma {:induction false} AscendingUnique(a: seq<int>, b: seq<int>)
    requires Ascending(a) && Ascending(b) && forall x :: x in a <==> x in b
    ensures a == b
    decreases |a|
  {
    assert b != [] ==> b[0] in b;
    if a != [] {
      var n := |a| - 1;
      assert a[n] in a && a[n] in b;
      var m := |b| - 1;
      assert b[m] in b && b[m] in a;
      assert a[n] == b[m];
      forall x
        ensures x in a[..n] <==> x in b[..m]
      {
        assert x in a[..n] ==> x in a && x < a[n];
        assert x in b[..m] ==> x in b && x < b[m];
      }
      AscendingUnique(a[..n], b[..m]);
      assert a == a[..n] + [a[n]] && b == b[..m] + [b[m]];
    }
  }

  /** An ascending list is no longer than its range. */
  lemma {:induction false} AscendingShort(list: seq<int>, n: int)
    requires Ascending(list) && InRange(list, n) && n >= 0
    ensures |list| <= n
    decreases |list|
  {
    if list != [] {
      AscendingShort(list[..|list| - 1], list[|list| - 1]);
    }
  }

  /* No edge is lost or invented. */

  function Edges(lists: seq<seq<int>>): nat {
    if lists == [] then 0 else Edges(lists[..|lists| - 1]) + |lists[|lists| - 1]|
  }

  /** Entries of the first m output lists of group g that come from its first n rows. */
  ghost function GroupEdges(lists: seq<seq<int>>, rows: nat, g: int, n: nat, m: nat): nat
    requires 0 <= g && 0 <= g * rows && g * rows + n <= |lists|
    decreases m
  {
    if m == 0 then 0 else GroupEdges(lists, rows, g, n, m - 1) + |RowsWith(lists, rows, g, m - 1, n)|
  }

  /** Entries of a list that are below m. */
  ghost function Below(list: seq<int>, m: nat): nat {
    |set x | x in list && 0 <= x < m|
  }

  lemma BelowStep(list: seq<int>, m: nat)
    ensures Below(list, m + 1) == Below(list, m) + if m in list then 1 else 0
    ensures Below(list, 0) == 0
  {
    var s, t := set x | x in list && 0 <= x < m, set x | x in list && 0 <= x < m + 1;
    assert (set x | x in list && 0 <= x < 0) == {};
    if m in list {
      assert t == s + {m};
    } else {
      assert t == s;
    }
  }

  lemma BelowAll(list: seq<int>, m: nat)
    requires Distinct(list) && InRange(list, m)
    ensures Below(list, m) == |list|
  {
    DistinctCount(list);
    assert (set x | x in list && 0 <= x < m) == Elements(list);
  }

  /** One more row adds its entries. */
  lemma {:induction false} GroupEdgesRow(lists: seq<seq<int>>, rows: nat, g: int, n: nat, m: nat)
    requires 0 <= g && 0 <= g * rows && g * rows + n < |lists|
    ensures GroupEdges(lists, rows, g, n + 1, m) == GroupEdges(lists, rows, g, n, m) + Below(lists[g * rows + n], m)
    decreases m
  {
    if m == 0 {
      BelowStep(lists[g * rows + n], 0);
    } else {
      GroupEdgesRow(lists, rows, g, n, m - 1);
      BelowStep(lists[g * rows + n], m - 1);
      hide Below;
    }
  }

  lemma {:induction false} NoGroupEdges(lists: seq<seq<int>>, rows: nat, g: int, m: nat)
    requires 0 <= g && 0 <= g * rows <= |lists|
    ensures GroupEdges(lists, rows, g, 0, m) == 0
    decreases m
  {
    if m > 0 { NoGroupEdges(lists, rows, g, m - 1); }
  }

  /** The entries of the first n rows of a group, counted both ways. */
  lemma {:induction false} GroupCounted(lists: seq<seq<int>>, groups: nat, rows: nat, cols: nat, g: int, n: nat)
    requires Table(lists, groups, rows, cols) && 0 <= g < groups && n <= rows
    ensures 0 <= g * rows && g * rows + n <= |lists|
    ensures Edges(lists[..g * rows + n]) == Edges(lists[..g * rows]) + GroupEdges(lists, rows, g, n, cols)
    decreases n
  {
    hide *;
    TableSize(lists, groups, rows, cols);
    RowFits(groups, rows, g);
    if n == 0 {
      NoGroupEdges(lists, rows, g, cols);
    } else {
      GroupCounted(lists, groups, rows, cols, g, n - 1);
      var k := g * rows + n - 1;
      EntryOf(lists, groups, rows, cols, k);
      GroupEdgesRow(lists, rows, g, n - 1, cols);
      BelowAll(lists[k], cols);
      EdgesNext(lists, k);
    }
  }

  lemma EntryOf(lists: seq<seq<int>>, groups: nat, rows: nat, cols: nat, k: int)
    requires Table(lists, groups, rows, cols) && 0 <= k < |lists|
    ensures Distinct(lists[k]) && InRange(lists[k], cols)
  {
  }

  lemma EdgesNext(lists: seq<seq<int>>, k: nat)
    requires k < |lists|
    ensures Edges(lists[..k + 1]) == Edges(lists[..k]) + |lists[k]|
  {
    assert lists[..k + 1][..k] == lists[..k];
  }

  lemma NoOutput(lists: seq<seq<int>>, rows: nat, g: int)
    requires 0 <= g && 0 <= g * rows && g * rows + rows <= |lists|
    ensures GroupEdges(lists, rows, g, rows, 0) == 0
  {
  }

  lemma OutputNext(lists: seq<seq<int>>, rows: nat, g: int, m: nat, t: seq<seq<int>>, k: int)
    requires 0 <= g && 0 <= g * rows && g * rows + rows <= |lists| && 0 <= k < |t|
    requires t[k] == RowsWith(lists, rows, g, m, rows)
    ensures Edges(t[..k + 1]) == Edges(t[..k]) + |RowsWith(lists, rows, g, m, rows)|
    ensures GroupEdges(lists, rows, g, rows, m + 1) == GroupEdges(lists, rows, g, rows, m) + |RowsWith(lists, rows, g, m, rows)|
  {
    EdgesNext(t, k);
  }

  lemma {:induction false} OutputCounted(lists: seq<seq<int>>, groups: nat, rows: nat, cols: nat, g: int, m: nat)
    requires |lists| == groups * rows && 0 <= g < groups && m <= cols
    ensures 0 <= g * rows && g * rows + rows <= |lists| && 0 <= g * cols && g * cols + m <= groups * cols
    ensures var t := Transposed(lists, groups, rows, cols);
            Edges(t[..g * cols + m]) == Edges(t[..g * cols]) + GroupEdges(lists, rows, g, rows, m)
    decreases m
  {
    hide *;
    RowFits(groups, rows, g);
    RowFits(groups, cols, g);
    if m == 0 {
      NoOutput(lists, rows, g);
    } else {
      OutputCounted(lists, groups, rows, cols, g, m - 1);
      TransposedAt(lists, groups, rows, cols, g, m - 1);
      OutputNext(lists, rows, g, m - 1, Transposed(lists, groups, rows, cols), g * cols + m - 1);
    }
  }

  lemma {:induction false} EdgesUpTo(lists: seq<seq<int>>, groups: nat, rows: nat, cols: nat, g: nat)
    requires Table(lists, groups, rows, cols) && g <= groups
    ensures 0 <= g * rows <= |lists| && 0 <= g * cols <= groups * cols
    ensures Edges(Transposed(lists, groups, rows, cols)[..g * cols]) == Edges(lists[..g * rows])
    decreases g
  {
    hide *;
    TableSize(lists, groups, rows, cols);
    if g == 0 {
      NoEdges(lists, groups, rows, cols);
    } else {
      EdgesUpTo(lists, groups, rows, cols, g - 1);
      GroupCounted(lists, groups, rows, cols, g - 1, rows);
      OutputCounted(lists, groups, rows, cols, g - 1, cols);
      NextMultiple(g - 1, rows);
      NextMultiple(g - 1, cols);
    }
  }

  lemma TableSize(lists: seq<seq<int>>, groups: nat, rows: nat, cols: nat)
    requires Table(lists, groups, rows, cols)
    ensures |lists| == groups * rows
  {
  }

  lemma NoEdges(lists: seq<seq<int>>, groups: nat, rows: nat, cols: nat)
    requires |lists| == groups * rows
    ensures 0 * rows == 0 && 0 * cols == 0
    ensures Edges(Transposed(lists, groups, rows, cols)[..0]) == Edges(lists[..0]) == 0
  {
  }

  /** The transpose has as many entries as the table. */
  lemma EdgesKept(lists: seq<seq<int>>, groups: nat, rows: nat, cols: nat)
    requires Table(lists, groups, rows, cols)
    ensures Edges(Transposed(lists, groups, rows, cols)) == Edges(lists)
  {
    EdgesUpTo(lists, groups, rows, cols, groups);
    var t := Transposed(lists, groups, rows, cols);
    assert t[..groups * cols] == t && lists[..groups * rows] == lists;
  }
}
