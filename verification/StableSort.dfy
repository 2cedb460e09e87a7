/** The library steps the transpose is built from: a stable argsort, occurrence counts by
    scatter-add, and exclusive prefix sums. */
module StableSort {

  /** Order of a stable sort: by key, then by position. */
  predicate Sooner(keys: seq<int>, e: int, f: int)
    requires 0 <= e < |keys| && 0 <= f < |keys|
  {
    keys[e] < keys[f] || (keys[e] == keys[f] && e < f)
  }

  ghost predicate InOrder(keys: seq<int>, order: seq<int>) {
    && (forall i :: 0 <= i < |order| ==> 0 <= order[i] < |keys|)
    && (forall i, j :: 0 <= i < j < |order| ==> Sooner(keys, order[i], order[j]))
  }

  /** `order` lists the positions below n, sorted stably by key. */
  ghost predicate StableOrder(keys: seq<int>, order: seq<int>, n: int) {
    && n <= |keys| && InOrder(keys, order)
    && (forall i :: 0 <= i < |order| ==> 0 <= order[i] < n)
    && (forall e :: 0 <= e < n ==> e in order)
  }

  /** Insert position e behind all positions whose key is not larger. */
  function Insert(keys: seq<int>, order: seq<int>, e: int): (r: seq<int>)
    requires 0 <= e < |keys| && forall i :: 0 <= i < |order| ==> 0 <= order[i] < |keys|
    ensures |r| == |order| + 1
    ensures forall x :: x in r <==> x in order || x == e
  {
    if order == [] then [e]
    else
      var n := |order| - 1;
      assert order == order[..n] + [order[n]];
      if keys[order[n]] <= keys[e] then order + [e] else Insert(keys, order[..n], e) + [order[n]]
  }

  lemma {:induction false} InsertSorted(keys: seq<int>, order: seq<int>, e: int)
    requires 0 <= e < |keys| && InOrder(keys, order) && forall i :: 0 <= i < |order| ==> 0 <= order[i] < e
    ensures InOrder(keys, Insert(keys, order, e))
  {
    if order != [] {
      var n := |order| - 1;
      if keys[order[n]] > keys[e] {
        InsertSorted(keys, order[..n], e);
        var q := Insert(keys, order[..n], e);
        assert Insert(keys, order, e) == q + [order[n]];
        hide Insert;
        AppendLargest(keys, order, e, q);
      }
    }
  }

  lemma AppendLargest(keys: seq<int>, order: seq<int>, e: int, q: seq<int>)
    requires 0 <= e < |keys| && InOrder(keys, order) && order != [] && InOrder(keys, q)
    requires keys[order[|order| - 1]] > keys[e] && forall x :: x in q <==> x in order[..|order| - 1] || x == e
    ensures InOrder(keys, q + [order[|order| - 1]])
  {
    var n := |order| - 1;
    forall i | 0 <= i < |q|
      ensures Sooner(keys, q[i], order[n])
    {
      assert q[i] in q;
      if q[i] != e {
        var k :| 0 <= k < n && order[k] == q[i];
      }
    }
  }

  method StableArgsort(keys: seq<int>) returns (order: seq<int>)
    ensures StableOrder(keys, order, |keys|)
  {
    order := [];
    for e := 0 to |keys|
      invariant StableOrder(keys, order, e)
    {
      order := InsertNext(keys, order, e);
    }
  }

  method InsertNext(keys: seq<int>, order: seq<int>, e: int) returns (r: seq<int>)
    requires 0 <= e < |keys| && StableOrder(keys, order, e)
    ensures StableOrder(keys, r, e + 1)
  {
    InsertSorted(keys, order, e);
    r := Insert(keys, order, e);
    hide Insert;
    assert forall i :: 0 <= i < |r| ==> r[i] in r;
    assert forall x :: x in order ==> x in r;
    assert e in r;
  }

  /* Occurrences in a sorted sequence. */

  ghost function Count(s: seq<int>, c: int): nat {
    if s == [] then 0 else Count(s[..|s| - 1], c) + if s[|s| - 1] == c then 1 else 0
  }

  ghost function CountLess(s: seq<int>, c: int): nat {
    if s == [] then 0 else CountLess(s[..|s| - 1], c) + if s[|s| - 1] < c then 1 else 0
  }

  predicate Nondecreasing(s: seq<int>) {
    forall i, j :: 0 <= i <= j < |s| ==> s[i] <= s[j]
  }

  lemma {:induction false} CountLessNext(s: seq<int>, c: int)
    ensures CountLess(s, c + 1) == CountLess(s, c) + Count(s, c)
  {
    if s != [] { CountLessNext(s[..|s| - 1], c); }
  }

  lemma {:induction false} CountLessBounds(s: seq<int>, c: int)
    ensures CountLess(s, c) <= |s|
    ensures (forall i :: 0 <= i < |s| ==> s[i] >= c) ==> CountLess(s, c) == 0
  {
    if s != [] { CountLessBounds(s[..|s| - 1], c); }
  }

  /** In a sorted sequence the smaller entries come first. */
  lemma {:induction false} CountLessSplits(s: seq<int>, c: int)
    requires Nondecreasing(s)
    ensures forall i :: 0 <= i < |s| ==> (s[i] < c <==> i < CountLess(s, c))
  {
    CountLessBounds(s, c);
    if s != [] {
      var n := |s| - 1;
      CountLessSplits(s[..n], c);
      CountLessBounds(s[..n], c);
      assert forall i :: 0 <= i < n ==> s[i] == s[..n][i];
      if s[n] < c && n > 0 {
        assert s[n - 1] <= s[n];
        assert s[..n][n - 1] < c;
      }
    }
  }

  /** Add one to the count of every key that is a list; keys past the last list add nothing. */
  method ScatterAdd(sorted: seq<int>, groups: nat) returns (counts: array<int>)
    requires groups > 0 && forall i :: 0 <= i < |sorted| ==> 0 <= sorted[i] <= groups
    ensures counts.Length == groups && fresh(counts)
    ensures forall c :: 0 <= c < groups ==> counts[c] == Count(sorted, c)
  {
    counts := new int[groups](_ => 0);
    assert sorted[..0] == [];
    for i := 0 to |sorted|
      invariant forall c :: 0 <= c < groups ==> counts[c] == Count(sorted[..i], c)
    {
      assert sorted[..i + 1][..i] == sorted[..i];
      var safe := if sorted[i] < groups then sorted[i] else groups - 1;
      counts[safe] := counts[safe] + if sorted[i] < groups then 1 else 0;
    }
    assert sorted[..|sorted|] == sorted;
  }

  /** Exclusive prefix sums of the counts: where each list starts in the sorted edges. */
  method Starts(counts: seq<int>, ghost sorted: seq<int>) returns (start: seq<int>)
    requires forall i :: 0 <= i < |sorted| ==> 0 <= sorted[i]
    requires forall c :: 0 <= c < |counts| ==> counts[c] == Count(sorted, c)
    ensures |start| == |counts| && forall c :: 0 <= c < |start| ==> start[c] == CountLess(sorted, c)
  {
    start := [];
    var total := 0;
    CountLessBounds(sorted, 0);
    for c := 0 to |counts|
      invariant |start| == c && total == CountLess(sorted, c)
      invariant forall d :: 0 <= d < c ==> start[d] == CountLess(sorted, d)
    {
      CountLessNext(sorted, c);
      total := total + counts[c];
      start := start + [total - counts[c]];
    }
  }
}
