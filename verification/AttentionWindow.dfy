/** Sliding-window attention: which keys a query sees, and the normalisation of a window for
    given maximum lengths. Windows are aligned at the bottom right: the last query sees up to
    the last key. A negative bound is unlimited. */
module AttentionWindow {

  /** Query i of Q sees key j of K. */
  predicate Visible(left: int, right: int, Q: int, K: int, i: int, j: int) {
    && (left < 0 || i + K - Q - left <= j)
    && (right < 0 || j <= i + K - Q + right)
  }

  /** The window of a request: with `causal` the right bound is 0. */
  predicate Asked(causal: bool, left: int, right: int, Q: int, K: int, i: int, j: int) {
    Visible(left, if causal then 0 else right, Q, K, i, j)
  }

  predicate InBounds(Q: int, K: int, i: int, j: int) { 0 <= i < Q && 0 <= j < K }

  datatype Window = Window(left: int, right: int, isCausal: bool, isLocal: bool)

  /** A key some query of some allowed lengths does not see. */
  ghost predicate Hides(left: int, right: int, maxQ: int, maxK: int) {
    exists Q, K, i, j :: Q <= maxQ && K <= maxK && InBounds(Q, K, i, j) && !Visible(left, right, Q, K, i, j)
  }

  /** Rewrite a window in place: bounds that cannot cut anything off become unlimited. */
  method NormalizeAttentionWindow(causal: bool, maxQ: int, maxK: int, left0: int, right0: int) returns (w: Window)
    ensures forall Q, K, i, j :: Q <= maxQ && K <= maxK && InBounds(Q, K, i, j) ==>
                                   (Visible(w.left, w.right, Q, K, i, j) <==> Asked(causal, left0, right0, Q, K, i, j))
    ensures !(w.isCausal && w.isLocal)
    ensures w.isCausal <==> w.left < 0 && w.right == 0
    ensures !w.isCausal && !w.isLocal <==> w.left < 0 && w.right < 0
    ensures w.left >= -1 && w.right >= -1
    ensures w.left >= 0 ==> w.left == left0 && (maxK > 0 ==> w.left < maxK - 1)
    ensures w.right >= 0 ==> w.right == (if causal then 0 else right0) && (!causal && maxQ > 0 ==> w.right < maxQ - 1)
    ensures maxQ > 0 && maxK > 0 ==> (Hides(w.left, w.right, maxQ, maxK) <==> w.isLocal || (w.isCausal && maxQ > 1))
  {
    var left, right := left0, right0;
    if left < 0 || (maxK > 0 && left >= maxK - 1) {
      left := -1;
    }
    if right < 0 || (maxQ > 0 && right >= maxQ - 1) {
      right := -1;
    }
    if causal {
      right := 0;
    }
    var isCausal := left < 0 && right == 0;
    var isLocal := (left >= 0 || right >= 0) && !isCausal;
    w := Window(left, right, isCausal, isLocal);
    if maxQ > 0 && maxK > 0 {
      Tight(left, right, maxQ, maxK);
    }
  }

  /** A window hides something exactly if one of its bounds is short of the longest sequences. */
  lemma Tight(left: int, right: int, maxQ: int, maxK: int)
    requires maxQ > 0 && maxK > 0
    ensures Hides(left, right, maxQ, maxK) <==> (0 <= left < maxK - 1) || (0 <= right < maxQ - 1)
  {
    if 0 <= left < maxK - 1 {
      // The only query of a sequence with all keys does not see the first one.
      assert InBounds(1, maxK, 0, 0) && !Visible(left, right, 1, maxK, 0, 0);
    }
    if 0 <= right < maxQ - 1 {
      // The first query of the longest sequence does not see the only key.
      assert InBounds(maxQ, 1, 0, 0) && !Visible(left, right, maxQ, 1, 0, 0);
    }
  }
}
