/** Merging the partial results of a row's key segments, over the reals. The exponential and
    the logarithm are only known by their laws. */
module CombineMath {

  /** Laws of `exp` and `ln`; the sum law names the sum so that it can be found by matching. */
  ghost predicate ExpLn(exp: real -> real, ln: real -> real) {
    && (forall x :: exp(x) > 0.0)
    && (forall x, y, z :: x + y == z ==> exp(z) == exp(x) * exp(y))
    && (forall y :: y > 0.0 ==> exp(ln(y)) == y)
    && (forall x :: ln(exp(x)) == x)
  }

  /** One key of a row: its score and its value in one output column. */
  datatype Key = Key(score: real, value: real)

  ghost function SumExp(exp: real -> real, keys: seq<Key>): real {
    if keys == [] then 0.0
    else SumExp(exp, keys[..|keys| - 1]) + exp(keys[|keys| - 1].score)
  }

  ghost function SumValues(exp: real -> real, keys: seq<Key>): real {
    if keys == [] then 0.0
    else SumValues(exp, keys[..|keys| - 1]) + exp(keys[|keys| - 1].score) * keys[|keys| - 1].value
  }

  /** Softmax attention of a row over the given keys, and its log-sum-exp. */
  ghost function Attention(exp: real -> real, keys: seq<Key>): real
    requires SumExp(exp, keys) > 0.0
  {
    SumValues(exp, keys) / SumExp(exp, keys)
  }

  ghost function Lse(exp: real -> real, ln: real -> real, keys: seq<Key>): real {
    ln(SumExp(exp, keys))
  }

  /** The log-sum-exp of a segment; of no keys it is minus infinity. */
  datatype LogSum = Nothing | Of(value: real)

  ghost function LseOfKeys(exp: real -> real, ln: real -> real, keys: seq<Key>): LogSum {
    if keys == [] then Nothing else Of(Lse(exp, ln, keys))
  }

  ghost function Flatten(segs: seq<seq<Key>>): seq<Key> {
    if segs == [] then [] else Flatten(segs[..|segs| - 1]) + segs[|segs| - 1]
  }

  /* What the combine step computes. `Times` keeps products out of the way of the proofs
     by induction. */

  function Times(a: real, b: real): real { a * b }

  predicate AtMost(x: LogSum, y: LogSum) { x.Nothing? || (y.Of? && x.value <= y.value) }

  /** Largest element. */
  function MaxOf(xs: seq<LogSum>): (m: LogSum)
    requires |xs| > 0
    ensures m in xs && forall i :: 0 <= i < |xs| ==> AtMost(xs[i], m)
  {
    var last := xs[|xs| - 1];
    if |xs| == 1 then last
    else
      var m := MaxOf(xs[..|xs| - 1]);
      assert forall i :: 0 <= i < |xs| - 1 ==> xs[i] == xs[..|xs| - 1][i];
      if AtMost(last, m) then m else last
  }

  /** exp(x - shift), which is zero for minus infinity. */
  function ExpFrom(exp: real -> real, x: LogSum, shift: real): real {
    if x.Nothing? then 0.0 else exp(x.value - shift)
  }

  /** What is subtracted for a maximum; a row without any key is of no interest. */
  function Shift(m: LogSum): real { if m.Nothing? then 0.0 else m.value }

  /** Sum of exp(x - shift). */
  function SumShifted(exp: real -> real, xs: seq<LogSum>, shift: real): real {
    if xs == [] then 0.0
    else SumShifted(exp, xs[..|xs| - 1], shift) + ExpFrom(exp, xs[|xs| - 1], shift)
  }

  /** Sum of exp(x - shift) * o. */
  function WeightedSum(exp: real -> real, xs: seq<LogSum>, os: seq<real>, shift: real): real
    requires |xs| == |os|
  {
    if xs == [] then 0.0
    else WeightedSum(exp, xs[..|xs| - 1], os[..|os| - 1], shift) + Times(ExpFrom(exp, xs[|xs| - 1], shift), os[|os| - 1])
  }

  /** The merged log-sum-exp, shifted by the maximum as the vector unit does it. */
  function MergedLse(exp: real -> real, ln: real -> real, lses: seq<LogSum>): real
    requires |lses| > 0
  {
    var m := Shift(MaxOf(lses));
    ln(SumShifted(exp, lses, m)) + m
  }

  function MergedOut(exp: real -> real, ln: real -> real, lses: seq<LogSum>, outs: seq<real>): real
    requires |lses| == |outs| > 0
  {
    WeightedSum(exp, lses, outs, MergedLse(exp, ln, lses))
  }

  /* The laws at work. */

  /** exp(x - y) * exp(y) == exp(x) */
  lemma ExpDiff(exp: real -> real, ln: real -> real, x: real, y: real)
    requires ExpLn(exp, ln)
    ensures Times(exp(x - y), exp(y)) == exp(x) && exp(y) > 0.0 && exp(x - y) > 0.0
  {
    assert (x - y) + y == x;
  }

  lemma {:induction false} SumExpPositive(exp: real -> real, ln: real -> real, keys: seq<Key>)
    requires ExpLn(exp, ln)
    ensures SumExp(exp, keys) >= 0.0
    ensures |keys| > 0 ==> SumExp(exp, keys) > 0.0
  {
    if keys != [] {
      SumExpPositive(exp, ln, keys[..|keys| - 1]);
    }
  }

  lemma {:induction false} SumsAppend(exp: real -> real, a: seq<Key>, b: seq<Key>)
    ensures SumExp(exp, a + b) == SumExp(exp, a) + SumExp(exp, b)
    ensures SumValues(exp, a + b) == SumValues(exp, a) + SumValues(exp, b)
  {
    if b == [] {
      assert a + b == a;
    } else {
      var n := |b| - 1;
      SumsAppend(exp, a, b[..n]);
      assert (a + b)[..|a + b| - 1] == a + b[..n];
    }
  }

  lemma ExpLse(exp: real -> real, ln: real -> real, keys: seq<Key>)
    requires ExpLn(exp, ln) && |keys| > 0
    ensures exp(Lse(exp, ln, keys)) == SumExp(exp, keys) > 0.0
  {
    SumExpPositive(exp, ln, keys);
  }

  /** `lses` are the log-sum-exps of the segments `segs`. */
  ghost predicate AreLses(exp: real -> real, ln: real -> real, segs: seq<seq<Key>>, lses: seq<LogSum>) {
    |lses| == |segs| && forall s :: 0 <= s < |segs| ==> lses[s] == LseOfKeys(exp, ln, segs[s])
  }

  lemma LsesPrefix(exp: real -> real, ln: real -> real, segs: seq<seq<Key>>, lses: seq<LogSum>)
    requires AreLses(exp, ln, segs, lses)
    ensures |lses| == |segs|
    ensures |segs| > 0 ==>
              var n := |segs| - 1;
              lses[n] == LseOfKeys(exp, ln, segs[n]) && AreLses(exp, ln, segs[..n], lses[..n])
  {
    hide LseOfKeys;
  }

  /** The shifted exponential of a segment, times the shift, is its sum. */
  lemma SegmentSum(exp: real -> real, ln: real -> real, keys: seq<Key>, shift: real)
    requires ExpLn(exp, ln)
    ensures Times(ExpFrom(exp, LseOfKeys(exp, ln, keys), shift), exp(shift)) == SumExp(exp, keys)
  {
    hide ExpLn, Times, Lse, SumExp;
    if keys == [] {
      NoKeys(exp, shift);
    } else {
      ExpDiff(exp, ln, Lse(exp, ln, keys), shift);
      ExpLse(exp, ln, keys);
    }
  }

  lemma NoKeys(exp: real -> real, shift: real)
    ensures Times(0.0, exp(shift)) == 0.0 == SumExp(exp, []) && SumValues(exp, []) == 0.0
  {
  }

  /** Shifting does not matter once the shift is multiplied back. */
  lemma {:induction false} ShiftedSum(exp: real -> real, ln: real -> real, segs: seq<seq<Key>>, lses: seq<LogSum>, shift: real)
    requires ExpLn(exp, ln) && AreLses(exp, ln, segs, lses)
    ensures Times(SumShifted(exp, lses, shift), exp(shift)) == SumExp(exp, Flatten(segs))
  {
    hide *;
    LsesPrefix(exp, ln, segs, lses);
    if segs == [] {
      assert lses == [];
      NothingShifted(exp, shift);
    } else {
      var n := |segs| - 1;
      ShiftedSum(exp, ln, segs[..n], lses[..n], shift);
      SumsAppend(exp, Flatten(segs[..n]), segs[n]);
      SegmentSum(exp, ln, segs[n], shift);
      LastShifted(exp, lses, shift);
      LastSegment(segs);
      AddProducts(SumShifted(exp, lses, shift), SumShifted(exp, lses[..n], shift), ExpFrom(exp, lses[n], shift), exp(shift),
                  SumExp(exp, Flatten(segs[..n])), SumExp(exp, segs[n]));
    }
  }

  lemma NothingShifted(exp: real -> real, shift: real)
    ensures Times(SumShifted(exp, [], shift), exp(shift)) == SumExp(exp, Flatten([]))
  {
  }

  lemma LastShifted(exp: real -> real, xs: seq<LogSum>, shift: real)
    requires xs != []
    ensures SumShifted(exp, xs, shift) == SumShifted(exp, xs[..|xs| - 1], shift) + ExpFrom(exp, xs[|xs| - 1], shift)
  {
  }

  lemma LastSegment(segs: seq<seq<Key>>)
    requires segs != []
    ensures Flatten(segs) == Flatten(segs[..|segs| - 1]) + segs[|segs| - 1]
  {
  }

  lemma AddProducts(t: real, a: real, b: real, c: real, x: real, y: real)
    requires t == a + b && Times(a, c) == x && Times(b, c) == y
    ensures Times(t, c) == x + y
  {
  }

  /* Main results: merging the segments equals attention over all keys. */

  lemma Product(exp: real -> real, ln: real -> real, x: real, y: real)
    requires ExpLn(exp, ln)
    ensures exp(x + y) == Times(exp(x), exp(y)) && exp(x) > 0.0 && exp(y) > 0.0
  {
    var z := x + y;
    assert exp(z) == exp(x) * exp(y);
  }

  lemma Inverse(exp: real -> real, ln: real -> real, x: real)
    requires ExpLn(exp, ln)
    ensures x > 0.0 ==> exp(ln(x)) == x
    ensures ln(exp(x)) == x
  {
  }

  lemma PositiveFactor(t: real, e: real)
    requires e > 0.0 && Times(t, e) > 0.0
    ensures t > 0.0
  {
  }

  /** The merged log-sum-exp is the log-sum-exp over all keys. */
  lemma MergedLseIsLse(exp: real -> real, ln: real -> real, segs: seq<seq<Key>>, lses: seq<LogSum>)
    requires ExpLn(exp, ln) && AreLses(exp, ln, segs, lses) && Flatten(segs) != []
    ensures SumExp(exp, Flatten(segs)) > 0.0
    ensures |lses| > 0 && MergedLse(exp, ln, lses) == Lse(exp, ln, Flatten(segs))
    ensures exp(MergedLse(exp, ln, lses)) == SumExp(exp, Flatten(segs))
  {
    LsesPrefix(exp, ln, segs, lses);
    assert |lses| > 0;
    var m := Shift(MaxOf(lses));
    var t, all := SumShifted(exp, lses, m), Flatten(segs);
    assert MergedLse(exp, ln, lses) == ln(t) + m && Lse(exp, ln, all) == ln(SumExp(exp, all));
    hide *;
    ShiftedSum(exp, ln, segs, lses, m);
    ExpLse(exp, ln, all);
    Unshift(exp, ln, t, m, SumExp(exp, all));
  }

  lemma Unshift(exp: real -> real, ln: real -> real, t: real, m: real, s: real)
    requires ExpLn(exp, ln) && Times(t, exp(m)) == s > 0.0
    ensures ln(t) + m == ln(s) && exp(ln(s)) == s
  {
    hide *;
    Product(exp, ln, ln(t), m);
    PositiveFactor(t, exp(m));
    Inverse(exp, ln, t);
    Inverse(exp, ln, s);
    Inverse(exp, ln, ln(t) + m);
  }

  lemma SelfRatio(w: real, s: real)
    requires s > 0.0 && Times(w, s) == s
    ensures w == 1.0
  {
    assert (w - 1.0) * s == 0.0;
  }

  /** The merge weights sum to one. */
  lemma WeightsSumToOne(exp: real -> real, ln: real -> real, segs: seq<seq<Key>>, lses: seq<LogSum>)
    requires ExpLn(exp, ln) && AreLses(exp, ln, segs, lses) && Flatten(segs) != []
    ensures |lses| > 0 && SumShifted(exp, lses, MergedLse(exp, ln, lses)) == 1.0
  {
    hide *;
    LsesPrefix(exp, ln, segs, lses);
    MergedLseIsLse(exp, ln, segs, lses);
    ShiftedSum(exp, ln, segs, lses, MergedLse(exp, ln, lses));
    SelfRatio(SumShifted(exp, lses, MergedLse(exp, ln, lses)), SumExp(exp, Flatten(segs)));
  }

  /** `outs` are the attention outputs of the segments; of a segment without keys the output
      is not looked at. */
  ghost predicate AreOuts(exp: real -> real, segs: seq<seq<Key>>, outs: seq<real>) {
    && |outs| == |segs|
    && forall s :: 0 <= s < |segs| ==> IsOut(exp, segs[s], outs[s])
  }

  ghost predicate IsOut(exp: real -> real, keys: seq<Key>, out: real) {
    keys == [] || (SumExp(exp, keys) > 0.0 && out == Attention(exp, keys))
  }

  lemma OutsPrefix(exp: real -> real, segs: seq<seq<Key>>, outs: seq<real>)
    requires AreOuts(exp, segs, outs)
    ensures |outs| == |segs|
    ensures |segs| > 0 ==>
              var n := |segs| - 1;
              Times(SumExp(exp, segs[n]), outs[n]) == SumValues(exp, segs[n]) && AreOuts(exp, segs[..n], outs[..n])
  {
    if |segs| > 0 {
      var n := |segs| - 1;
      OutTimesSum(exp, segs[n], outs[n]);
      hide IsOut, Times;
    }
  }

  lemma OutTimesSum(exp: real -> real, keys: seq<Key>, out: real)
    requires IsOut(exp, keys, out)
    ensures Times(SumExp(exp, keys), out) == SumValues(exp, keys)
  {
    if keys != [] {
      Undivide(SumValues(exp, keys), SumExp(exp, keys));
      hide Times;
    }
  }

  lemma Undivide(v: real, s: real)
    requires s > 0.0
    ensures Times(s, v / s) == v
  {
  }

  lemma Regroup(w: real, o: real, e: real, s: real, v: real)
    requires Times(w, e) == s && Times(s, o) == v
    ensures Times(Times(w, o), e) == v
  {
    assert w * o * e == (w * e) * o;
  }

  lemma {:induction false} ShiftedValues(exp: real -> real, ln: real -> real, segs: seq<seq<Key>>, lses: seq<LogSum>, outs: seq<real>, shift: real)
    requires ExpLn(exp, ln) && AreLses(exp, ln, segs, lses) && AreOuts(exp, segs, outs)
    ensures |lses| == |outs|
    ensures Times(WeightedSum(exp, lses, outs, shift), exp(shift)) == SumValues(exp, Flatten(segs))
  {
    hide *;
    LsesPrefix(exp, ln, segs, lses);
    OutsPrefix(exp, segs, outs);
    if segs == [] {
      assert lses == [] && outs == [];
      NothingWeighted(exp, shift);
    } else {
      var n := |segs| - 1;
      ShiftedValues(exp, ln, segs[..n], lses[..n], outs[..n], shift);
      SumsAppend(exp, Flatten(segs[..n]), segs[n]);
      LastWeighted(exp, lses, outs, shift);
      LastSegment(segs);
      SegmentSum(exp, ln, segs[n], shift);
      Regroup(ExpFrom(exp, lses[n], shift), outs[n], exp(shift), SumExp(exp, segs[n]), SumValues(exp, segs[n]));
      AddProducts(WeightedSum(exp, lses, outs, shift), WeightedSum(exp, lses[..n], outs[..n], shift),
                  Times(ExpFrom(exp, lses[n], shift), outs[n]), exp(shift),
                  SumValues(exp, Flatten(segs[..n])), SumValues(exp, segs[n]));
    }
  }

  lemma NothingWeighted(exp: real -> real, shift: real)
    ensures Times(WeightedSum(exp, [], [], shift), exp(shift)) == SumValues(exp, Flatten([]))
  {
  }

  lemma LastWeighted(exp: real -> real, xs: seq<LogSum>, os: seq<real>, shift: real)
    requires |xs| == |os| > 0
    ensures WeightedSum(exp, xs, os, shift)
         == WeightedSum(exp, xs[..|xs| - 1], os[..|os| - 1], shift) + Times(ExpFrom(exp, xs[|xs| - 1], shift), os[|os| - 1])
  {
  }

  lemma Quotient(w: real, s: real, v: real)
    requires s > 0.0 && Times(w, s) == v
    ensures w == v / s
  {
    assert w * s / s == w;
  }

  /** The merged output is softmax attention over all keys. */
  lemma MergedOutIsAttention(exp: real -> real, ln: real -> real, segs: seq<seq<Key>>, lses: seq<LogSum>, outs: seq<real>)
    requires ExpLn(exp, ln) && AreLses(exp, ln, segs, lses) && AreOuts(exp, segs, outs) && Flatten(segs) != []
    ensures SumExp(exp, Flatten(segs)) > 0.0
    ensures |lses| == |outs| > 0 && MergedOut(exp, ln, lses, outs) == Attention(exp, Flatten(segs))
  {
    LsesPrefix(exp, ln, segs, lses);
    OutsPrefix(exp, segs, outs);
    assert |lses| > 0;
    var shift, all := MergedLse(exp, ln, lses), Flatten(segs);
    assert MergedOut(exp, ln, lses, outs) == WeightedSum(exp, lses, outs, shift);
    hide ExpLn, AreLses, AreOuts, MergedLse, Flatten, WeightedSum, SumExp, SumValues, MergedOut, Times, SumShifted;
    MergedLseIsLse(exp, ln, segs, lses);
    ShiftedValues(exp, ln, segs, lses, outs, shift);
    Quotient(WeightedSum(exp, lses, outs, shift), SumExp(exp, all), SumValues(exp, all));
  }
}
