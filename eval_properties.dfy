/** What the metrics of module Eval promise, proved about their specification
    functions (which the methods of Eval are proved to compute). */
module EvalProperties {
  import opened Floats
  import opened Eval

  // ---------------------------------------------------------------------
  // The error predicate

  /** An infinite prediction with the label's sign makes `p*y` positive, so
      the product test alone would pass it; it is still an error. */
  lemma InfiniteAgreeingPredictionIsError(y: real)
    requires y != 0.0
    ensures !AtMostZero(Mul(InfinityOfSign(y > 0.0), y))
    ensures IsError(InfinityOfSign(y > 0.0), y)
  {
  }

  /** NaN is never `<= 0`, so only the explicit NaN test catches it. */
  lemma NaNPredictionIsError(y: real)
    ensures !AtMostZero(Mul(NaN, y))
    ensures IsError(NaN, y)
  {
  }

  /** A zero prediction is an error whatever the label. */
  lemma ZeroPredictionIsError(y: real)
    ensures IsError(Finite(0.0), y)
  {
  }

  // ---------------------------------------------------------------------
  // The error count and the error rate

  /** The indices of the misclassified pairs. */
  ghost function ErrorIndices(pairs: seq<Pair>): set<nat> {
    set i: nat | i < |pairs| && IsError(pairs[i].0, pairs[i].1)
  }

  /** The running count equals the number of misclassified positions. */
  lemma {:induction false} ErrorCountIsCardinality(pairs: seq<Pair>)
    ensures ErrorCount(pairs) == |ErrorIndices(pairs)|
  {
    if pairs == [] {
      assert ErrorIndices(pairs) == {};
    } else {
      var init, k := Init(pairs), |pairs| - 1;
      ErrorCountIsCardinality(init);
      if IsError(pairs[k].0, pairs[k].1) {
        assert ErrorIndices(pairs) == ErrorIndices(init) + {k};
      } else {
        assert ErrorIndices(pairs) == ErrorIndices(init);
      }
    }
  }

  ghost predicate NoErrors(pairs: seq<Pair>) {
    forall i :: 0 <= i < |pairs| ==> !IsError(pairs[i].0, pairs[i].1)
  }

  ghost predicate AllErrors(pairs: seq<Pair>) {
    forall i :: 0 <= i < |pairs| ==> IsError(pairs[i].0, pairs[i].1)
  }

  lemma {:induction false} ErrorCountZeroIff(pairs: seq<Pair>)
    ensures ErrorCount(pairs) == 0 <==> NoErrors(pairs)
  {
    if pairs != [] {
      var init := Init(pairs);
      ErrorCountZeroIff(init);
      assert NoErrors(pairs) <==> NoErrors(init) && !IsError(Last(pairs).0, Last(pairs).1);
    }
  }

  lemma {:induction false} ErrorCountFullIff(pairs: seq<Pair>)
    ensures ErrorCount(pairs) == |pairs| <==> AllErrors(pairs)
  {
    if pairs != [] {
      var init := Init(pairs);
      ErrorCountFullIff(init);
      assert AllErrors(pairs) <==> AllErrors(init) && IsError(Last(pairs).0, Last(pairs).1);
    }
  }

  /** The rate is 0 exactly when no pair is misclassified. */
  lemma ErrorRateZeroIff(pairs: seq<Pair>)
    requires pairs != []
    ensures ErrorRateOf(pairs) == Success(Finite(0.0)) <==> NoErrors(pairs)
  {
    ErrorCountZeroIff(pairs);
    var n, err := |pairs| as real, ErrorCount(pairs) as real;
    assert err / n * 100.0 == 0.0 <==> err == 0.0 by { assert err / n * n == err; }
  }

  /** The rate is 100 exactly when every pair is misclassified. */
  lemma ErrorRateHundredIff(pairs: seq<Pair>)
    requires pairs != []
    ensures ErrorRateOf(pairs) == Success(Finite(100.0)) <==> AllErrors(pairs)
  {
    ErrorCountFullIff(pairs);
    var n, err := |pairs| as real, ErrorCount(pairs) as real;
    assert err / n * 100.0 == 100.0 <==> err == n by { assert err / n * n == err; }
  }

  /** A finite, non-zero prediction with the sign of a non-zero label. */
  predicate Agrees(p: Float, y: real) {
    p.Finite? && ((p.r > 0.0 && y > 0.0) || (p.r < 0.0 && y < 0.0))
  }

  /** A finite, non-zero prediction with the sign opposite to the label's. */
  predicate Opposes(p: Float, y: real) {
    p.Finite? && ((p.r > 0.0 && y < 0.0) || (p.r < 0.0 && y > 0.0))
  }

  lemma AgreeingIsNoError(p: Float, y: real)
    requires Agrees(p, y)
    ensures !IsError(p, y)
  {
    assert p.r * y > 0.0;
  }

  lemma OpposingIsError(p: Float, y: real)
    requires Opposes(p, y)
    ensures IsError(p, y)
  {
    assert p.r * y < 0.0;
  }

  /** Every prediction finite and of its label's sign: the rate is 0. */
  lemma AllAgreeingRateIsZero(pairs: seq<Pair>)
    requires pairs != []
    requires forall i :: 0 <= i < |pairs| ==> Agrees(pairs[i].0, pairs[i].1)
    ensures ErrorRateOf(pairs) == Success(Finite(0.0))
  {
    forall i | 0 <= i < |pairs| ensures !IsError(pairs[i].0, pairs[i].1) {
      AgreeingIsNoError(pairs[i].0, pairs[i].1);
    }
    ErrorRateZeroIff(pairs);
  }

  /** Every prediction of the opposite sign: the rate is 100. */
  lemma AllOpposingRateIsHundred(pairs: seq<Pair>)
    requires pairs != []
    requires forall i :: 0 <= i < |pairs| ==> Opposes(pairs[i].0, pairs[i].1)
    ensures ErrorRateOf(pairs) == Success(Finite(100.0))
  {
    forall i | 0 <= i < |pairs| ensures IsError(pairs[i].0, pairs[i].1) {
      OpposingIsError(pairs[i].0, pairs[i].1);
    }
    ErrorRateHundredIff(pairs);
  }

  /** With no pairs at all, the rate's division by zero fails. */
  lemma ErrorRateOfNoPairs(predictions: seq<Float>, labels: seq<real>)
    requires predictions == [] || labels == []
    ensures ErrorRateOf(Zip(predictions, labels)) == Failure(ZeroDivisionError)
  {
  }

  /** Labels 1, -1, 1, -1 against predictions 0.5, 0.5, -0.5, -0.5: the
      products are 0.5, -0.5, -0.5, 0.5, two errors in four, rate 50. */
  lemma ErrorRateHalfExample()
    ensures ErrorRateOf(Zip([Finite(0.5), Finite(0.5), Finite(-0.5), Finite(-0.5)],
                            [1.0, -1.0, 1.0, -1.0])) == Success(Finite(50.0))
  {
    var pairs := Zip([Finite(0.5), Finite(0.5), Finite(-0.5), Finite(-0.5)], [1.0, -1.0, 1.0, -1.0]);
    assert pairs == [(Finite(0.5), 1.0), (Finite(0.5), -1.0), (Finite(-0.5), 1.0), (Finite(-0.5), -1.0)];
    assert !IsError(pairs[0].0, pairs[0].1) && IsError(pairs[1].0, pairs[1].1);
    assert IsError(pairs[2].0, pairs[2].1) && !IsError(pairs[3].0, pairs[3].1);
    ErrorCountIsCardinality(pairs);
    assert ErrorIndices(pairs) == {1, 2};
  }

  // ---------------------------------------------------------------------
  // The mean squared error and its root

  ghost predicate AllFinite(pairs: seq<Pair>) {
    forall i :: 0 <= i < |pairs| ==> pairs[i].0.Finite?
  }

  ghost predicate AllExact(pairs: seq<Pair>) {
    forall i :: 0 <= i < |pairs| ==> pairs[i].0 == Finite(pairs[i].1)
  }

  ghost predicate HasNaN(pairs: seq<Pair>) {
    exists i :: 0 <= i < |pairs| && pairs[i].0.NaN?
  }

  /** The squared error of a finite prediction is a non-negative number,
      positive exactly when the prediction misses its label. */
  lemma SquaredErrorOfFinite(pair: Pair)
    requires pair.0.Finite?
    ensures SquaredError(pair).Finite? && SquaredError(pair).r >= 0.0
    ensures SquaredError(pair).r == 0.0 <==> pair.0 == Finite(pair.1)
  {
    SquaredSign(pair.0.r - pair.1);
  }

  /** With finite predictions the sum of squares is a finite non-negative
      number, zero exactly when every prediction equals its label. */
  lemma {:induction false} SquaredErrorSumFinite(pairs: seq<Pair>)
    requires AllFinite(pairs)
    ensures SquaredErrorSum(pairs).Finite?
    ensures SquaredErrorSum(pairs).r >= 0.0
    ensures SquaredErrorSum(pairs).r == 0.0 <==> AllExact(pairs)
  {
    if pairs != [] {
      var init, last := Init(pairs), Last(pairs);
      assert AllFinite(init);
      SquaredErrorSumFinite(init);
      SquaredErrorOfFinite(last);
      var before, sq := SquaredErrorSum(init).r, SquaredError(last).r;
      assert SquaredErrorSum(pairs) == Finite(before + sq);
      assert before + sq == 0.0 <==> before == 0.0 && sq == 0.0;
      AllExactSnoc(pairs);
    }
  }

  lemma AllExactSnoc(pairs: seq<Pair>)
    requires pairs != []
    ensures AllExact(pairs) <==> AllExact(Init(pairs)) && Last(pairs).0 == Finite(Last(pairs).1)
  {
    var init := Init(pairs);
    if AllExact(init) && Last(pairs).0 == Finite(Last(pairs).1) {
      forall i | 0 <= i < |pairs| ensures pairs[i].0 == Finite(pairs[i].1) {
        if i < |init| { assert pairs[i] == init[i]; }
      }
    }
  }

  /** Non-finite predictions propagate: any NaN makes the sum NaN; otherwise
      any infinity makes it +inf. */
  lemma {:induction false} SquaredErrorSumNonFinite(pairs: seq<Pair>)
    ensures SquaredErrorSum(pairs).NaN? <==> HasNaN(pairs)
    ensures SquaredErrorSum(pairs).PosInf? <==> !HasNaN(pairs) && !AllFinite(pairs)
    ensures SquaredErrorSum(pairs).Finite? <==> AllFinite(pairs)
  {
    if pairs != [] {
      var init, last := Init(pairs), Last(pairs);
      SquaredErrorSumNonFinite(init);
      assert HasNaN(pairs) <==> HasNaN(init) || last.0.NaN? by {
        if HasNaN(pairs) {
          var i :| 0 <= i < |pairs| && pairs[i].0.NaN?;
          if i < |init| { assert init[i] == pairs[i]; }
        }
        if HasNaN(init) {
          var i :| 0 <= i < |init| && init[i].0.NaN?;
          assert pairs[i] == init[i];
        }
      }
      assert AllFinite(pairs) <==> AllFinite(init) && last.0.Finite?;
    }
  }

  /** The mean squared error over finite predictions is non-negative, and
      zero exactly when every prediction equals its label. */
  lemma MeanSquaredErrorZeroIff(pairs: seq<Pair>)
    requires pairs != [] && AllFinite(pairs)
    ensures MeanSquaredError(pairs).Finite?
    ensures MeanSquaredError(pairs).r >= 0.0
    ensures MeanSquaredError(pairs).r == 0.0 <==> AllExact(pairs)
  {
    SquaredErrorSumFinite(pairs);
    var s, n := SquaredErrorSum(pairs).r, |pairs| as real;
    QuotientSign(s, n);
    assert MeanSquaredError(pairs) == Finite(s / n);
  }

  lemma QuotientSign(a: real, b: real)
    requires 0.0 <= a && 0.0 < b
    ensures 0.0 <= a / b
    ensures a / b == 0.0 <==> a == 0.0
  {
    assert a / b * b == a;
  }

  /** The root mean squared error over finite predictions is a non-negative
      number, zero exactly when every prediction equals its label. */
  lemma RmseZeroIff(pairs: seq<Pair>, root: real -> real)
    requires IsSqrt(root)
    requires pairs != [] && AllFinite(pairs)
    ensures RmseOf(pairs, root).Success? && RmseOf(pairs, root).value.Finite?
    ensures RmseOf(pairs, root).value.r >= 0.0
    ensures RmseOf(pairs, root).value.r == 0.0 <==> AllExact(pairs)
  {
    MeanSquaredErrorZeroIff(pairs);
    var m := MeanSquaredError(pairs).r;
    assert root(m) >= 0.0 && Squared(root(m)) == m;
    SquaredSign(root(m));
  }

  /** A non-finite prediction makes the root mean squared error NaN or +inf:
      NaN when some prediction is NaN, +inf otherwise. */
  lemma RmseNonFinite(pairs: seq<Pair>, root: real -> real)
    requires pairs != [] && !AllFinite(pairs)
    ensures RmseOf(pairs, root).Success?
    ensures RmseOf(pairs, root).value == if HasNaN(pairs) then NaN else PosInf
  {
    SquaredErrorSumNonFinite(pairs);
  }

  /** For any true square root, the rmse of a non-empty input is exactly 0
      when, and only when, every prediction equals its label. */
  lemma RmseZeroIffExact(pairs: seq<Pair>, root: real -> real)
    requires IsSqrt(root)
    requires pairs != []
    ensures RmseOf(pairs, root) == Success(Finite(0.0)) <==> AllExact(pairs)
  {
    if AllFinite(pairs) {
      RmseZeroIff(pairs, root);
    } else {
      RmseNonFinite(pairs, root);
      assert !AllExact(pairs) by {
        var i :| 0 <= i < |pairs| && !pairs[i].0.Finite?;
        assert pairs[i].0 != Finite(pairs[i].1);
      }
    }
  }

  /** With no pairs at all, the mean's division by zero fails. */
  lemma RmseOfNoPairs(predictions: seq<Float>, labels: seq<real>, root: real -> real)
    requires predictions == [] || labels == []
    ensures RmseOf(Zip(predictions, labels), root) == Failure(ZeroDivisionError)
  {
  }

  /** Predictions equal to the labels 1, -1, 1, -1: the error is 0. */
  lemma RmseExactExample(root: real -> real)
    requires IsSqrt(root)
    ensures RmseOf(Zip([Finite(1.0), Finite(-1.0), Finite(1.0), Finite(-1.0)],
                       [1.0, -1.0, 1.0, -1.0]), root) == Success(Finite(0.0))
  {
    var pairs := Zip([Finite(1.0), Finite(-1.0), Finite(1.0), Finite(-1.0)], [1.0, -1.0, 1.0, -1.0]);
    assert AllFinite(pairs) && AllExact(pairs);
    RmseZeroIff(pairs, root);
  }

  // ---------------------------------------------------------------------
  // The cost

  /** With no pairs the cost is its starting value, 0. */
  lemma CostOfNoPairs(predictions: seq<Float>, labels: seq<real>, loss: (Float, real) -> real)
    requires predictions == [] || labels == []
    ensures CostSum(Zip(predictions, labels), loss) == 0.0
  {
  }

  /** The cost of a concatenation of pairs is the sum of the two costs. */
  lemma {:induction false} CostSumAppend(a: seq<Pair>, b: seq<Pair>, loss: (Float, real) -> real)
    ensures CostSum(a + b, loss) == CostSum(a, loss) + CostSum(b, loss)
  {
    if b == [] {
      assert a + b == a;
    } else {
      assert Init(a + b) == a + Init(b);
      CostSumAppend(a, Init(b), loss);
    }
  }

  /** Pairing two concatenations whose first halves line up pairs each half. */
  lemma ZipAppend(ps1: seq<Float>, ys1: seq<real>, ps2: seq<Float>, ys2: seq<real>)
    requires |ps1| == |ys1|
    ensures Zip(ps1 + ps2, ys1 + ys2) == Zip(ps1, ys1) + Zip(ps2, ys2)
  {
  }

  /** Evaluating the cost over one dataset followed by another adds up. */
  lemma CostOfConcatenation(ps1: seq<Float>, ys1: seq<real>, ps2: seq<Float>, ys2: seq<real>, loss: (Float, real) -> real)
    requires |ps1| == |ys1|
    ensures CostSum(Zip(ps1 + ps2, ys1 + ys2), loss)
         == CostSum(Zip(ps1, ys1), loss) + CostSum(Zip(ps2, ys2), loss)
  {
    ZipAppend(ps1, ys1, ps2, ys2);
    CostSumAppend(Zip(ps1, ys1), Zip(ps2, ys2), loss);
  }

  /** The cost is the sum of every pair's loss: one pair at a time from the front. */
  lemma {:induction false} CostSumFromFront(pairs: seq<Pair>, loss: (Float, real) -> real)
    requires pairs != []
    ensures CostSum(pairs, loss) == loss(pairs[0].0, pairs[0].1) + CostSum(pairs[1..], loss)
  {
    assert pairs == [pairs[0]] + pairs[1..];
    CostSumAppend([pairs[0]], pairs[1..], loss);
  }
}
