/** Evaluation metrics of a linear model against a labelled dataset: the
    misclassification rate, the root mean squared error, the cost under a loss
    function, and the choice between the first two by the loss's category.

    The model's predictions and the dataset's labels arrive as two sequences;
    the metrics walk them in lockstep and stop at the shorter one. */
module Eval {
  import opened Floats

  /** One (prediction, label) pair. */
  type Pair = (Float, real)

  /** The two problem categories a loss function can belong to; `Other`
      stands for a loss object of neither kind. */
  datatype Category = Classification | Regression | Other

  /** A loss function: its category and its per-example cost. */
  datatype Loss = Loss(category: Category, loss: (Float, real) -> real)

  /** The two exceptions a metric can raise. */
  datatype EvalError = ZeroDivisionError | ValueError(message: string)

  datatype Result<T> = Success(value: T) | Failure(error: EvalError)

  const LossCategoryMessage: string := "lm.loss: either Regression or Classification loss expected"

  function Min(a: nat, b: nat): nat {
    if a <= b then a else b
  }

  /** The pairs that izip yields: the i-th prediction with the i-th label, as
      many as the shorter of the two sequences holds. */
  function Zip(predictions: seq<Float>, labels: seq<real>): (pairs: seq<Pair>)
    ensures |pairs| <= |predictions| && |pairs| <= |labels|
    ensures |pairs| == |predictions| || |pairs| == |labels|
    ensures forall i :: 0 <= i < |pairs| ==> pairs[i] == (predictions[i], labels[i])
  {
    var n := Min(|predictions|, |labels|);
    seq(n, i requires 0 <= i < n => (predictions[i], labels[i]))
  }

  function Last(pairs: seq<Pair>): Pair
    requires pairs != []
  {
    pairs[|pairs| - 1]
  }

  function Init(pairs: seq<Pair>): seq<Pair>
    requires pairs != []
  {
    pairs[..|pairs| - 1]
  }

  // ---------------------------------------------------------------------
  // Misclassification rate

  /** The zero/one loss of one pair: a prediction that is infinite or NaN is
      always wrong; otherwise it is wrong when `p*y <= 0`. */
  predicate IsError(p: Float, y: real): (b: bool)
    ensures b <==> !p.Finite? || p.r * y <= 0.0
  {
    var z := Mul(p, y);
    IsInf(p) || IsNaN(p) || AtMostZero(z)
  }

  /** The number of misclassified pairs. */
  function ErrorCount(pairs: seq<Pair>): (count: nat)
    ensures count <= |pairs|
  {
    if pairs == [] then 0
    else ErrorCount(Init(pairs)) + if IsError(Last(pairs).0, Last(pairs).1) then 1 else 0
  }

  /** The misclassification rate in percent; dividing by zero pairs fails. */
  function ErrorRateOf(pairs: seq<Pair>): (rate: Result<Float>)
    ensures rate.Failure? <==> pairs == []
    ensures rate.Failure? ==> rate.error == ZeroDivisionError
    ensures rate.Success? ==> rate.value.Finite? && 0.0 <= rate.value.r <= 100.0
  {
    if pairs == [] then Failure(ZeroDivisionError)
    else
      var n := |pairs| as real;
      var err := ErrorCount(pairs) as real;
      assert 0.0 <= err / n <= 1.0 by { DivisionAtMostOne(err, n); }
      Success(Finite(err / n * 100.0))
  }

  lemma DivisionAtMostOne(a: real, b: real)
    requires 0.0 <= a <= b && 0.0 < b
    ensures 0.0 <= a / b <= 1.0
  {
    assert a / b * b == a;
  }

  /** errorrate: counts the pairs and the misclassified pairs in one pass. */
  method ErrorRate(predictions: seq<Float>, labels: seq<real>) returns (rate: Result<Float>)
    ensures rate == ErrorRateOf(Zip(predictions, labels))
  {
    ghost var pairs := Zip(predictions, labels);
    var n: nat := 0;
    var err: nat := 0;
    while n < |predictions| && n < |labels|
      invariant n <= |pairs|
      invariant err == ErrorCount(pairs[..n])
    {
      var p, y := predictions[n], labels[n];
      assert pairs[..n + 1] != [] && Init(pairs[..n + 1]) == pairs[..n];
      if IsInf(p) || IsNaN(p) || AtMostZero(Mul(p, y)) {
        err := err + 1;
      }
      n := n + 1;
    }
    assert pairs[..n] == pairs;
    if n == 0 {
      return Failure(ZeroDivisionError);
    }
    var errrate := err as real / n as real;
    rate := Success(Finite(errrate * 100.0));
  }

  // ---------------------------------------------------------------------
  // Root mean squared error

  /** `(p - y) ** 2.0` for one pair. */
  function SquaredError(pair: Pair): (z: Float)
    ensures z.Finite? <==> pair.0.Finite?
    ensures z.NaN? <==> pair.0.NaN?
    ensures z.PosInf? <==> IsInf(pair.0)
    ensures z.Finite? ==> z.r >= 0.0
  {
    Square(SubReal(pair.0, pair.1))
  }

  /** The running sum of squared errors, in the order the pairs arrive. */
  function SquaredErrorSum(pairs: seq<Pair>): (sum: Float)
    ensures !sum.NegInf?
    ensures sum.Finite? ==> sum.r >= 0.0
  {
    if pairs == [] then Finite(0.0)
    else Add(SquaredErrorSum(Init(pairs)), SquaredError(Last(pairs)))
  }

  /** The mean of the squared errors, before the square root. */
  function MeanSquaredError(pairs: seq<Pair>): (mse: Float)
    requires pairs != []
    ensures !mse.NegInf?
    ensures mse.Finite? ==> mse.r >= 0.0
  {
    DivideBy(SquaredErrorSum(pairs), |pairs|)
  }

  /** The root mean squared error; dividing by zero pairs fails. */
  function RmseOf(pairs: seq<Pair>, root: real -> real): (rmse: Result<Float>)
    ensures rmse.Failure? <==> pairs == []
    ensures rmse.Failure? ==> rmse.error == ZeroDivisionError
  {
    if pairs == [] then Failure(ZeroDivisionError)
    else Success(Sqrt(MeanSquaredError(pairs), root))
  }

  /** rmse: accumulates the squared errors, divides by the count, takes the
      square root with `root`. */
  method Rmse(predictions: seq<Float>, labels: seq<real>, root: real -> real) returns (rmse: Result<Float>)
    ensures rmse == RmseOf(Zip(predictions, labels), root)
  {
    ghost var pairs := Zip(predictions, labels);
    var n: nat := 0;
    var err := Finite(0.0);
    while n < |predictions| && n < |labels|
      invariant n <= |pairs|
      invariant err == SquaredErrorSum(pairs[..n])
    {
      var p, y := predictions[n], labels[n];
      assert pairs[..n + 1] != [] && Init(pairs[..n + 1]) == pairs[..n];
      err := Add(err, Square(SubReal(p, y)));
      n := n + 1;
    }
    assert pairs[..n] == pairs;
    if n == 0 {
      return Failure(ZeroDivisionError);
    }
    err := DivideBy(err, n);
    rmse := Success(Sqrt(err, root));
  }

  // ---------------------------------------------------------------------
  // Cost

  /** The unnormalised sum of the per-pair losses. */
  function CostSum(pairs: seq<Pair>, loss: (Float, real) -> real): (total: real)
    ensures (forall i :: 0 <= i < |pairs| ==> 0.0 <= loss(pairs[i].0, pairs[i].1)) ==> total >= 0.0
  {
    if pairs == [] then 0.0
    else CostSum(Init(pairs), loss) + loss(Last(pairs).0, Last(pairs).1)
  }

  /** cost: sums `loss.loss(p, y)` over the pairs, starting at zero; it never
      divides, so an empty input is not an error. */
  method Cost(predictions: seq<Float>, labels: seq<real>, loss: Loss) returns (cost: real)
    ensures cost == CostSum(Zip(predictions, labels), loss.loss)
  {
    ghost var pairs := Zip(predictions, labels);
    cost := 0.0;
    var n: nat := 0;
    while n < |predictions| && n < |labels|
      invariant n <= |pairs|
      invariant cost == CostSum(pairs[..n], loss.loss)
    {
      var p, y := predictions[n], labels[n];
      assert pairs[..n + 1] != [] && Init(pairs[..n + 1]) == pairs[..n];
      cost := cost + loss.loss(p, y);
      n := n + 1;
    }
    assert pairs[..n] == pairs;
  }

  // ---------------------------------------------------------------------
  // Dispatch

  /** error: the misclassification rate for a classification loss, the root
      mean squared error for a regression loss, ValueError for anything else.
      Only the loss's category is read; its cost function is not called. */
  method Error(predictions: seq<Float>, labels: seq<real>, loss: Loss, root: real -> real) returns (err: Result<Float>)
    ensures loss.category == Classification ==> err == ErrorRateOf(Zip(predictions, labels))
    ensures loss.category == Regression ==> err == RmseOf(Zip(predictions, labels), root)
    ensures loss.category == Other ==> err == Failure(ValueError(LossCategoryMessage))
  {
    match loss.category
    case Classification =>
      err := ErrorRate(predictions, labels);
    case Regression =>
      err := Rmse(predictions, labels, root);
    case Other =>
      err := Failure(ValueError(LossCategoryMessage));
  }
}
