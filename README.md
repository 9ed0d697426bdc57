# Evaluation metrics of bolt, in Dafny

This project models `bolt/eval.py` from the bolt library. That module scores a trained
linear model against a labelled dataset. It walks the model's predictions and the
dataset's labels in lockstep and reduces them to one number. There are four metrics:

- `errorrate`: the misclassification rate of a binary classifier, in percent;
- `rmse`: the root mean squared error of a regressor;
- `cost`: the unnormalised sum of a loss function over the examples;
- `error`: `errorrate` for a classification loss, `rmse` for a regression loss, and
  `ValueError` for any other loss.

Files:

- `floats.dfy` (module `Floats`): the double-precision values the metrics compute with.
  A value is an exact real, +inf, -inf or NaN. The module has numpy's `isinf`, `isnan`
  and `sqrt`, the comparison `<= 0`, and IEEE multiplication, addition, squaring and
  division as they treat infinities and NaN.
- `eval.dfy` (module `Eval`): the four metrics. `Zip` models `izip` and stops at the
  shorter input. Each metric has a specification function over the pairs:
  `CostSum` is recursive, while `ErrorRateOf` and `RmseOf` divide the result of the
  recursive `ErrorCount` and `SquaredErrorSum` by the number of pairs. `errorrate`, `rmse` and `cost` are also loop
  methods (`ErrorRate`, `Rmse`, `Cost`) that update the source's accumulators `n`, `err`
  and `cost`. Each method is proved to compute its specification function. `Error` is a
  method, because it calls the `ErrorRate` and `Rmse` methods.
- `eval_properties.dfy` (module `EvalProperties`): what the metrics promise, proved
  about the specification functions.

The empty input is modelled as the exception the source raises. With no pairs,
`errorrate` and `rmse` divide by `n = 0` and raise `ZeroDivisionError`. The model
returns `Failure(ZeroDivisionError)` in that case; it has no precondition. `cost` on an
empty input returns 0.

The docstring of `rmse` (bolt/eval.py:54) says that it returns the plain sum of
squared errors. The code (bolt/eval.py:61-62) divides that sum by the count and takes
the square root. The model follows the code.

## Model

| member | source | states |
|---|---|---|
| Eval.Zip | bolt/eval.py:38 | izip pairs the i-th prediction with the i-th label and yields exactly as many pairs as the shorter input holds |
| Eval.IsError | bolt/eval.py:39-40 | a pair is an error exactly when the prediction is infinite or NaN, or when the finite product p*y is <= 0 |
| Eval.SquaredError | bolt/eval.py:59 | `(p - y) ** 2.0` is NaN exactly when p is NaN, +inf exactly when p is infinite, and otherwise finite and non-negative |
| Eval.ErrorCount | bolt/eval.py:36-42 | the number of misclassified pairs never exceeds the number of pairs |
| Eval.ErrorRateOf | bolt/eval.py:23-44 | the rate fails with ZeroDivisionError exactly when there are no pairs; otherwise it is a finite value in [0, 100] |
| Eval.ErrorRate | bolt/eval.py:36-44 | the counting loop over the paired inputs computes ErrorRateOf of those pairs, including the ZeroDivisionError on no pairs |
| Eval.SquaredErrorSum | bolt/eval.py:56-60 | the running sum of squared errors is never -inf, and when finite it is non-negative |
| Eval.MeanSquaredError | bolt/eval.py:58-61 | the mean of the squared errors is never -inf, and when finite it is non-negative |
| Eval.RmseOf | bolt/eval.py:46-62 | the root mean squared error fails with ZeroDivisionError exactly when there are no pairs |
| Eval.Rmse | bolt/eval.py:56-62 | the accumulating loop, the division by n and the square root compute RmseOf of the paired inputs |
| Eval.CostSum | bolt/eval.py:74-77 | when every per-pair loss is non-negative, the cost is non-negative |
| Eval.Cost | bolt/eval.py:74-77 | the loop that starts at 0 and adds loss.loss(p, y) for each pair computes CostSum of the paired inputs |
| Eval.Error | bolt/eval.py:79-98 | a Classification loss yields exactly the error rate and a Regression loss exactly the root mean squared error; any other loss yields ValueError with the source's message. The result depends only on the loss's category, never on its cost function |
| Floats.IsInf | bolt/eval.py:40 | isinf holds exactly for +inf and -inf, and not for NaN or a finite value |
| Floats.IsNaN | bolt/eval.py:40 | isnan holds exactly for a value that is neither finite nor infinite |
| Floats.AtMostZero | bolt/eval.py:40 | `z <= 0` is false for NaN, true for -inf, false for +inf, and the real comparison for a finite value |
| Floats.Mul | bolt/eval.py:39 | `p*y` is finite exactly when p is, and then the real product; NaN exactly when p is NaN or p is infinite and y is 0; +inf exactly when an infinity is multiplied into a positive product |
| Floats.SubReal | bolt/eval.py:59 | `p - y` is finite exactly when p is, and then differs from p by y; an infinity or NaN is returned unchanged |
| Floats.Add | bolt/eval.py:59 | `err += ...` is finite exactly when both operands are, and then the real sum; NaN exactly when an operand is NaN or the operands are opposite infinities; otherwise the infinity of an infinite operand |
| Floats.DivideBy | bolt/eval.py:61 | `err / n` for a positive n is finite exactly when err is, keeps err's sign, and leaves an infinity or NaN unchanged |
| Floats.Sqrt | bolt/eval.py:62 | `np.sqrt` is NaN exactly for NaN, -inf and a negative finite value, +inf exactly for +inf, never -inf, and for a true square root the non-negative root of a non-negative finite value |
| Floats.Square | bolt/eval.py:59 | `x ** 2.0` is never -inf, and when finite it is non-negative |
| Floats.SquaredSign | bolt/eval.py:59 | the square of a real is non-negative and is zero only for zero |
| EvalProperties.InfiniteAgreeingPredictionIsError | bolt/eval.py:40 | an infinite prediction with the label's sign passes the test `z <= 0`, yet it is still counted as an error |
| EvalProperties.NaNPredictionIsError | bolt/eval.py:40 | NaN never satisfies `z <= 0`, yet a NaN prediction is counted as an error |
| EvalProperties.ZeroPredictionIsError | bolt/eval.py:27 | a zero prediction is an error for every label |
| EvalProperties.AgreeingIsNoError | bolt/eval.py:39-40 | a finite prediction with the sign of a non-zero label is not an error |
| EvalProperties.OpposingIsError | bolt/eval.py:39-40 | a finite prediction with the sign opposite to the label's is an error |
| EvalProperties.ErrorCountIsCardinality | bolt/eval.py:34 | the running count equals the number of positions whose pair is an error |
| EvalProperties.ErrorCountZeroIff | bolt/eval.py:38-42 | the count is 0 exactly when no pair is an error |
| EvalProperties.ErrorCountFullIff | bolt/eval.py:38-42 | the count equals the number of pairs exactly when every pair is an error |
| EvalProperties.ErrorRateZeroIff | bolt/eval.py:43-44 | on a non-empty input the rate is 0 exactly when no pair is an error |
| EvalProperties.ErrorRateHundredIff | bolt/eval.py:43-44 | on a non-empty input the rate is 100 exactly when every pair is an error |
| EvalProperties.AllAgreeingRateIsZero | bolt/eval.py:27 | if every prediction is finite and has its label's sign, the rate is 0 |
| EvalProperties.AllOpposingRateIsHundred | bolt/eval.py:27 | if every prediction is finite and has the sign opposite to its label's, the rate is 100 |
| EvalProperties.ErrorRateOfNoPairs | bolt/eval.py:43 | with no predictions or no labels, errorrate raises ZeroDivisionError |
| EvalProperties.ErrorRateHalfExample | bolt/eval.py:38-44 | labels 1, -1, 1, -1 against predictions 0.5, 0.5, -0.5, -0.5 give a rate of 50 |
| EvalProperties.SquaredErrorOfFinite | bolt/eval.py:59 | a finite prediction's squared error is finite and non-negative, and it is zero exactly when the prediction equals the label |
| EvalProperties.SquaredErrorSumFinite | bolt/eval.py:57-60 | with finite predictions the sum of squares is finite and non-negative, and it is zero exactly when every prediction equals its label |
| EvalProperties.SquaredErrorSumNonFinite | bolt/eval.py:59 | the sum is NaN exactly when some prediction is NaN, +inf exactly when there is no NaN but some infinity, and finite exactly when every prediction is finite |
| EvalProperties.MeanSquaredErrorZeroIff | bolt/eval.py:58-61 | with finite predictions the mean squared error is finite and non-negative, and it is zero exactly when every prediction equals its label |
| EvalProperties.RmseZeroIff | bolt/eval.py:58-62 | for any true square root, with finite predictions the rmse is finite and non-negative, and it is zero exactly when every prediction equals its label |
| EvalProperties.RmseZeroIffExact | bolt/eval.py:58-62 | for any true square root, the rmse of a non-empty input is exactly 0 when, and only when, every prediction equals its label (an infinite or NaN prediction never gives 0) |
| EvalProperties.RmseNonFinite | bolt/eval.py:59-62 | a non-finite prediction makes the rmse NaN if some prediction is NaN, and +inf otherwise |
| EvalProperties.RmseOfNoPairs | bolt/eval.py:61 | with no predictions or no labels, rmse raises ZeroDivisionError |
| EvalProperties.RmseExactExample | bolt/eval.py:56-62 | predictions equal to the labels 1, -1, 1, -1 give an rmse of 0 |
| EvalProperties.CostOfNoPairs | bolt/eval.py:74-77 | with no predictions or no labels, the cost is its starting value 0, and no error is raised |
| EvalProperties.CostSumAppend | bolt/eval.py:74-77 | the cost of two sequences of pairs placed one after the other is the sum of their costs |
| EvalProperties.ZipAppend | bolt/eval.py:75 | pairing two concatenations whose first parts have equal length gives the concatenation of the two pairings |
| EvalProperties.CostOfConcatenation | bolt/eval.py:74-77 | the cost over one dataset followed by another is the sum of the two costs |
| EvalProperties.CostSumFromFront | bolt/eval.py:75-76 | the cost is the first pair's loss plus the cost of the remaining pairs |

## Left out

- Rounding and overflow of double-precision arithmetic: finite values are exact reals. A sum of squares that overflows to +inf, or a product that underflows to 0, is not modelled.
- `np.sqrt` on reals is the parameter `root`. The lemmas about the rmse assume only that `root` returns the non-negative square root of a non-negative argument (`IsSqrt`).
- `model.predict`, `ds.iterinstances` and `ds.iterlabels` are not part of this model. The metrics take the prediction sequence and the label sequence as given, and the loop walks them by index. Lazy iteration and memory use are not observable in this model.
- `loss.loss` is the function-valued field `loss` of the `Loss` value, and it returns a real. A loss that returns inf or NaN, or that raises, is not modelled.
- The class hierarchy behind `isinstance(loss, bolt.Classification)` and `isinstance(loss, bolt.Regression)` is reduced to the tag `Category`, with `Other` for any other loss object. A loss that is an instance of both classes is not modelled; the source would pick Classification for it.
- Labels are finite reals. The source does not check that classification labels are 1 or -1, and neither does the model.
- Python's int/float distinction: `cost` over no pairs returns the integer `0`; the model returns the real 0.
