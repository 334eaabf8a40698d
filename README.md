# Harvest-mouse calculator, modelled in Dafny

The calculator tells a Salt Marsh Harvest Mouse (SMHM) from a Western Harvest
Mouse (WHM) using morphometric measurements. It has two pages: one with tail
diameter and one without. Each page does three things:

1. It checks that every measurement is strictly positive. It stops at the
   first field that is not and names that field.
2. It computes two linear discriminant scores from the base-10 logarithms of
   the measurements. It names the species with the higher score. An exact tie
   is reported as "Inconclusive".
3. It estimates a probability with a logistic regression, 1 / (1 + e^(-z)),
   where the exponent z depends on the log measurements, sex and reproductive
   status. It flags the estimate as low certainty when it lies in
   [0.4, 0.7], both ends included.

The model is pure. It is split into four modules:

- `Validation` (`validation.dfy`) holds the two validators. It also holds
  `FirstInvalid`, a reference definition of "first non-positive field in a
  fixed order", to which both validators are proved equal.
- `Classification` (`classification.dfy`) holds the two classifiers, with the
  coefficients copied as exact real literals. Each outcome is shown to depend
  only on the sign of the score difference. That gives the decision boundary
  and the monotonicity facts.
- `Probability` (`probability.dfy`) holds the two logistic exponents, term for
  term. Their contracts state that, for each of the four sex and reproductive
  groups, they equal an affine table. This module also holds the logistic function, where
  `Math.exp` is a function parameter, and the certainty flag.
- `Calculator` (`calculator.dfy`) holds the two entry points. Each validates
  first and scores only on success. It returns a rejected field or a report
  made of species, probability and certainty.

Sex and reproductive status are datatypes. Their indicators are male 0,
female 1, and non-reproductive 0, reproductive 1, as the source's parameter
documentation states. `Math.log10` and `Math.exp` are passed in as functions
`log10` and `exp`. Only positivity of `exp` is required by the entry points.
Monotonicity of `exp` is required only by the lemmas that use it.

Two points about the program's code and how the model treats them:

- The validators' comments say they return false "if input is blank or
  greater than zero" (js/calculator.js:4, 10, 90, 95), the reverse of what
  the code does with positive values. The code tests `x <= 0 || x == ""` on a
  Number, so a blank reads as `Number("") == 0` and is rejected as
  non-positive, while NaN passes both tests. The model takes reals, so NaN
  does not arise.
- The classifiers and estimators return nothing (`@return {type} None.`)
  and write into the page instead. The model returns the displayed outcome
  as a value.

## Model

| member | source | states |
|---|---|---|
| Validation.FirstInvalid | js/calculator.js:12-28 | Reference ordered check: Ok iff every entry is positive; otherwise names an entry that is non-positive and is preceded only by positive entries |
| Validation.VerifyWithDiam | js/calculator.js:12-28 | Ok iff diameter, tail length and body length are all > 0; diameter ≤ 0 reports the diameter whatever the rest; else tail length ≤ 0 reports the tail length; else body length ≤ 0 reports the body length |
| Validation.VerifyNoDiam | js/calculator.js:97-109 | Ok iff tail length and body length are both > 0; tail length ≤ 0 reports the tail length whatever the body length; else body length ≤ 0 reports the body length |
| Validation.VerifyWithDiamIsFirstInvalid | js/calculator.js:13-24 | The diameter-page validator equals the first-failure check over the fields in the order diameter, tail length, body length |
| Validation.VerifyNoDiamIsFirstInvalid | js/calculator.js:98-105 | The no-diameter validator equals the first-failure check over tail length, then body length |
| Validation.PagesAgreeOnLengths | js/calculator.js:17-27 | Once the diameter is accepted, both pages give the same verdict on tail and body length |
| Classification.ClassifyWithDiam | js/calculator.js:43-58 | SMHM iff the SMHM score exceeds the WHM score, Inconclusive iff they are equal, WHM iff it is lower (exactly one holds) |
| Classification.ClassifyNoDiam | js/calculator.js:123-138 | The same three-way rule with the no-diameter coefficients; an exact tie is never a species |
| Classification.WithDiamDecidedByMargin | js/calculator.js:44-45 | Score difference is 64.46 lt − 39.27 lb + 24.92 ld − 56.93 and the outcome is its sign |
| Classification.NoDiamDecidedByMargin | js/calculator.js:124-125 | Score difference is 75.789 lt − 33.729 lb − 80.398 and the outcome is its sign |
| Classification.NoDiamBoundary | js/calculator.js:124-136 | For each log body length, Inconclusive exactly at lt = (33.729 lb + 80.398)/75.789, SMHM above it, WHM below |
| Classification.NoDiamMonotoneInTailLength | js/calculator.js:124-125 | With log body length fixed, a longer tail never moves the outcome towards WHM; SMHM stays SMHM; a tie becomes SMHM |
| Classification.NoDiamAntitoneInBodyLength | js/calculator.js:124-125 | With log tail length fixed, a longer body never moves the outcome towards SMHM |
| Classification.WithDiamMonotone | js/calculator.js:44-45 | Longer or thicker tail and shorter body never move the diameter-page outcome towards WHM |
| Classification.NoDiamTieExample | js/calculator.js:130-132 | A constructed tie (lb = 2, lt = 147.856/75.789) gives Inconclusive |
| Probability.ExponentWithDiam | js/calculator.js:76 | The exponent of probWithDiam, term for term; for each sex and reproductive group it equals the affine form with that group's folded coefficients |
| Probability.ExponentNoDiam | js/calculator.js:155 | The exponent of probNoDiam, term for term; for each group it equals the affine form with that group's folded coefficients |
| Probability.Logistic | js/calculator.js:76 | 1/(1 + e^(−z)) lies strictly between 0 and 1 for a positive exp |
| Probability.CertaintyOf | js/calculator.js:78-83 | Low iff 0.4 ≤ p ≤ 0.7 (both ends inclusive), Acceptable iff p < 0.4 or p > 0.7 |
| Probability.LowCertaintyBand | js/calculator.js:155-162 | The estimate is flagged low iff 3/7 ≤ e^(−z) ≤ 3/2 |
| Probability.LogisticMonotone | js/calculator.js:155 | For an increasing exp, a larger exponent never gives a smaller estimate |
| Probability.NoDiamEstimateMonotone | js/calculator.js:155 | In every group, a longer tail never lowers and a longer body never raises the no-diameter estimate |
| Probability.WithDiamEstimateMonotone | js/calculator.js:76 | With the diameter fixed, in every group a longer tail never lowers and a longer body never raises the diameter-page estimate |
| Calculator.ReportFor | js/calculator.js:194-196 | The report carries the given species, the logistic estimate in (0,1), and the certainty flag of that estimate |
| Calculator.CalcWithDiam | js/calculator.js:180-197 | Rejected iff some measurement is ≤ 0, naming the field the validator reports; otherwise species, estimate and flag are those of the log10 measurements |
| Calculator.CalcNoDiam | js/calculator.js:212-227 | Rejected iff tail or body length is ≤ 0, naming the reported field; otherwise species, estimate and flag from the log10 lengths |
| Calculator.WithDiamRejectionIgnoresScoring | js/calculator.js:190-196 | On invalid input the outcome is the validator's field error, the same whatever log10, exp, sex and status are, so no scoring reaches it |
| Calculator.NoDiamRejectionIgnoresScoring | js/calculator.js:220-226 | The same short-circuit on the page without a diameter |
| Calculator.NoDiamBlankTailLength | js/calculator.js:213-222 | A blank (zero) tail length is rejected naming the tail length whatever the body length |
| Calculator.WithDiamLowCertainty | js/calculator.js:186-196 | A valid diameter-page input is reported, and its flag is low iff 3/7 ≤ e^(−z) ≤ 3/2 |
| Calculator.NoDiamLowCertainty | js/calculator.js:217-226 | A valid no-diameter input is reported, and its flag is low iff 3/7 ≤ e^(−z) ≤ 3/2 |

## Left out

- Reading fields from the page, writing `innerHTML`, the HTML and colour strings, and `alert` dialogs are presentation I/O. The model returns the outcome as a value instead.
- Text parsing with `Number(...)` is not modelled. A non-numeric entry becomes NaN and passes the source's checks, because `NaN <= 0` and `NaN == ""` are both false. The model's inputs are reals, so that path is not represented.
- `Math.log10` and `Math.exp` have no counterpart. They are function parameters. `exp` is assumed positive, and increasing where a lemma says so.
- Display rounding with `toFixed(2)` depends on binary floating point and is not modelled. The certainty flag uses the unrounded value, as in the source.
- IEEE double arithmetic is not modelled. Scores, ties and the exponent are exact reals. A tie that floating-point rounding would create or destroy is not reproduced.
- Probability.Logistic: states 0 < p < 1 over reals. In doubles the estimate is exactly 1 once 1 + e^(−z) rounds to 1, which happens for z above about 37. It is exactly 0 once `Math.exp` overflows to Infinity for very negative z.
- Sex and reproductive status are modelled as two-valued datatypes. The model assumes the inputs are 0 or 1, the only values the parameter documentation gives (js/calculator.js:69-70, 148-150). Other numbers are not modelled.
