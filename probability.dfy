/** The logistic-regression estimate of the harvest-mouse calculator and its
    certainty flag. The exponent z is a fixed polynomial in the base-10
    logarithms of the measurements, the sex indicator (male 0, female 1) and
    the reproductive indicator (non-reproductive 0, reproductive 1); the
    estimate is 1 / (1 + e^(-z)).

    `Math.exp` has no counterpart here: it is passed in as a function `exp`
    that is only assumed, where a statement needs it, to be positive and
    increasing. */
module Probability {

  datatype Sex = Male | Female
  datatype Repro = NonReproductive | Reproductive

  /** The sex indicator as the parameter documentation gives it: male 0, female 1. */
  function SexIndicator(s: Sex): real {
    match s
    case Male => 0.0
    case Female => 1.0
  }

  /** The reproductive indicator as documented: non-reproductive 0, reproductive 1. */
  function ReproIndicator(r: Repro): real {
    match r
    case NonReproductive => 0.0
    case Reproductive => 1.0
  }

  /** Certainty flag shown beside the estimate. */
  datatype Certainty = Low | Acceptable

  /** Exponent of `probWithDiam`, term for term. Within each of the four sex
      and reproductive groups it is an affine function of the log
      measurements, with the folded coefficients of `WithDiamLine`. */
  function ExponentWithDiam(ld: real, lt: real, lb: real, sex: Sex, repro: Repro): (z: real)
    ensures z == Evaluate(WithDiamLine(sex, repro), ld, lt, lb)
  {
    var s := SexIndicator(sex);
    var r := ReproIndicator(repro);
    -176.6804749
    + 134.8900487 * lt
    + -64.98908781 * lt * s
    + -36.24677334 * lb
    + -12.94430661 * lb * r
    + -26.64893326 * ld
    + 36.88839651 * ld * s
    + 72.58639553 * ld * r
    + 110.9957523 * s
  }

  /** Exponent of `probNoDiam`, term for term. Within each group it is an
      affine function of the log lengths, with the folded coefficients of
      `NoDiamLine`. */
  function ExponentNoDiam(lt: real, lb: real, sex: Sex, repro: Repro): (z: real)
    ensures z == Evaluate(NoDiamLine(sex, repro), 0.0, lt, lb)
  {
    var s := SexIndicator(sex);
    var r := ReproIndicator(repro);
    -131.3871789
    + 107.8989853 * lt
    + -38.00935259 * lb
    + 85.46575696 * s
    + -86.8588366 * r
    + -45.67206005 * lt * s
    + 45.99885482 * lt * r
  }

  /** An affine form in the three log measurements. */
  datatype Line = Line(constant: real, tailDiameter: real, tailLength: real, bodyLength: real)

  function Evaluate(c: Line, ld: real, lt: real, lb: real): real {
    c.constant + c.tailDiameter * ld + c.tailLength * lt + c.bodyLength * lb
  }

  /** The diameter-page exponent for one group of specimens, with the sex and
      reproductive terms folded into the coefficients. */
  function WithDiamLine(sex: Sex, repro: Repro): Line {
    match (sex, repro)
    case (Male, NonReproductive) => Line(-176.6804749, -26.64893326, 134.8900487, -36.24677334)
    case (Female, NonReproductive) => Line(-65.6847226, 10.23946325, 69.90096089, -36.24677334)
    case (Male, Reproductive) => Line(-176.6804749, 45.93746227, 134.8900487, -49.19107995)
    case (Female, Reproductive) => Line(-65.6847226, 82.82585878, 69.90096089, -49.19107995)
  }

  /** The no-diameter exponent for one group of specimens. */
  function NoDiamLine(sex: Sex, repro: Repro): Line {
    match (sex, repro)
    case (Male, NonReproductive) => Line(-131.3871789, 0.0, 107.8989853, -38.00935259)
    case (Female, NonReproductive) => Line(-45.92142194, 0.0, 62.22692525, -38.00935259)
    case (Male, Reproductive) => Line(-218.2460155, 0.0, 153.89784012, -38.00935259)
    case (Female, Reproductive) => Line(-132.78025854, 0.0, 108.22578007, -38.00935259)
  }

  /** `exp` is everywhere positive, as e^x is. */
  ghost predicate Positive(exp: real -> real) {
    forall x :: exp(x) > 0.0
  }

  /** `exp` is increasing, as e^x is. */
  ghost predicate Increasing(exp: real -> real) {
    forall x, y :: x <= y ==> exp(x) <= exp(y)
  }

  /** The logistic function 1 / (1 + e^(-z)) of the exponent z. */
  function Logistic(z: real, exp: real -> real): (p: real)
    requires Positive(exp)
    ensures 0.0 < p < 1.0
  {
    1.0 / (1.0 + exp(-z))
  }

  /** Low certainty exactly when the unrounded estimate lies in [0.4, 0.7],
      both ends included. */
  function CertaintyOf(p: real): (c: Certainty)
    ensures c == Low <==> 0.4 <= p && p <= 0.7
    ensures c == Acceptable <==> p < 0.4 || 0.7 < p
  {
    if p >= 0.4 && p <= 0.7 then Low else Acceptable
  }

  /** Read back through the logistic function, low certainty is the band
      3/7 <= e^(-z) <= 3/2 of the exponent. */
  lemma LowCertaintyBand(z: real, exp: real -> real)
    requires Positive(exp)
    ensures CertaintyOf(Logistic(z, exp)) == Low <==> 3.0 / 7.0 <= exp(-z) <= 3.0 / 2.0
  {
    var e := exp(-z);
    var p := Logistic(z, exp);
    assert p * (1.0 + e) == 1.0;
    assert 0.4 <= p <==> e <= 1.5 by {
      if 0.4 <= p { assert 0.4 * (1.0 + e) <= p * (1.0 + e); }
      if e <= 1.5 { assert p * (1.0 + e) <= p * 2.5; }
    }
    assert p <= 0.7 <==> 3.0 / 7.0 <= e by {
      if p <= 0.7 { assert p * (1.0 + e) <= 0.7 * (1.0 + e); }
      if 3.0 / 7.0 <= e { assert p * (1.0 + 3.0 / 7.0) <= p * (1.0 + e); }
    }
  }

  /** A larger exponent never gives a smaller estimate. */
  lemma LogisticMonotone(z1: real, z2: real, exp: real -> real)
    requires Positive(exp) && Increasing(exp)
    requires z1 <= z2
    ensures Logistic(z1, exp) <= Logistic(z2, exp)
  {
    var e1, e2 := exp(-z1), exp(-z2);
    assert e2 <= e1;
    var p1, p2 := Logistic(z1, exp), Logistic(z2, exp);
    assert p1 * (1.0 + e1) == 1.0 && p2 * (1.0 + e2) == 1.0;
    assert p1 * (1.0 + e2) <= p1 * (1.0 + e1);
  }

  /** Without a diameter, in every group a longer tail never lowers the
      estimate and a longer body never raises it. */
  lemma NoDiamEstimateMonotone(lt1: real, lb1: real, lt2: real, lb2: real, sex: Sex, repro: Repro, exp: real -> real)
    requires Positive(exp) && Increasing(exp)
    requires lt1 <= lt2 && lb2 <= lb1
    ensures Logistic(ExponentNoDiam(lt1, lb1, sex, repro), exp) <= Logistic(ExponentNoDiam(lt2, lb2, sex, repro), exp)
  {
    var c := NoDiamLine(sex, repro);
    assert c.tailLength > 0.0 && c.bodyLength < 0.0;
    assert c.tailLength * lt1 <= c.tailLength * lt2;
    assert c.bodyLength * lb1 <= c.bodyLength * lb2;
    LogisticMonotone(ExponentNoDiam(lt1, lb1, sex, repro), ExponentNoDiam(lt2, lb2, sex, repro), exp);
  }

  /** On the diameter page, with the diameter fixed, in every group a longer
      tail never lowers the estimate and a longer body never raises it. */
  lemma WithDiamEstimateMonotone(ld: real, lt1: real, lb1: real, lt2: real, lb2: real, sex: Sex, repro: Repro,
                                 exp: real -> real)
    requires Positive(exp) && Increasing(exp)
    requires lt1 <= lt2 && lb2 <= lb1
    ensures Logistic(ExponentWithDiam(ld, lt1, lb1, sex, repro), exp)
         <= Logistic(ExponentWithDiam(ld, lt2, lb2, sex, repro), exp)
  {
    var c := WithDiamLine(sex, repro);
    assert c.tailLength > 0.0 && c.bodyLength < 0.0;
    assert c.tailLength * lt1 <= c.tailLength * lt2;
    assert c.bodyLength * lb1 <= c.bodyLength * lb2;
    LogisticMonotone(ExponentWithDiam(ld, lt1, lb1, sex, repro), ExponentWithDiam(ld, lt2, lb2, sex, repro), exp);
  }
}
