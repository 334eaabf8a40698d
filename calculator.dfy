/** The two entry points of the harvest-mouse calculator, `calcWithDiam` and
    `calcNoDiam`: validate the raw measurements and, only if they pass,
    classify the specimen and estimate the probability with its certainty
    flag. What the page shows is returned as a value instead.

    `Math.log10` and `Math.exp` are passed in as the functions `log10` and
    `exp`. As in the source, the logarithms are taken of the raw values before
    validation, but nothing computed from them reaches the outcome of a
    rejected input. */
module Calculator {
  import opened Validation
  import opened Classification
  import opened Probability

  /** What the result area shows after a successful calculation. */
  datatype Report = Report(species: Species, probability: real, certainty: Certainty)

  /** Either the field whose alert was raised, or the full report. */
  datatype Outcome = Rejected(field: Field) | Reported(report: Report)

  /** The report for a classification outcome and a logistic exponent. */
  function ReportFor(species: Species, z: real, exp: real -> real): (r: Report)
    requires Positive(exp)
    ensures r.species == species
    ensures r.probability == Logistic(z, exp) && 0.0 < r.probability < 1.0
    ensures r.certainty == Low <==> 0.4 <= r.probability <= 0.7
  {
    var p := Logistic(z, exp);
    Report(species, p, CertaintyOf(p))
  }

  /** `calcWithDiam`: reject on the first bad field; otherwise classify and
      estimate from the log10 of tail diameter, tail length and body length. */
  function CalcWithDiam(tdiam: real, tlength: real, blength: real, sex: Sex, repro: Repro,
                        log10: real -> real, exp: real -> real): (r: Outcome)
    requires Positive(exp)
    ensures r.Rejected? <==> !(tdiam > 0.0 && tlength > 0.0 && blength > 0.0)
    ensures r.Rejected? ==> VerifyWithDiam(tdiam, tlength, blength) == Err(r.field)
    ensures r.Reported? ==>
      var ld, lt, lb := log10(tdiam), log10(tlength), log10(blength);
      && r.report.species == ClassifyWithDiam(ld, lt, lb)
      && r.report.probability == Logistic(ExponentWithDiam(ld, lt, lb, sex, repro), exp)
      && r.report.certainty == CertaintyOf(r.report.probability)
  {
    var ld, lt, lb := log10(tdiam), log10(tlength), log10(blength);
    match VerifyWithDiam(tdiam, tlength, blength)
    case Err(f) => Rejected(f)
    case Ok => Reported(ReportFor(ClassifyWithDiam(ld, lt, lb), ExponentWithDiam(ld, lt, lb, sex, repro), exp))
  }

  /** `calcNoDiam`: reject on the first bad field; otherwise classify and
      estimate from the log10 of tail length and body length. */
  function CalcNoDiam(tlength: real, blength: real, sex: Sex, repro: Repro,
                      log10: real -> real, exp: real -> real): (r: Outcome)
    requires Positive(exp)
    ensures r.Rejected? <==> !(tlength > 0.0 && blength > 0.0)
    ensures r.Rejected? ==> VerifyNoDiam(tlength, blength) == Err(r.field)
    ensures r.Reported? ==>
      var lt, lb := log10(tlength), log10(blength);
      && r.report.species == ClassifyNoDiam(lt, lb)
      && r.report.probability == Logistic(ExponentNoDiam(lt, lb, sex, repro), exp)
      && r.report.certainty == CertaintyOf(r.report.probability)
  {
    var lt, lb := log10(tlength), log10(blength);
    match VerifyNoDiam(tlength, blength)
    case Err(f) => Rejected(f)
    case Ok => Reported(ReportFor(ClassifyNoDiam(lt, lb), ExponentNoDiam(lt, lb, sex, repro), exp))
  }

  /** A rejected input is reported before any scoring: the outcome names the
      first bad field and is the same whatever `log10` and `exp` compute, so
      neither the classification nor the estimate reaches it. */
  lemma WithDiamRejectionIgnoresScoring(tdiam: real, tlength: real, blength: real, sex1: Sex, repro1: Repro,
                                        sex2: Sex, repro2: Repro, log1: real -> real, exp1: real -> real,
                                        log2: real -> real, exp2: real -> real)
    requires Positive(exp1) && Positive(exp2)
    requires VerifyWithDiam(tdiam, tlength, blength).Err?
    ensures CalcWithDiam(tdiam, tlength, blength, sex1, repro1, log1, exp1)
         == CalcWithDiam(tdiam, tlength, blength, sex2, repro2, log2, exp2)
         == Rejected(VerifyWithDiam(tdiam, tlength, blength).field)
  {
  }

  /** The same short-circuit on the page without a diameter. */
  lemma NoDiamRejectionIgnoresScoring(tlength: real, blength: real, sex1: Sex, repro1: Repro,
                                      sex2: Sex, repro2: Repro, log1: real -> real, exp1: real -> real,
                                      log2: real -> real, exp2: real -> real)
    requires Positive(exp1) && Positive(exp2)
    requires VerifyNoDiam(tlength, blength).Err?
    ensures CalcNoDiam(tlength, blength, sex1, repro1, log1, exp1)
         == CalcNoDiam(tlength, blength, sex2, repro2, log2, exp2)
         == Rejected(VerifyNoDiam(tlength, blength).field)
  {
  }

  /** A zero tail length (as a blank field arrives) on the page without a
      diameter is rejected naming the tail length, whatever the body length. */
  lemma NoDiamBlankTailLength(blength: real, sex: Sex, repro: Repro, log10: real -> real, exp: real -> real)
    requires Positive(exp)
    ensures CalcNoDiam(0.0, blength, sex, repro, log10, exp) == Rejected(TailLength)
  {
  }

  /** On an accepted input the certainty flag is low exactly when e^(-z) lies
      in [3/7, 3/2], z being the diameter-page exponent. */
  lemma WithDiamLowCertainty(tdiam: real, tlength: real, blength: real, sex: Sex, repro: Repro,
                             log10: real -> real, exp: real -> real)
    requires Positive(exp)
    requires tdiam > 0.0 && tlength > 0.0 && blength > 0.0
    ensures CalcWithDiam(tdiam, tlength, blength, sex, repro, log10, exp).Reported?
    ensures var z := ExponentWithDiam(log10(tdiam), log10(tlength), log10(blength), sex, repro);
      CalcWithDiam(tdiam, tlength, blength, sex, repro, log10, exp).report.certainty == Low
      <==> 3.0 / 7.0 <= exp(-z) <= 3.0 / 2.0
  {
    LowCertaintyBand(ExponentWithDiam(log10(tdiam), log10(tlength), log10(blength), sex, repro), exp);
  }

  /** The same reading of the certainty flag on the page without a diameter. */
  lemma NoDiamLowCertainty(tlength: real, blength: real, sex: Sex, repro: Repro,
                           log10: real -> real, exp: real -> real)
    requires Positive(exp)
    requires tlength > 0.0 && blength > 0.0
    ensures CalcNoDiam(tlength, blength, sex, repro, log10, exp).Reported?
    ensures var z := ExponentNoDiam(log10(tlength), log10(blength), sex, repro);
      CalcNoDiam(tlength, blength, sex, repro, log10, exp).report.certainty == Low
      <==> 3.0 / 7.0 <= exp(-z) <= 3.0 / 2.0
  {
    LowCertaintyBand(ExponentNoDiam(log10(tlength), log10(blength), sex, repro), exp);
  }
}
