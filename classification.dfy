/** The discriminant classifiers of the harvest-mouse calculator. Each page
    computes one score per species as a fixed linear combination of the
    base-10 logarithms of the measurements and names the species with the
    higher score; an exact tie is reported as inconclusive.

    The logarithms are inputs: `Math.log10` is not part of this model. */
module Classification {

  /** Outcome of a classification: Salt Marsh Harvest Mouse, Western Harvest
      Mouse, or neither when the two scores are equal. */
  datatype Species = SMHM | WHM | Inconclusive

  /** Orders the outcomes from Western (0) through a tie (1) to Salt Marsh (2). */
  function Rank(s: Species): int {
    match s
    case WHM => 0
    case Inconclusive => 1
    case SMHM => 2
  }

  /** Salt Marsh score from log tail diameter, log tail length and log body length. */
  function SmhmScoreWithDiam(ld: real, lt: real, lb: real): real {
    1658.63 * lt + 1251.43 * lb - 1356.23 * ld - 2483.19
  }

  /** Western score from log tail diameter, log tail length and log body length. */
  function WhmScoreWithDiam(ld: real, lt: real, lb: real): real {
    1594.17 * lt + 1290.70 * lb - 1381.15 * ld - 2426.26
  }

  /** Salt Marsh score from log tail length and log body length. */
  function SmhmScoreNoDiam(lt: real, lb: real): real {
    1022.109 * lt + 898.421 * lb - 1784.748
  }

  /** Western score from log tail length and log body length. */
  function WhmScoreNoDiam(lt: real, lb: real): real {
    946.32 * lt + 932.15 * lb - 1704.35
  }

  /** `speciesWithDiam`: exactly one of the three outcomes, chosen by
      comparing the two scores. */
  function ClassifyWithDiam(ld: real, lt: real, lb: real): (r: Species)
    ensures r == SMHM <==> SmhmScoreWithDiam(ld, lt, lb) > WhmScoreWithDiam(ld, lt, lb)
    ensures r == Inconclusive <==> SmhmScoreWithDiam(ld, lt, lb) == WhmScoreWithDiam(ld, lt, lb)
    ensures r == WHM <==> SmhmScoreWithDiam(ld, lt, lb) < WhmScoreWithDiam(ld, lt, lb)
  {
    var smhm := SmhmScoreWithDiam(ld, lt, lb);
    var whm := WhmScoreWithDiam(ld, lt, lb);
    if smhm > whm then SMHM
    else if smhm == whm then Inconclusive
    else WHM
  }

  /** `speciesNoDiam`: the same three-way rule over the scores without diameter. */
  function ClassifyNoDiam(lt: real, lb: real): (r: Species)
    ensures r == SMHM <==> SmhmScoreNoDiam(lt, lb) > WhmScoreNoDiam(lt, lb)
    ensures r == Inconclusive <==> SmhmScoreNoDiam(lt, lb) == WhmScoreNoDiam(lt, lb)
    ensures r == WHM <==> SmhmScoreNoDiam(lt, lb) < WhmScoreNoDiam(lt, lb)
  {
    var smhm := SmhmScoreNoDiam(lt, lb);
    var whm := WhmScoreNoDiam(lt, lb);
    if smhm > whm then SMHM
    else if smhm == whm then Inconclusive
    else WHM
  }

  /** The outcome that the sign of a score difference selects. */
  function BySign(d: real): Species {
    if d > 0.0 then SMHM else if d == 0.0 then Inconclusive else WHM
  }

  /** Difference of the two diameter-page scores, with the coefficients
      subtracted term by term. */
  function MarginWithDiam(ld: real, lt: real, lb: real): real {
    64.46 * lt - 39.27 * lb + 24.92 * ld - 56.93
  }

  /** Difference of the two scores without diameter, term by term. */
  function MarginNoDiam(lt: real, lb: real): real {
    75.789 * lt - 33.729 * lb - 80.398
  }

  /** The diameter-page outcome depends only on the sign of one linear form. */
  lemma WithDiamDecidedByMargin(ld: real, lt: real, lb: real)
    ensures SmhmScoreWithDiam(ld, lt, lb) - WhmScoreWithDiam(ld, lt, lb) == MarginWithDiam(ld, lt, lb)
    ensures ClassifyWithDiam(ld, lt, lb) == BySign(MarginWithDiam(ld, lt, lb))
  {
  }

  /** The no-diameter outcome depends only on the sign of
      75.789 lt - 33.729 lb - 80.398. */
  lemma NoDiamDecidedByMargin(lt: real, lb: real)
    ensures SmhmScoreNoDiam(lt, lb) - WhmScoreNoDiam(lt, lb) == MarginNoDiam(lt, lb)
    ensures ClassifyNoDiam(lt, lb) == BySign(MarginNoDiam(lt, lb))
  {
  }

  /** The log tail length at which, for a given log body length, the two
      no-diameter scores are equal. */
  function NoDiamTieTailLength(lb: real): real {
    (33.729 * lb + 80.398) / 75.789
  }

  /** For every log body length there is exactly one log tail length with a
      tie: shorter tails give Western, longer tails Salt Marsh. */
  lemma NoDiamBoundary(lt: real, lb: real)
    ensures ClassifyNoDiam(lt, lb) == SMHM <==> lt > NoDiamTieTailLength(lb)
    ensures ClassifyNoDiam(lt, lb) == Inconclusive <==> lt == NoDiamTieTailLength(lb)
    ensures ClassifyNoDiam(lt, lb) == WHM <==> lt < NoDiamTieTailLength(lb)
  {
    NoDiamDecidedByMargin(lt, lb);
  }

  /** Holding log body length fixed, a longer tail never moves the
      no-diameter outcome towards Western; in particular it never turns a
      Salt Marsh result into a Western one. */
  lemma NoDiamMonotoneInTailLength(lt1: real, lt2: real, lb: real)
    requires lt1 <= lt2
    ensures Rank(ClassifyNoDiam(lt1, lb)) <= Rank(ClassifyNoDiam(lt2, lb))
    ensures ClassifyNoDiam(lt1, lb) == SMHM ==> ClassifyNoDiam(lt2, lb) == SMHM
    ensures ClassifyNoDiam(lt1, lb) == Inconclusive && lt1 < lt2 ==> ClassifyNoDiam(lt2, lb) == SMHM
  {
    NoDiamDecidedByMargin(lt1, lb);
    NoDiamDecidedByMargin(lt2, lb);
  }

  /** Holding log tail length fixed, a longer body never moves the
      no-diameter outcome towards Salt Marsh. */
  lemma NoDiamAntitoneInBodyLength(lt: real, lb1: real, lb2: real)
    requires lb1 <= lb2
    ensures Rank(ClassifyNoDiam(lt, lb2)) <= Rank(ClassifyNoDiam(lt, lb1))
  {
    NoDiamDecidedByMargin(lt, lb1);
    NoDiamDecidedByMargin(lt, lb2);
  }

  /** On the diameter page a longer or thicker tail never moves the outcome
      towards Western, and a longer body never moves it towards Salt Marsh. */
  lemma WithDiamMonotone(ld1: real, lt1: real, lb1: real, ld2: real, lt2: real, lb2: real)
    requires ld1 <= ld2 && lt1 <= lt2 && lb2 <= lb1
    ensures Rank(ClassifyWithDiam(ld1, lt1, lb1)) <= Rank(ClassifyWithDiam(ld2, lt2, lb2))
  {
    WithDiamDecidedByMargin(ld1, lt1, lb1);
    WithDiamDecidedByMargin(ld2, lt2, lb2);
  }

  /** A tie built on the boundary line: log body length 2 (a 100 mm body). */
  lemma NoDiamTieExample()
    ensures ClassifyNoDiam(147.856 / 75.789, 2.0) == Inconclusive
  {
    NoDiamBoundary(147.856 / 75.789, 2.0);
  }
}
