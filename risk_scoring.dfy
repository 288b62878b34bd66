/** The risk-scoring rule of the loan risk predictor (`predict_risk` in
    utils.py): the classifier's probability of default is scaled to a
    percentage, rounded to two decimals, and bucketed into Low, Medium or
    High by fixed thresholds with inclusive lower bounds. */
module RiskScoring {
  import opened Rounding

  /** What the classifier may return: a probability. */
  type Probability = p: real | 0.0 <= p <= 1.0

  datatype Category = Low | Medium | High

  /** The order of the categories: Low < Medium < High. */
  function Rank(c: Category): nat {
    match c
    case Low => 0
    case Medium => 1
    case High => 2
  }

  /** The inclusive lower bounds of Medium and High, in percent. */
  const MediumThreshold: real := 40.0
  const HighThreshold: real := 70.0

  /** What `predict_risk` returns: the pair (risk score, risk category). */
  datatype Assessment = Assessment(score: real, category: Category)

  /** The category of a risk score. Its rank is the number of thresholds the
      score reaches. */
  function Categorize(score: real): (c: Category)
    ensures Rank(c) == (if score >= MediumThreshold then 1 else 0) + (if score >= HighThreshold then 1 else 0)
  {
    if score >= HighThreshold then High
    else if score >= MediumThreshold then Medium
    else Low
  }

  /** Each category is exactly one band of scores; together the bands cover
      every score, and no score is in two of them. */
  lemma CategoryBands(score: real)
    ensures Categorize(score) == High <==> score >= 70.0
    ensures Categorize(score) == Medium <==> 40.0 <= score < 70.0
    ensures Categorize(score) == Low <==> score < 40.0
  {
  }

  /** A higher score never gets a lower category. */
  lemma CategorizeMonotone(s1: real, s2: real)
    requires s1 <= s2
    ensures Rank(Categorize(s1)) <= Rank(Categorize(s2))
  {
  }

  /** The band edges: the thresholds themselves belong to the upper band. */
  lemma CategorizeBoundaries()
    ensures Categorize(100.0) == High
    ensures Categorize(70.0) == High
    ensures Categorize(69.99) == Medium
    ensures Categorize(40.0) == Medium
    ensures Categorize(39.99) == Low
    ensures Categorize(0.0) == Low
  {
  }

  /** The risk score: the probability as a percentage, rounded to two
      decimals. It is a percentage, within half a hundredth of the exact
      value. */
  function RiskScore(p: Probability): (s: real)
    ensures 0.0 <= s <= 100.0
    ensures IsHundredths(s)
    ensures p * 100.0 - 0.005 <= s <= p * 100.0 + 0.005
  {
    RoundToHundredthsMonotone(0.0, p * 100.0);
    RoundToHundredthsMonotone(p * 100.0, 100.0);
    RoundToHundredthsOfHundredths(0.0);
    RoundToHundredthsOfHundredths(100.0);
    RoundToHundredths(p * 100.0)
  }

  /** The risk score as the count of hundredths of a percent, so that 70 and
      40 percent become 7000 and 4000: the number of ten-thousandths nearest
      to the probability, ties to even. */
  lemma RiskScoreHundredths(p: Probability)
    ensures IsNearestHalfEven(p * 10000.0, (RiskScore(p) * 100.0).Floor)
    ensures 0 <= (RiskScore(p) * 100.0).Floor <= 10000
  {
    assert p * 100.0 * 100.0 == p * 10000.0;
  }

  /** A higher probability never gets a lower score. */
  lemma RiskScoreMonotone(p: Probability, q: Probability)
    requires p <= q
    ensures RiskScore(p) <= RiskScore(q)
  {
    RoundToHundredthsMonotone(p * 100.0, q * 100.0);
  }

  /** The bands in terms of the probability itself. Because the score is
      rounded first, and an exact tie goes to the even hundredth, High starts
      at 0.69995 and Medium at 0.39995 rather than at 0.7 and 0.4. These are
      the band edges over exact reals; no float holds 0.69995 or 0.39995, so
      in floating point the edge lies wherever float rounding puts it near
      these values. */
  lemma ProbabilityBands(p: Probability)
    ensures Categorize(RiskScore(p)) == High <==> p >= 0.69995
    ensures Categorize(RiskScore(p)) == Medium <==> 0.39995 <= p < 0.69995
    ensures Categorize(RiskScore(p)) == Low <==> p < 0.39995
  {
  }

  /** None of the three branches is dead: every category is the category of
      some probability. */
  lemma EveryCategoryReachable(c: Category)
    ensures exists p: Probability :: Categorize(RiskScore(p)) == c
  {
    var p: Probability := match c
      case Low => 0.0
      case Medium => 0.5
      case High => 1.0;
    ProbabilityBands(p);
  }

  /** `predict_risk`: ask the classifier for the probability of default of
      the row, turn it into a score, and categorize the score. The
      classifier is read, never changed. */
  function PredictRisk<Row>(model: Row -> Probability, row: Row): (a: Assessment)
    ensures 0.0 <= a.score <= 100.0
    ensures IsHundredths(a.score)
    ensures model(row) * 100.0 - 0.005 <= a.score <= model(row) * 100.0 + 0.005
    ensures a.category == High <==> a.score >= HighThreshold
    ensures a.category == Medium <==> MediumThreshold <= a.score < HighThreshold
    ensures a.category == Low <==> a.score < MediumThreshold
    ensures a.category == High <==> model(row) >= 0.69995
    ensures a.category == Low <==> model(row) < 0.39995
    ensures IsNearestHalfEven(model(row) * 10000.0, (a.score * 100.0).Floor)
  {
    var riskScore := RiskScore(model(row));
    RiskScoreHundredths(model(row));
    CategoryBands(riskScore);
    ProbabilityBands(model(row));
    Assessment(riskScore, Categorize(riskScore))
  }

  /** The category is a function of the returned score alone: two rows with
      the same score get the same category, whatever else they hold. */
  lemma CategoryDependsOnlyOnScore<Row>(model: Row -> Probability, r1: Row, r2: Row)
    requires PredictRisk(model, r1).score == PredictRisk(model, r2).score
    ensures PredictRisk(model, r1).category == PredictRisk(model, r2).category
  {
  }

  /** The whole result is a function of the classifier's probability alone. */
  lemma AssessmentDependsOnlyOnProbability<Row>(model: Row -> Probability, r1: Row, r2: Row)
    requires model(r1) == model(r2)
    ensures PredictRisk(model, r1) == PredictRisk(model, r2)
  {
  }

  /** A row the classifier finds more likely to default never gets a lower
      category. */
  lemma PredictRiskMonotone<Row>(model: Row -> Probability, r1: Row, r2: Row)
    requires model(r1) <= model(r2)
    ensures Rank(PredictRisk(model, r1).category) <= Rank(PredictRisk(model, r2).category)
  {
    RiskScoreMonotone(model(r1), model(r2));
    CategorizeMonotone(RiskScore(model(r1)), RiskScore(model(r2)));
  }

  /** The category is decided on the rounded score: a probability whose exact
      percentage is just under a threshold can round up onto it. The values
      are exact reals at the band edges of ProbabilityBands. */
  lemma RoundingDecidesCategory()
    ensures RiskScore(0.69995) == 70.0 && Categorize(RiskScore(0.69995)) == High
    ensures RiskScore(0.69994) == 69.99 && Categorize(RiskScore(0.69994)) == Medium
    ensures RiskScore(0.39995) == 40.0 && Categorize(RiskScore(0.39995)) == Medium
    ensures RiskScore(0.39985) == 39.98 && Categorize(RiskScore(0.39985)) == Low
  {
  }

  /** Ties that a float can hold: an odd multiple of 1/32 is exactly half
      way between two hundredths of a percent, and the even one is chosen,
      whether that rounds down or up. */
  lemma RiskScoreTies()
    ensures RiskScore(0.40625) == 40.62
    ensures RiskScore(0.03125) == 3.12
    ensures RiskScore(0.09375) == 9.38
  {
  }

  /** A classifier stub that answers 0.55 for every row gives a score of
      55.0 and the category Medium. */
  lemma StubClassifierExample(row: int)
    ensures PredictRisk((r: int) => 0.55, row) == Assessment(55.0, Medium)
  {
  }
}
