/**
 * The Portfolio Pulse card (`src/components/dashboard/PortfolioPulse.tsx`):
 * the band tables that colour the scores and the progress bars, the overall
 * health label, and the inverted colouring of the risk score.
 */
module PortfolioPulse {
  import opened MockData

  /** The three colour bands of a score: good, middling and poor. */
  datatype Band = Gain | Amber | Loss

  /** How bad a band is; a higher score never gets a higher one. */
  function Badness(b: Band): nat
  {
    match b
    case Gain => 0
    case Amber => 1
    case Loss => 2
  }

  /** `getScoreColor`: the text class of a score, from 80 and from 60 upwards. */
  function ScoreColor(score: int): (c: string)
    ensures c == "text-apple-gain" <==> score >= 80
    ensures c == "text-amber-500" <==> 60 <= score < 80
    ensures c == "text-apple-loss" <==> score < 60
  {
    if score >= 80 then "text-apple-gain"
    else if score >= 60 then "text-amber-500"
    else "text-apple-loss"
  }

  /** `getProgressColor`: the bar class of a score, on the same thresholds. */
  function ProgressColor(score: int): (c: string)
    ensures c == "bg-apple-gain" <==> score >= 80
    ensures c == "bg-amber-500" <==> 60 <= score < 80
    ensures c == "bg-apple-loss" <==> score < 60
  {
    if score >= 80 then "bg-apple-gain"
    else if score >= 60 then "bg-amber-500"
    else "bg-apple-loss"
  }

  /** The band a text class stands for. */
  function TextBand(c: string): Band
  {
    if c == "text-apple-gain" then Gain else if c == "text-amber-500" then Amber else Loss
  }

  /** The band a bar class stands for. */
  function BarBand(c: string): Band
  {
    if c == "bg-apple-gain" then Gain else if c == "bg-amber-500" then Amber else Loss
  }

  /** A score's number and its bar are always in the same band. */
  lemma ScoreAndBarAgree(score: int)
    ensures TextBand(ScoreColor(score)) == BarBand(ProgressColor(score))
  {
  }

  /** A higher score never gets a worse colour. */
  lemma ScoreColorMonotone(a: int, b: int)
    requires a <= b
    ensures Badness(TextBand(ScoreColor(b))) <= Badness(TextBand(ScoreColor(a)))
    ensures Badness(BarBand(ProgressColor(b))) <= Badness(BarBand(ProgressColor(a)))
  {
  }

  /** The overall health label, in five steps of ten from 50 up to 80. */
  function HealthLabel(health: int): (l: string)
    ensures l == "Excellent" <==> health >= 80
    ensures l == "Very Good" <==> 70 <= health < 80
    ensures l == "Good" <==> 60 <= health < 70
    ensures l == "Fair" <==> 50 <= health < 60
    ensures l == "Needs Attention" <==> health < 50
  {
    if health >= 80 then "Excellent"
    else if health >= 70 then "Very Good"
    else if health >= 60 then "Good"
    else if health >= 50 then "Fair"
    else "Needs Attention"
  }

  /** The position of a label on the scale, "Excellent" first. */
  function LabelRank(l: string): nat
  {
    if l == "Excellent" then 0
    else if l == "Very Good" then 1
    else if l == "Good" then 2
    else if l == "Fair" then 3
    else 4
  }

  /** Better health never gets a worse label. */
  lemma HealthLabelMonotone(a: int, b: int)
    requires a <= b
    ensures LabelRank(HealthLabel(b)) <= LabelRank(HealthLabel(a))
  {
  }

  /** The risk number is coloured as the score `100 - risk`: gain up to 20, amber up to 40, loss above. */
  function RiskTextColor(risk: int): (c: string)
    ensures c == "text-apple-gain" <==> risk <= 20
    ensures c == "text-amber-500" <==> 20 < risk <= 40
    ensures c == "text-apple-loss" <==> risk > 40
  {
    ScoreColor(100 - risk)
  }

  /** The risk bar's own bands: gain up to 30, amber up to 70, loss above. */
  function RiskBarColor(risk: int): (c: string)
    ensures c == "var(--apple-gain)" <==> risk <= 30
    ensures c == "rgb(245, 158, 11)" <==> 30 < risk <= 70
    ensures c == "var(--apple-loss)" <==> risk > 70
  {
    if risk <= 30 then "var(--apple-gain)"
    else if risk <= 70 then "rgb(245, 158, 11)"
    else "var(--apple-loss)"
  }

  /** The band a risk bar colour stands for. */
  function RiskBarBand(c: string): Band
  {
    if c == "var(--apple-gain)" then Gain else if c == "rgb(245, 158, 11)" then Amber else Loss
  }

  /** More risk never gets a better colour, on the number or on the bar. */
  lemma RiskColorsMonotone(a: int, b: int)
    requires a <= b
    ensures Badness(TextBand(RiskTextColor(a))) <= Badness(TextBand(RiskTextColor(b)))
    ensures Badness(RiskBarBand(RiskBarColor(a))) <= Badness(RiskBarBand(RiskBarColor(b)))
  {
  }

  /**
   * The risk number and the risk bar use different thresholds: they show the
   * same band exactly up to 20, from 31 to 40, and above 70.
   */
  lemma RiskNumberAndBarAgreement(risk: int)
    ensures TextBand(RiskTextColor(risk)) == RiskBarBand(RiskBarColor(risk))
      <==> risk <= 20 || 30 < risk <= 40 || risk > 70
  {
  }

  /** The fixture's card: health 76 is "Very Good" in amber, diversification amber, performance gain, and risk 72 in loss on both number and bar. */
  lemma MockPulseDisplay()
    ensures var m := PortfolioPulseMetrics();
      && HealthLabel(m.overallHealth) == "Very Good"
      && ScoreColor(m.overallHealth) == "text-amber-500"
      && ProgressColor(m.diversificationScore) == "bg-amber-500"
      && ProgressColor(m.performanceScore) == "bg-apple-gain"
      && RiskTextColor(m.riskScore) == "text-apple-loss"
      && RiskBarColor(m.riskScore) == "var(--apple-loss)"
  {
  }
}
