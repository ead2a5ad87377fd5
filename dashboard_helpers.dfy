/** The display helpers of src/utils/dashboardHelpers.ts: score colours by
    band, the case-insensitive badge colours, the reputation-score display
    record and the sentiment trend. Scores are real numbers; `toFixed(1)` is
    the parameter `fmt1`. */
module DashboardHelpers {
  import opened Common
  import AnalyticsTypes
  import MentionTypes

  /* ---------- score colours ---------- */

  /** The three bands the score colours share: from 80 up, from 60 below
      80, and below 60. */
  datatype Band = Good | Fair | Poor

  function BandOf(score: real): Band
  {
    if score >= 80.0 then Good else if score >= 60.0 then Fair else Poor
  }

  /** `getScoreColor`: dark green, dark orange or dark red. */
  function ScoreColor(score: real): (r: string)
    ensures score >= 80.0 ==> r == "#2e7d32"
    ensures 60.0 <= score < 80.0 ==> r == "#ed6c02"
    ensures score < 60.0 ==> r == "#d32f2f"
  {
    if score >= 80.0 then "#2e7d32" else if score >= 60.0 then "#ed6c02" else "#d32f2f"
  }

  /** `getScoreLightColor`: the lighter shade for the gradient. */
  function ScoreLightColor(score: real): (r: string)
    ensures score >= 80.0 ==> r == "#4caf50"
    ensures 60.0 <= score < 80.0 ==> r == "#ff9800"
    ensures score < 60.0 ==> r == "#f44336"
  {
    if score >= 80.0 then "#4caf50" else if score >= 60.0 then "#ff9800" else "#f44336"
  }

  /** `getScoreTextColor`: white on every band. */
  function ScoreTextColor(score: real): (r: string)
    ensures r == "#ffffff"
  {
    "#ffffff"
  }

  /** The dark and light colour of each band. */
  function DarkOf(b: Band): string
  {
    match b
    case Good => "#2e7d32"
    case Fair => "#ed6c02"
    case Poor => "#d32f2f"
  }

  function LightOf(b: Band): string
  {
    match b
    case Good => "#4caf50"
    case Fair => "#ff9800"
    case Poor => "#f44336"
  }

  /** Both colours of a score are the colours of its band, and two scores
      get the same dark colour exactly when they get the same light one. */
  lemma ColorsShareBand(a: real, b: real)
    ensures ScoreColor(a) == DarkOf(BandOf(a)) && ScoreLightColor(a) == LightOf(BandOf(a))
    ensures ScoreColor(a) == ScoreColor(b) <==> BandOf(a) == BandOf(b)
    ensures ScoreLightColor(a) == ScoreLightColor(b) <==> BandOf(a) == BandOf(b)
  {
    assert DarkOf(Good)[1] != DarkOf(Fair)[1] && DarkOf(Good)[1] != DarkOf(Poor)[1] && DarkOf(Fair)[1] != DarkOf(Poor)[1];
    assert LightOf(Good)[1] != LightOf(Fair)[1] && LightOf(Good)[1] != LightOf(Poor)[1] && LightOf(Fair)[2] != LightOf(Poor)[2];
  }

  /** The rank of a band, best first. */
  function BandRank(b: Band): nat
  {
    match b
    case Good => 0
    case Fair => 1
    case Poor => 2
  }

  /** A higher score is never in a worse band. */
  lemma BandMonotone(a: real, b: real)
    requires a <= b
    ensures BandRank(BandOf(b)) <= BandRank(BandOf(a))
  {
  }

  /* ---------- badge colours ---------- */

  /** The MUI colour names the badges use. */
  datatype BadgeColor = Success | Warning | Error | Info | Default

  /** `getScoreStatusColor`: a switch on `status.toLowerCase()`. */
  function ScoreStatusColor(status: string): (r: BadgeColor)
    ensures r == Success <==> ToLower(status) == "excellent" || ToLower(status) == "good"
    ensures r == Warning <==> ToLower(status) == "fair" || ToLower(status) == "moderate"
    ensures r == Error <==> ToLower(status) == "poor" || ToLower(status) == "critical"
    ensures r != Info
  {
    var s := ToLower(status);
    if s == "excellent" || s == "good" then Success
    else if s == "fair" || s == "moderate" then Warning
    else if s == "poor" || s == "critical" then Error
    else Default
  }

  /** `getPriorityColor`: a switch on `priority.toLowerCase()`. */
  function PriorityColor(priority: string): (r: BadgeColor)
    ensures r == Error <==> ToLower(priority) == "critical"
    ensures r == Warning <==> ToLower(priority) == "high"
    ensures r == Info <==> ToLower(priority) == "medium"
    ensures r != Success
  {
    var s := ToLower(priority);
    if s == "critical" then Error
    else if s == "high" then Warning
    else if s == "medium" then Info
    else Default
  }

  /** Both maps ignore case: an upper-cased or lower-cased input gets the
      colour of the original. */
  lemma BadgeColorsIgnoreCase(s: string)
    ensures ScoreStatusColor(ToUpper(s)) == ScoreStatusColor(s)
    ensures ScoreStatusColor(ToLower(s)) == ScoreStatusColor(s)
    ensures PriorityColor(ToUpper(s)) == PriorityColor(s)
    ensures PriorityColor(ToLower(s)) == PriorityColor(s)
  {
    ToLowerOfUpper(s);
    ToLowerIdempotent(s);
  }

  /** The mention priorities' own names: critical, high and medium get
      error, warning and info; low falls through to the default. */
  lemma PriorityNameColors(p: MentionTypes.Priority)
    ensures PriorityColor(p.Name()) == match p
      case Critical => Error
      case High => Warning
      case Medium => Info
      case Low => Default
  {
    LowerName(p.Name());
  }

  /** A lower-case name is its own lower-case form. */
  lemma LowerName(s: string)
    requires s == "critical" || s == "high" || s == "medium" || s == "low"
    ensures ToLower(s) == s
  {
    ToLowerOfLower(s);
  }

  /* ---------- formatReputationScore ---------- */

  /** What `formatReputationScore` returns; `interpretation` is absent for
      a missing score. */
  datatype ScoreDisplay = ScoreDisplay(
    displayScore: string,
    color: string,
    lightColor: string,
    textColor: string,
    changeText: string,
    changeIcon: AnalyticsTypes.ChangeDirection,
    statusColor: BadgeColor,
    interpretation: Option<AnalyticsTypes.ScoreInterpretation>)

  /** `formatReputationScore(score)`: without a score, "0.0" in the colours
      of score 0, "No data", a stable icon and the default badge; with one,
      its fixed-point display, the colours of `current_score`, its change
      text and direction, and the badge of its status. */
  function FormatReputationScore(score: Option<AnalyticsTypes.ReputationScore>, fmt1: real -> string): (d: ScoreDisplay)
    ensures score.None? ==>
      d.displayScore == "0.0" && d.changeText == "No data" && d.changeIcon == AnalyticsTypes.Stable
      && d.statusColor == Default && d.interpretation.None?
    ensures score.Some? ==>
      d.displayScore == fmt1(score.value.current_score)
      && d.changeText == score.value.change_description
      && d.changeIcon == score.value.change_direction
      && d.interpretation == Some(score.value.score_interpretation)
      && d.statusColor == ScoreStatusColor(score.value.score_interpretation.status)
    ensures d.textColor == "#ffffff"
  {
    if score.None? then
      ScoreDisplay("0.0", ScoreColor(0.0), ScoreLightColor(0.0), ScoreTextColor(0.0),
        "No data", AnalyticsTypes.Stable, Default, None)
    else
      var s := score.value;
      ScoreDisplay(fmt1(s.current_score), ScoreColor(s.current_score), ScoreLightColor(s.current_score),
        ScoreTextColor(s.current_score), s.change_description, s.change_direction,
        ScoreStatusColor(s.score_interpretation.status), Some(s.score_interpretation))
  }

  /** The displayed colours are always one band's pair: the band of the
      current score, or the poor band when no score is known. */
  lemma DisplayColorsInOneBand(score: Option<AnalyticsTypes.ReputationScore>, fmt1: real -> string)
    ensures var d := FormatReputationScore(score, fmt1);
      var b := if score.Some? then BandOf(score.value.current_score) else Poor;
      d.color == DarkOf(b) && d.lightColor == LightOf(b)
    ensures score.None? ==>
      FormatReputationScore(score, fmt1).color == "#d32f2f"
      && FormatReputationScore(score, fmt1).lightColor == "#f44336"
  {
    if score.Some? {
      ColorsShareBand(score.value.current_score, score.value.current_score);
    } else {
      ColorsShareBand(0.0, 0.0);
    }
  }

  /* ---------- getSentimentTrend ---------- */

  datatype Trend = Up | Down | Stable

  function Abs(x: real): real
  {
    if x < 0.0 then -x else x
  }

  /** `getSentimentTrend(current, previous)`: stable within half a point,
      otherwise up or down by the sign of the difference. */
  function SentimentTrend(current: real, previous: real): (r: Trend)
    ensures r == Stable <==> -0.5 < current - previous < 0.5
    ensures r == Up <==> current - previous >= 0.5
    ensures r == Down <==> current - previous <= -0.5
  {
    var diff := current - previous;
    if Abs(diff) < 0.5 then Stable else if diff > 0.0 then Up else Down
  }

  /** Swapping the two scores swaps up and down and keeps stable. */
  lemma TrendSwap(a: real, b: real)
    ensures SentimentTrend(a, b) == Up <==> SentimentTrend(b, a) == Down
    ensures SentimentTrend(a, b) == Stable <==> SentimentTrend(b, a) == Stable
  {
  }

  /** A score compared with itself is stable. */
  lemma TrendReflexive(a: real)
    ensures SentimentTrend(a, a) == Stable
  {
  }
}
