/** The insight generator of the dashboard (src/services/dashboardInsights.ts):
    `buildDashboardPrompt` fills a fixed template with values read from the
    dashboard snapshot, each with its own fallback, and
    `generateDashboardInsights` sends it and parses the JSON answer.

    `fmt1` stands for `Number.prototype.toFixed(1)`; the chat call and
    `JSON.parse` enter as values and parameters. */
module DashboardInsights {
  import opened Common
  import opened MentionTypes
  import opened AnalyticsTypes
  import opened OpenAiClient

  /* ---------- the template ---------- */

  /** A template literal: the fixed pieces `labels` with `values[k]`
      substituted between `labels[k]` and `labels[k + 1]`. */
  function Fill(labels: seq<string>, values: seq<string>): string
    requires |labels| == |values| + 1
    decreases |values|
  {
    if values == [] then labels[0]
    else labels[0] + (values[0] + Fill(labels[1..], values[1..]))
  }

  /** Each substitution stands right after the text that precedes it in the
      template. */
  lemma {:induction false} FillShows(labels: seq<string>, values: seq<string>, k: nat)
    requires |labels| == |values| + 1 && k < |values|
    ensures Contains(Fill(labels, values), labels[k] + values[k])
    decreases k
  {
    var rest := Fill(labels[1..], values[1..]);
    if k == 0 {
      ConcatAssoc3(labels[0], values[0], rest);
      PrefixContained(labels[0] + values[0] + rest, labels[0] + values[0]);
    } else {
      FillShows(labels[1..], values[1..], k - 1);
      ContainsRight(values[0], rest, labels[k] + values[k]);
      ContainsRight(labels[0], values[0] + rest, labels[k] + values[k]);
    }
  }

  /** The template text in front of `current_score`. */
  const IntroLabel: string :=
    "You are a brand reputation analyst AI. Analyze the "
      + "following brand reputation data and provide actionable " + "insights.\n\n"
      + "REPUTATION SCORE:\n" + "- Current Score: "

  const PreviousLabel: string := "/100\n- Previous Score: "
  const ChangeLabel: string := "/100\n- Change: "
  const StatusLabel: string := "%\n- Status: "
  const InterpretationLabel: string := "\n- Interpretation: "
  const TotalLabel: string := "\n\nSENTIMENT DISTRIBUTION (Total: "
  const PositiveLabel: string := " mentions):\n- Positive: "
  const NegativeLabel: string := "%)\n- Negative: "
  const NeutralLabel: string := "%)\n- Neutral: "
  const PercentLabel: string := " ("
  const DominantLabel: string := "%)\n- Dominant Sentiment: "
  const IssuesLabel: string := "\n\nTOP ISSUES REQUIRING ATTENTION:\n"
  const PlatformsLabel: string := "\n\nPLATFORM DISTRIBUTION:\n"
  const PeriodLabel: string := "\n\nRECENT ACTIVITY (Last "
  const TotalMentionsLabel: string := " days):\n- Total Mentions: "
  const RecentLabel: string := "\n- Recent Mentions: "
  const MostActiveLabel: string := "\n- Most Active Platform: "
  const CriticalLabel: string := "\n- Critical Issues: "

  /** The task description that ends the template. */
  const TaskLabel: string :=
    "\n\n" + "TASK:\n" + "Based on this data, provide:\n\n"
      + "1. **Executive Summary** (2-3 sentences): A brief overview "
      + "of the brand's current reputation health.\n\n"
      + "2. **Key Findings** (3-5 bullet points): The most important "
      + "insights from the data.\n\n"
      + "3. **Strategic Recommendations** (4-6 actionable items): "
      + "Specific actions the brand should take to improve "
      + "reputation, prioritized by impact.\n\n"
      + "4. **Urgent Actions** (2-3 items): Critical issues that "
      + "need immediate attention.\n\n"
      + "Format your response as a JSON object with the following " + "structure:\n" + "{\n"
      + "  \"summary\": \"executive summary text\",\n"
      + "  \"keyFindings\": [\"finding 1\", \"finding 2\", \"finding 3\"],\n"
      + "  \"recommendations\": [\"recommendation 1\", \"recommendation "
      + "2\", \"recommendation 3\"],\n"
      + "  \"urgentActions\": [\"action 1\", \"action 2\"]\n" + "}\n\n"
      + "Be specific, actionable, and data-driven. Focus on what the "
      + "brand should DO, not just what the data shows."

  const PromptLabels: seq<string> := [
    IntroLabel, PreviousLabel, ChangeLabel, StatusLabel, InterpretationLabel,
    TotalLabel, PositiveLabel, PercentLabel, NegativeLabel, PercentLabel,
    NeutralLabel, PercentLabel, DominantLabel, IssuesLabel, PlatformsLabel,
    PeriodLabel, TotalMentionsLabel, RecentLabel, MostActiveLabel, CriticalLabel,
    TaskLabel]

  /* ---------- the substituted values ---------- */

  /** The twenty values the template substitutes, in template order. */
  datatype InsightFields = InsightFields(
    currentScore: string,
    previousScore: string,
    change: string,
    status: string,
    interpretation: string,
    totalMentions: string,
    positive: string, positivePercent: string,
    negative: string, negativePercent: string,
    neutral: string, neutralPercent: string,
    dominant: string,
    issues: string,
    platforms: string,
    period: string,
    periodMentions: string,
    recentMentions: string,
    mostActive: string,
    critical: string)

  function Values(f: InsightFields): (r: seq<string>)
    ensures |r| + 1 == |PromptLabels|
  {
    [f.currentScore, f.previousScore, f.change, f.status, f.interpretation,
     f.totalMentions, f.positive, f.positivePercent, f.negative, f.negativePercent,
     f.neutral, f.neutralPercent, f.dominant, f.issues, f.platforms,
     f.period, f.periodMentions, f.recentMentions, f.mostActive, f.critical]
  }

  const NoIssues: string := "No issues data available"
  const NoPlatforms: string := "No platform data available"
  const Unknown: string := "Unknown"
  const NoInterpretation: string := "No interpretation available"
  const DefaultPeriodDays: int := 30

  /** `x?.toFixed(1) || '0.0'` */
  function FixedOrZero(x: Option<real>, fmt1: real -> string): string
  {
    if x.Some? then OrElse(fmt1(x.value), "0.0") else "0.0"
  }

  /** `x || 0` for a count: a missing count and a zero count both show 0. */
  function CountOrZero(x: Option<int>): (r: string)
    ensures x.Some? ==> r == IntToString(x.value)
    ensures x.None? ==> r == "0"
  {
    if x.Some? && x.value != 0 then IntToString(x.value) else "0"
  }

  /** `s || fallback` for an optional string. */
  function TextOr(s: Option<string>, fallback: string): string
  {
    if s.Some? then OrElse(s.value, fallback) else fallback
  }

  /** `percentage_change ? (percentage_change > 0 ? '+' : '') + percentage_change.toFixed(1) : '0.0'` */
  function ChangeText(change: Option<real>, fmt1: real -> string): string
  {
    if change.Some? && change.value != 0.0 then
      (if change.value > 0.0 then "+" else "") + fmt1(change.value)
    else "0.0"
  }

  /** The output of `toFixed`: never empty and never signed with '+'. */
  predicate Fixed1Shape(s: string)
  {
    |s| > 0 && s[0] != '+'
  }

  /** The change gets a '+' exactly when it is positive, and reads 0.0 when
      it is zero or missing. */
  lemma ChangeSign(change: Option<real>, fmt1: real -> string)
    requires forall x :: Fixed1Shape(fmt1(x))
    ensures |ChangeText(change, fmt1)| > 0
    ensures ChangeText(change, fmt1)[0] == '+' <==> change.Some? && change.value > 0.0
    ensures change.None? || change.value == 0.0 ==> ChangeText(change, fmt1) == "0.0"
    ensures change.Some? && change.value < 0.0 ==> ChangeText(change, fmt1) == fmt1(change.value)
  {
    if change.Some? && change.value != 0.0 {
      assert Fixed1Shape(fmt1(change.value));
      if change.value > 0.0 {
        assert ("+" + fmt1(change.value))[0] == '+';
      }
    }
  }

  /** `${i + 1}. ${issue.title} (${issue.priority} priority, ${issue.total_mentions} mentions)` */
  function IssueLine(i: nat, issue: TopIssue): string
  {
    IntToString(i + 1) + ". " + issue.title + " (" + issue.priority.Name() + " priority, "
      + IntToString(issue.total_mentions) + " mentions)"
  }

  /** `.map((issue, i) => ...)`: line k is issue k numbered k + 1. */
  function IssueLines(issues: seq<TopIssue>): (r: seq<string>)
    ensures |r| == |issues|
    ensures forall k :: 0 <= k < |issues| ==> r[k] == IssueLine(k, issues[k])
  {
    seq(|issues|, k requires 0 <= k < |issues| => IssueLine(k, issues[k]))
  }

  /** `- ${p.platform}: ${p.count} mentions (${p.percentage.toFixed(1)}%)` */
  function PlatformLine(p: PlatformStats, fmt1: real -> string): string
  {
    "- " + p.platform + ": " + IntToString(p.count) + " mentions (" + fmt1(p.percentage) + "%)"
  }

  function PlatformLines(platforms: seq<PlatformStats>, fmt1: real -> string): (r: seq<string>)
    ensures |r| == |platforms|
    ensures forall k :: 0 <= k < |platforms| ==> r[k] == PlatformLine(platforms[k], fmt1)
    decreases |platforms|
  {
    if platforms == [] then [] else [PlatformLine(platforms[0], fmt1)] + PlatformLines(platforms[1..], fmt1)
  }

  /** `top_issues?.slice(0, 5).map(...).join('\n') || 'No issues data available'` */
  function IssuesBlock(issues: Option<seq<TopIssue>>): string
  {
    if issues.Some? then OrElse(Join(IssueLines(Take(issues.value, 5)), "\n"), NoIssues) else NoIssues
  }

  /** `platform_distribution?.platforms?.slice(0, 5).map(...).join('\n') || 'No platform data available'` */
  function PlatformsBlock(distribution: Option<PlatformDistribution>, fmt1: real -> string): string
  {
    if distribution.Some? && distribution.value.platforms.Some? then
      OrElse(Join(PlatformLines(Take(distribution.value.platforms.value, 5), fmt1), "\n"), NoPlatforms)
    else NoPlatforms
  }

  /** The values `buildDashboardPrompt` substitutes for `data`. */
  function Fields(data: DashboardData, fmt1: real -> string): InsightFields
  {
    var rs := data.reputation_score;
    var sd := data.sentiment_distribution;
    var meta := data.dashboard_data;
    var ra := data.recent_activity;
    InsightFields(
      currentScore := FixedOrZero(if rs.Some? then Some(rs.value.current_score) else None, fmt1),
      previousScore := FixedOrZero(if rs.Some? then Some(rs.value.previous_score) else None, fmt1),
      change := ChangeText(if rs.Some? then Some(rs.value.percentage_change) else None, fmt1),
      status := TextOr(if rs.Some? then Some(rs.value.score_interpretation.status) else None, Unknown),
      interpretation := TextOr(if rs.Some? then Some(rs.value.score_interpretation.description) else None,
        NoInterpretation),
      totalMentions := CountOrZero(if sd.Some? then Some(sd.value.total_mentions) else None),
      positive := CountOrZero(if sd.Some? then Some(sd.value.counts.positive) else None),
      positivePercent := FixedOrZero(if sd.Some? then Some(sd.value.percentages.positive) else None, fmt1),
      negative := CountOrZero(if sd.Some? then Some(sd.value.counts.negative) else None),
      negativePercent := FixedOrZero(if sd.Some? then Some(sd.value.percentages.negative) else None, fmt1),
      neutral := CountOrZero(if sd.Some? then Some(sd.value.counts.neutral) else None),
      neutralPercent := FixedOrZero(if sd.Some? then Some(sd.value.percentages.neutral) else None, fmt1),
      dominant := TextOr(if sd.Some? then Some(sd.value.dominant_sentiment) else None, Unknown),
      issues := IssuesBlock(data.top_issues_requiring_attention),
      platforms := PlatformsBlock(data.platform_distribution, fmt1),
      period := if meta.Some? && meta.value.time_period_days != 0 then IntToString(meta.value.time_period_days)
        else IntToString(DefaultPeriodDays),
      periodMentions := CountOrZero(if meta.Some? then Some(meta.value.total_mentions) else None),
      recentMentions := CountOrZero(if ra.Some? then Some(ra.value.total_recent_mentions) else None),
      mostActive := TextOr(if ra.Some? then Some(ra.value.most_active_platform) else None, Unknown),
      critical := CountOrZero(if ra.Some? then Some(ra.value.critical_issues_count) else None))
  }

  /** `buildDashboardPrompt` */
  function DashboardPrompt(data: DashboardData, fmt1: real -> string): string
  {
    Fill(PromptLabels, Values(Fields(data, fmt1)))
  }

  /* ---------- the fallback rules ---------- */

  /** Every value of `Fields` appears in the prompt after its own label. */
  lemma PromptShowsFields(data: DashboardData, fmt1: real -> string, k: nat)
    requires k < |Values(Fields(data, fmt1))|
    ensures Contains(DashboardPrompt(data, fmt1), PromptLabels[k] + Values(Fields(data, fmt1))[k])
  {
    FillShows(PromptLabels, Values(Fields(data, fmt1)), k);
  }

  /** At most five issues are listed, numbered 1 to k in input order. */
  lemma IssuesListed(issues: seq<TopIssue>)
    requires issues != []
    ensures var lines := IssueLines(Take(issues, 5));
      && |lines| == (if |issues| < 5 then |issues| else 5)
      && (forall k :: 0 <= k < |lines| ==> lines[k] == IssueLine(k, issues[k]))
      && IssuesBlock(Some(issues)) == Join(lines, "\n")
  {
    var lines := IssueLines(Take(issues, 5));
    assert lines[0] == IssueLine(0, issues[0]);
    assert IssueLine(0, issues[0])[0] == IntToString(1)[0];
    JoinNonEmpty(lines, "\n");
  }

  /** The issues block falls back to "No issues data available" exactly when
      the list is missing or empty: the join of no lines is the empty,
      falsy string. */
  lemma IssuesFallback(issues: Option<seq<TopIssue>>)
    ensures IssuesBlock(issues) == NoIssues <==> issues.None? || issues.value == []
  {
    if issues.Some? && issues.value != [] {
      IssuesListed(issues.value);
      var lines := IssueLines(Take(issues.value, 5));
      assert IntToString(1) == "1";
      assert lines[0][0] == '1';
      assert Join(lines, "\n")[0] == '1';
      assert NoIssues[0] == 'N';
    }
  }

  /** At most five platforms are listed, in input order. */
  lemma PlatformsListed(distribution: PlatformDistribution, fmt1: real -> string)
    requires distribution.platforms.Some? && distribution.platforms.value != []
    ensures var ps := distribution.platforms.value;
      var lines := PlatformLines(Take(ps, 5), fmt1);
      && |lines| == (if |ps| < 5 then |ps| else 5)
      && (forall k :: 0 <= k < |lines| ==> lines[k] == PlatformLine(ps[k], fmt1))
      && PlatformsBlock(Some(distribution), fmt1) == Join(lines, "\n")
  {
    var lines := PlatformLines(Take(distribution.platforms.value, 5), fmt1);
    assert lines[0] == PlatformLine(distribution.platforms.value[0], fmt1);
    JoinNonEmpty(lines, "\n");
  }

  /** The platform block falls back to "No platform data available" exactly
      when the distribution or its list is missing or empty. */
  lemma PlatformsFallback(distribution: Option<PlatformDistribution>, fmt1: real -> string)
    ensures PlatformsBlock(distribution, fmt1) == NoPlatforms
      <==> distribution.None? || distribution.value.platforms.None? || distribution.value.platforms.value == []
  {
    if distribution.Some? && distribution.value.platforms.Some? && distribution.value.platforms.value != [] {
      PlatformsListed(distribution.value, fmt1);
      var lines := PlatformLines(Take(distribution.value.platforms.value, 5), fmt1);
      assert lines[0][0] == '-';
      assert Join(lines, "\n")[0] == '-';
      assert NoPlatforms[0] == 'N';
    }
  }

  /** Missing sections show the documented defaults: counts 0, status,
      dominant sentiment and most active platform "Unknown", scores and
      percentages 0.0, and a period of 30 days. */
  lemma MissingSectionsDefaults(data: DashboardData, fmt1: real -> string)
    ensures var f := Fields(data, fmt1);
      && (data.reputation_score.None? ==>
            f.currentScore == "0.0" && f.previousScore == "0.0" && f.change == "0.0"
            && f.status == Unknown && f.interpretation == NoInterpretation)
      && (data.sentiment_distribution.None? ==>
            f.totalMentions == "0" && f.positive == "0" && f.negative == "0" && f.neutral == "0"
            && f.positivePercent == "0.0" && f.negativePercent == "0.0" && f.neutralPercent == "0.0"
            && f.dominant == Unknown)
      && (data.dashboard_data.None? ==> f.period == "30" && f.periodMentions == "0")
      && (data.recent_activity.None? ==>
            f.recentMentions == "0" && f.mostActive == Unknown && f.critical == "0")
  {
    assert IntToString(30) == "30";
  }

  /** Present sections show their own values; empty strings still fall back,
      and a period of 0 days shows as 30. */
  lemma PresentSectionsShown(data: DashboardData, fmt1: real -> string)
    ensures var f := Fields(data, fmt1);
      && (data.reputation_score.Some? ==>
            f.status == OrElse(data.reputation_score.value.score_interpretation.status, Unknown))
      && (data.sentiment_distribution.Some? ==>
            f.positive == IntToString(data.sentiment_distribution.value.counts.positive)
            && f.dominant == OrElse(data.sentiment_distribution.value.dominant_sentiment, Unknown))
      && (data.dashboard_data.Some? ==>
            f.period == (if data.dashboard_data.value.time_period_days == 0 then "30"
                         else IntToString(data.dashboard_data.value.time_period_days)))
      && (data.recent_activity.Some? ==>
            f.critical == IntToString(data.recent_activity.value.critical_issues_count)
            && f.mostActive == OrElse(data.recent_activity.value.most_active_platform, Unknown))
  {
    assert IntToString(30) == "30";
  }

  /** A snapshot without a reputation score tells the model the status is
      unknown. */
  lemma MissingScoreShowsUnknownStatus(data: DashboardData, fmt1: real -> string)
    requires data.reputation_score.None?
    ensures Contains(DashboardPrompt(data, fmt1), StatusLabel + Unknown)
  {
    StatusShown(Fields(data, fmt1));
    MissingSectionsDefaults(data, fmt1);
  }

  /** The status stands after its label in the filled template. */
  lemma StatusShown(f: InsightFields)
    ensures Contains(Fill(PromptLabels, Values(f)), StatusLabel + f.status)
  {
    FillShows(PromptLabels, Values(f), 3);
  }

  /* ---------- generateDashboardInsights ---------- */

  /** The JSON object the model is asked for. */
  datatype DashboardInsight = DashboardInsight(
    summary: string,
    keyFindings: seq<string>,
    recommendations: seq<string>,
    urgentActions: seq<string>)

  const InsightsSystemPrompt: string :=
    "You are a brand reputation analyst AI that provides clear, "
      + "actionable insights based on data. Always respond with " + "valid JSON."

  const InsightsFailed: string := "Failed to generate insights. Please try again."

  /** The chat request sent for `data`. */
  function InsightsRequest(data: DashboardData, fmt1: real -> string): (r: ChatRequest)
    ensures r.user == DashboardPrompt(data, fmt1) && r.json_object
  {
    ChatRequest("gpt-4o-mini", InsightsSystemPrompt, DashboardPrompt(data, fmt1), 0.7, 1500, true)
  }

  /** `completion.choices[0].message.content || '{}'`; `None` when there is
      no first choice, where the source's property access throws. */
  function ResponseText(choices: seq<Option<string>>): (r: Option<string>)
    ensures r.None? <==> choices == []
    ensures choices != [] && choices[0].Some? && choices[0].value != "" ==> r == Some(choices[0].value)
    ensures choices != [] && (choices[0].None? || choices[0].value == "") ==> r == Some("{}")
  {
    if choices == [] then None
    else if choices[0].Some? then Some(OrElse(choices[0].value, "{}"))
    else Some("{}")
  }

  /** `generateDashboardInsights`: `completion` is the outcome of sending
      `InsightsRequest(data, fmt1)` and `parse` is `JSON.parse` read as an
      insight (`None` when it throws). Every failure is the same error. */
  function GenerateInsights(completion: Completion, parse: string -> Option<DashboardInsight>)
    : (r: Result<DashboardInsight>)
    ensures r.Ok? <==> completion.Completed? && ResponseText(completion.choices).Some?
                        && parse(ResponseText(completion.choices).value).Some?
    ensures r.Ok? ==> r.value == parse(ResponseText(completion.choices).value).value
    ensures r.Err? ==> r.message == InsightsFailed
  {
    if completion.CallFailed? then Err(InsightsFailed)
    else
      match ResponseText(completion.choices)
      case None => Err(InsightsFailed)
      case Some(text) =>
        match parse(text)
        case None => Err(InsightsFailed)
        case Some(insight) => Ok(insight)
  }

  /** An answer without content is read as the empty JSON object. */
  lemma EmptyContentParsesAsObject(choices: seq<Option<string>>, parse: string -> Option<DashboardInsight>)
    requires choices != [] && (choices[0].None? || choices[0].value == "")
    ensures GenerateInsights(Completed(choices), parse).Ok?
      <==> parse("{}").Some?
  {
  }
}
