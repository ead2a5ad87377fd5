/** The analytics records of src/types/analytics.ts.

    The dashboard snapshot arrives from the backend with sections that may be
    absent (every reader uses optional chaining on them), so each top-level
    section of `DashboardData` is an `Option`; fields inside a present section
    are modelled as the type file declares them. */
module AnalyticsTypes {
  import opened Common
  import opened MentionTypes

  datatype ChangeDirection = Increase | Decrease | Stable

  datatype ScoreInterpretation = ScoreInterpretation(status: string, description: string, action: string)

  datatype ScorePeriod = ScorePeriod(start: string, end: string, mentions_count: int)

  datatype ReputationScore = ReputationScore(
    current_score: real,
    previous_score: real,
    percentage_change: real,
    change_direction: ChangeDirection,
    change_description: string,
    score_interpretation: ScoreInterpretation,
    current_period: ScorePeriod,
    previous_period: ScorePeriod)

  datatype SentimentRatio = SentimentRatio(positive: real, negative: real, neutral: real)

  datatype SentimentTrend = SentimentTrend(
    date: string,
    positive: int,
    negative: int,
    neutral: int,
    total: int,
    sentiment_ratio: SentimentRatio)

  datatype PlatformStats = PlatformStats(platform: string, count: int, percentage: real)

  datatype TopIssueExample = TopIssueExample(content: string, platform: string, date: string, priority: string)

  datatype PriorityCounts = PriorityCounts(critical: int, high: int, medium: int)

  datatype TopIssue = TopIssue(
    issue_category: string,
    title: string,
    description: string,
    priority: Priority,
    total_mentions: int,
    priority_breakdown: PriorityCounts,
    representative_platforms: seq<string>,
    recent_examples: seq<TopIssueExample>)

  datatype TopicAnalysis = TopicAnalysis(
    topic: string,
    count: int,
    sentiment_score: real,
    trend: real,
    keywords: seq<string>)

  datatype ResponseMetrics = ResponseMetrics(
    total_responses: int,
    avg_response_time: real,
    response_rate: real,
    by_platform: map<Platform, int>)

  datatype AnalyticsDateRange = AnalyticsDateRange(start: string, end: string)

  datatype SentimentCounts = SentimentCounts(positive: int, negative: int, neutral: int)

  datatype SentimentPercentages = SentimentPercentages(positive: real, negative: real, neutral: real)

  datatype SentimentDistribution = SentimentDistribution(
    counts: SentimentCounts,
    percentages: SentimentPercentages,
    total_mentions: int,
    dominant_sentiment: string)

  datatype PriorityShare = PriorityShare(priority: string, count: int, percentage: real)

  datatype PriorityBreakdown = PriorityBreakdown(
    priorities: seq<PriorityShare>,
    total_mentions: int,
    high_priority_count: int)

  datatype RecentActivity = RecentActivity(
    total_recent_mentions: int,
    avg_daily_mentions: real,
    most_active_platform: string,
    most_common_intent: string,
    critical_issues_count: int)

  datatype DashboardMeta = DashboardMeta(
    generated_at: string,
    product_id: int,
    time_period_days: int,
    total_mentions: int,
    recent_mentions: int)

  /** `platforms` is declared required, but every reader guards it with
      `?.platforms`, so a payload without it is modelled as `None`. */
  datatype PlatformDistribution = PlatformDistribution(platforms: Option<seq<PlatformStats>>, total_platforms: int)

  datatype DashboardData = DashboardData(
    dashboard_data: Option<DashboardMeta>,
    top_issues_requiring_attention: Option<seq<TopIssue>>,
    sentiment_distribution: Option<SentimentDistribution>,
    sentiment_trend: Option<seq<SentimentTrend>>,
    reputation_score: Option<ReputationScore>,
    platform_distribution: Option<PlatformDistribution>,
    priority_breakdown: Option<PriorityBreakdown>,
    recent_activity: Option<RecentActivity>)

  datatype PlatformSentimentCounts = PlatformSentimentCounts(positive: int, negative: int, neutral: int, total: int)

  datatype PlatformSentimentData = PlatformSentimentData(
    platform: string,
    counts: PlatformSentimentCounts,
    percentages: SentimentPercentages)

  datatype TopicScore = TopicScore(score: real, mention_count: int, percentage: real)

  datatype RadarChartData = RadarChartData(
    categories: seq<string>,
    values: seq<real>,
    detailed_scores: map<string, TopicScore>)

  datatype TopicRadarData = TopicRadarData(
    chart_type: string,
    chart_data: RadarChartData,
    max_value: real,
    description: string)

  datatype SentimentBreakdown = SentimentBreakdown(positive: int, negative: int, neutral: int)

  datatype MentionChange = MentionChange(current_mentions: int, previous_mentions: int, absolute_change: int)

  datatype DetailedTopicAnalysis = DetailedTopicAnalysis(
    topic: string,
    mentions: int,
    sentiment: string,
    sentiment_raw: real,
    trend: string,
    trend_raw: real,
    sentiment_breakdown: SentimentBreakdown,
    change_from_previous: MentionChange,
    priority: int)

  datatype AnalyticsMeta = AnalyticsMeta(
    generated_at: string,
    product_id: Option<int>,
    time_period_days: int,
    total_mentions: int,
    recent_mentions: int,
    previous_period_mentions: int)

  datatype SentimentByPlatform = SentimentByPlatform(
    platforms: seq<PlatformSentimentData>,
    total_platforms: int,
    overall_sentiment: SentimentBreakdown)

  datatype AnalyticsApiResponse = AnalyticsApiResponse(
    analytics_data: AnalyticsMeta,
    sentiment_by_platform: SentimentByPlatform,
    topic_analysis: TopicRadarData,
    detailed_topic_analysis: seq<DetailedTopicAnalysis>)
}
