/** The analytics store (src/store/slices/analytics.ts): the dashboard and
    analytics-page data, the date range and the fetch status. */
module AnalyticsSlice {
  import opened Common
  import opened AnalyticsTypes

  /* ---------- the radar chart ---------- */

  /** `{category, value}`; `value` is `undefined` where `values` is shorter
      than `categories`. */
  datatype RadarPoint = RadarPoint(category: string, value: Option<real>)

  /** `categories.map((category, index) => ({category, value: values[index]}))` */
  function RadarData(categories: seq<string>, values: seq<real>): (r: seq<RadarPoint>)
    ensures |r| == |categories|
    ensures forall i :: 0 <= i < |r| ==> r[i].category == categories[i]
    ensures forall i :: 0 <= i < |r| ==> (r[i].value.Some? <==> i < |values|)
    ensures forall i :: 0 <= i < |r| && i < |values| ==> r[i].value == Some(values[i])
  {
    seq(|categories|, i requires 0 <= i < |categories| =>
      RadarPoint(categories[i], if i < |values| then Some(values[i]) else None))
  }

  /** The categories of the points. */
  function Categories(points: seq<RadarPoint>): (r: seq<string>)
    ensures |r| == |points|
    ensures forall i :: 0 <= i < |r| ==> r[i] == points[i].category
  {
    seq(|points|, i requires 0 <= i < |points| => points[i].category)
  }

  /** The values of points that all have one. */
  function Values(points: seq<RadarPoint>): (r: seq<real>)
    requires forall i :: 0 <= i < |points| ==> points[i].value.Some?
    ensures |r| == |points|
    ensures forall i :: 0 <= i < |r| ==> Some(r[i]) == points[i].value
  {
    seq(|points|, i requires 0 <= i < |points| => points[i].value.value)
  }

  /** The zip loses nothing: the categories come back out, and when the two
      lists have the same length so do the values. */
  lemma RadarUnzip(categories: seq<string>, values: seq<real>)
    ensures Categories(RadarData(categories, values)) == categories
    ensures |values| == |categories| ==>
      (forall i :: 0 <= i < |categories| ==> RadarData(categories, values)[i].value.Some?)
      && Values(RadarData(categories, values)) == values
  {
    var r := RadarData(categories, values);
    assert Categories(r) == categories;
    if |values| == |categories| {
      assert Values(r) == values;
    }
  }

  /* ---------- the store ---------- */

  /** `x || []` on an optional list. */
  function OrEmpty<T>(x: Option<seq<T>>): (r: seq<T>)
    ensures x.Some? ==> r == x.value
    ensures x.None? ==> r == []
  {
    if x.Some? then x.value else []
  }

  /** `platform_distribution?.platforms || []`: the platforms of a
      distribution, `[]` when the distribution or its list is missing. */
  function PlatformsOf(d: Option<PlatformDistribution>): (r: seq<PlatformStats>)
    ensures d.Some? && d.value.platforms.Some? ==> r == d.value.platforms.value
    ensures d.None? || d.value.platforms.None? ==> r == []
  {
    if d.Some? then OrEmpty(d.value.platforms) else []
  }

  datatype AnalyticsState = AnalyticsState(
    reputationScore: Option<ReputationScore>,
    sentimentTrend: seq<SentimentTrend>,
    sentimentDistribution: Option<SentimentDistribution>,
    platformStats: seq<PlatformStats>,
    topIssues: seq<TopIssue>,
    topicAnalysis: seq<TopicAnalysis>,
    responseMetrics: Option<ResponseMetrics>,
    platformSentimentData: seq<PlatformSentimentData>,
    radarChartData: seq<RadarPoint>,
    detailedTopics: seq<DetailedTopicAnalysis>,
    dateRange: AnalyticsDateRange,
    loading: bool,
    error: Option<string>)

  /** The initial state over the date range of the last 30 days, which the
      source computes from the clock. */
  function InitialAnalyticsState(range: AnalyticsDateRange): AnalyticsState
  {
    AnalyticsState(None, [], None, [], [], [], None, [], [], [], range, false, None)
  }

  const ReputationScoreFailed := "Failed to fetch reputation score"
  const DashboardDataFailed := "Failed to fetch dashboard data"
  const AnalyticsDataFailed := "Failed to fetch analytics data"

  class AnalyticsStore {
    var reputationScore: Option<ReputationScore>
    var sentimentTrend: seq<SentimentTrend>
    var sentimentDistribution: Option<SentimentDistribution>
    var platformStats: seq<PlatformStats>
    var topIssues: seq<TopIssue>
    var topicAnalysis: seq<TopicAnalysis>
    var responseMetrics: Option<ResponseMetrics>
    var platformSentimentData: seq<PlatformSentimentData>
    var radarChartData: seq<RadarPoint>
    var detailedTopics: seq<DetailedTopicAnalysis>
    var dateRange: AnalyticsDateRange
    var loading: bool
    var error: Option<string>

    function View(): AnalyticsState
      reads this
    {
      AnalyticsState(reputationScore, sentimentTrend, sentimentDistribution, platformStats, topIssues,
        topicAnalysis, responseMetrics, platformSentimentData, radarChartData, detailedTopics,
        dateRange, loading, error)
    }

    /** The store in its initial state; `range` is the last 30 days. */
    constructor(range: AnalyticsDateRange)
      ensures View() == InitialAnalyticsState(range)
    {
      reputationScore := None;
      sentimentTrend := [];
      sentimentDistribution := None;
      platformStats := [];
      topIssues := [];
      topicAnalysis := [];
      responseMetrics := None;
      platformSentimentData := [];
      radarChartData := [];
      detailedTopics := [];
      dateRange := range;
      loading := false;
      error := None;
    }

    /** `setDateRange` */
    method SetDateRange(range: AnalyticsDateRange)
      modifies this
      ensures View() == old(View()).(dateRange := range)
    {
      dateRange := range;
    }

    /** `clearError` */
    method ClearError()
      modifies this
      ensures View() == old(View()).(error := None)
    {
      error := None;
    }

    /** The `pending` case of `fetchReputationScore`, `fetchDashboardData` and
        `fetchAnalyticsData`: loading, and the error is kept. */
    method FetchPending()
      modifies this
      ensures View() == old(View()).(loading := true)
    {
      loading := true;
    }

    /** `fetchReputationScore.fulfilled`; the error is kept. */
    method FetchReputationScoreFulfilled(score: ReputationScore)
      modifies this
      ensures View() == old(View()).(loading := false, reputationScore := Some(score))
    {
      loading := false;
      reputationScore := Some(score);
    }

    /** `fetchReputationScore.rejected` */
    method FetchReputationScoreRejected(message: Option<string>)
      modifies this
      ensures View() == old(View()).(loading := false, error := Some(MessageOr(message, ReputationScoreFailed)))
    {
      loading := false;
      error := Some(MessageOr(message, ReputationScoreFailed));
    }

    /** `fetchSentimentTrend.fulfilled`: only its own field. */
    method FetchSentimentTrendFulfilled(trend: seq<SentimentTrend>)
      modifies this
      ensures View() == old(View()).(sentimentTrend := trend)
    {
      sentimentTrend := trend;
    }

    /** `fetchPlatformStats.fulfilled`: only its own field. */
    method FetchPlatformStatsFulfilled(stats: seq<PlatformStats>)
      modifies this
      ensures View() == old(View()).(platformStats := stats)
    {
      platformStats := stats;
    }

    /** `fetchTopIssues.fulfilled`: only its own field. */
    method FetchTopIssuesFulfilled(issues: seq<TopIssue>)
      modifies this
      ensures View() == old(View()).(topIssues := issues)
    {
      topIssues := issues;
    }

    /** `fetchTopicAnalysis.fulfilled`: only its own field. */
    method FetchTopicAnalysisFulfilled(topics: seq<TopicAnalysis>)
      modifies this
      ensures View() == old(View()).(topicAnalysis := topics)
    {
      topicAnalysis := topics;
    }

    /** `fetchResponseMetrics.fulfilled`: only its own field. */
    method FetchResponseMetricsFulfilled(metrics: ResponseMetrics)
      modifies this
      ensures View() == old(View()).(responseMetrics := Some(metrics))
    {
      responseMetrics := Some(metrics);
    }

    /** `fetchDashboardData.fulfilled`: the snapshot's sections, with missing
        lists read as `[]`; the error is kept. */
    method FetchDashboardDataFulfilled(data: DashboardData)
      modifies this
      ensures View() == old(View()).(
        loading := false,
        reputationScore := data.reputation_score,
        sentimentTrend := OrEmpty(data.sentiment_trend),
        sentimentDistribution := data.sentiment_distribution,
        platformStats := PlatformsOf(data.platform_distribution),
        topIssues := OrEmpty(data.top_issues_requiring_attention))
    {
      loading := false;
      reputationScore := data.reputation_score;
      sentimentTrend := OrEmpty(data.sentiment_trend);
      sentimentDistribution := data.sentiment_distribution;
      platformStats := PlatformsOf(data.platform_distribution);
      topIssues := OrEmpty(data.top_issues_requiring_attention);
    }

    /** `fetchDashboardData.rejected` */
    method FetchDashboardDataRejected(message: Option<string>)
      modifies this
      ensures View() == old(View()).(loading := false, error := Some(MessageOr(message, DashboardDataFailed)))
    {
      loading := false;
      error := Some(MessageOr(message, DashboardDataFailed));
    }

    /** `fetchAnalyticsData.fulfilled`: platform sentiment, the radar zip and
        the detailed topics; the error is kept. */
    method FetchAnalyticsDataFulfilled(response: AnalyticsApiResponse)
      modifies this
      ensures View() == old(View()).(
        loading := false,
        platformSentimentData := response.sentiment_by_platform.platforms,
        radarChartData := RadarData(response.topic_analysis.chart_data.categories,
                                    response.topic_analysis.chart_data.values),
        detailedTopics := response.detailed_topic_analysis)
    {
      loading := false;
      platformSentimentData := response.sentiment_by_platform.platforms;
      radarChartData := RadarData(response.topic_analysis.chart_data.categories,
                                  response.topic_analysis.chart_data.values);
      detailedTopics := response.detailed_topic_analysis;
    }

    /** `fetchAnalyticsData.rejected` */
    method FetchAnalyticsDataRejected(message: Option<string>)
      modifies this
      ensures View() == old(View()).(loading := false, error := Some(MessageOr(message, AnalyticsDataFailed)))
    {
      loading := false;
      error := Some(MessageOr(message, AnalyticsDataFailed));
    }
  }
}
