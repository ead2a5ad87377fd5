/** The mention records of src/types/mention.ts. Optional (`?:`) and nullable
    fields are `Option`s; the string unions are datatypes. */
module MentionTypes {
  import opened Common

  datatype Platform = AppStore | Reddit | Instagram | GoogleSerp | Quora | GooglePlay | Trustpilot
  {
    function Name(): string {
      match this
      case AppStore => "App Store"
      case Reddit => "Reddit"
      case Instagram => "Instagram"
      case GoogleSerp => "Google Serp"
      case Quora => "Quora"
      case GooglePlay => "Google Play"
      case Trustpilot => "Trustpilot"
    }
  }

  /** 'positive' | 'negative' | 'neutral'; also the result type of the
      keyword classifier. */
  datatype Sentiment = Positive | Negative | Neutral
  {
    function Name(): string {
      match this
      case Positive => "positive"
      case Negative => "negative"
      case Neutral => "neutral"
    }
  }

  datatype Intent = Complaint | Question | Recommendation | NeutralIntent | NeutralMention

  datatype Priority = Critical | High | Medium | Low
  {
    function Name(): string {
      match this
      case Critical => "critical"
      case High => "high"
      case Medium => "medium"
      case Low => "low"
    }
  }

  datatype Author = Author(name: string, avatar_url: Option<string>, profile_url: Option<string>)

  datatype ResponseSuggestion = ResponseSuggestion(
    should_respond: bool,
    urgency: string,
    recommended_style: string,
    response_type: string,
    key_points: seq<string>)

  datatype MentionMetadata = MentionMetadata(processed_date: string, source_url: string, external_id: string)

  /** `id: number | string`; JavaScript's `===` never equates a number with a string. */
  datatype MentionId = NumberId(n: int) | StringId(s: string)

  datatype Mention = Mention(
    id: MentionId,
    platform: Platform,
    author: Author,
    content: string,
    sentiment: Sentiment,
    intent: Intent,
    priority: Priority,
    date: string,
    rating: Option<real>,
    confidence_score: real,
    keywords_matched: seq<string>,
    topics: seq<string>,
    response_suggested: ResponseSuggestion,
    is_marked: Option<bool>,
    metadata: MentionMetadata)

  /** The query filter. `platforms` is not declared in mention.ts but is read by
      the mentions service, so it is modelled as one more optional field. */
  datatype MentionFilter = MentionFilter(
    product_id: Option<int>,
    platform: Option<string>,
    sentiment: Option<string>,
    intent: Option<string>,
    priority: Option<string>,
    from_date: Option<string>,
    to_date: Option<string>,
    page: Option<int>,
    page_size: Option<int>,
    platforms: Option<seq<string>>)

  /** The `{}` filter. */
  const EmptyFilter := MentionFilter(None, None, None, None, None, None, None, None, None, None)

  datatype PaginationInfo = PaginationInfo(
    current_page: int,
    page_size: int,
    total_items: int,
    total_pages: int,
    has_next: bool,
    has_prev: bool)

  datatype FiltersApplied = FiltersApplied(
    product_id: Option<int>,
    platform: Option<string>,
    sentiment: Option<string>,
    intent: Option<string>,
    priority: Option<string>)

  datatype AvailableFilters = AvailableFilters(
    platforms: seq<string>,
    sentiments: seq<string>,
    intents: seq<string>,
    priorities: seq<string>)

  datatype MentionApiResponse = MentionApiResponse(
    mentions: seq<Mention>,
    pagination: PaginationInfo,
    filters_applied: FiltersApplied,
    available_filters: AvailableFilters)

  datatype MentionStats = MentionStats(
    total: int,
    by_platform: map<Platform, int>,
    by_sentiment: map<Sentiment, int>,
    by_intent: map<Intent, int>,
    by_priority: map<Priority, int>)
}
