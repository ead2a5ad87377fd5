/** The alert records of src/types/alert.ts. */
module AlertTypes {
  import opened Common
  import opened MentionTypes

  /** 'critical' | 'high_priority' | 'active' | 'resolved' */
  datatype AlertType = CriticalAlert | HighPriorityAlert | ActiveAlert | ResolvedAlert
  {
    function Name(): string {
      match this
      case CriticalAlert => "critical"
      case HighPriorityAlert => "high_priority"
      case ActiveAlert => "active"
      case ResolvedAlert => "resolved"
    }
  }

  /** 'critical' | 'high' | 'medium' | 'low' */
  datatype AlertSeverity = Critical | High | Medium | Low

  datatype Alert = Alert(
    id: int,
    platform: string,
    author_name: string,
    content: string,
    full_content: string,
    sentiment: Sentiment,
    priority: AlertSeverity,
    original_date: string,
    is_marked: bool,
    rating: Option<real>,
    source_url: string,
    alert_type: AlertType)

  datatype SeverityCounts = SeverityCounts(critical: nat, high: nat, medium: nat, low: nat)

  datatype TypeCounts = TypeCounts(critical: nat, high_priority: nat, active: nat, resolved: nat)

  datatype AlertStats = AlertStats(
    total_active: nat,
    by_severity: SeverityCounts,
    by_type: TypeCounts,
    resolved_today: nat)

  datatype AlertPagination = AlertPagination(
    page: int,
    page_size: int,
    total_items: int,
    total_pages: int,
    has_next: bool,
    has_previous: bool)

  datatype AlertsApiResponse = AlertsApiResponse(pagination: AlertPagination, alerts: seq<Alert>)
}
