/** The alerts service (src/services/alerts.ts): the query of `getAlerts`,
    the statistics `getAlertStats` counts over the first page, and the
    mark/acknowledge/resolve/dismiss calls. HTTP answers are parameters. */
module AlertsService {
  import opened Common
  import opened AlertTypes

  /* ---------- getAlerts ---------- */

  /** The query `getAlerts(page, pageSize, alertType)` sends: it appends
      `page`, `page_size` and, when a type is given, `alert_type`. */
  method AlertsQuery(page: int := 1, pageSize: int := 20, alertType: Option<AlertType> := None)
    returns (params: seq<Param>)
    ensures |params| == (if alertType.Some? then 3 else 2)
    ensures params[0] == Param("page", IntToString(page))
    ensures params[1] == Param("page_size", IntToString(pageSize))
    ensures alertType.Some? ==> params[2] == Param("alert_type", alertType.value.Name())
  {
    params := [];
    params := params + [Param("page", IntToString(page))];
    params := params + [Param("page_size", IntToString(pageSize))];
    if alertType.Some? {
      params := params + [Param("alert_type", alertType.value.Name())];
    }
  }

  /* ---------- getAlertStats ---------- */

  /** `alerts.filter(p).length` */
  function CountWhere(alerts: seq<Alert>, p: Alert -> bool): (n: nat)
    ensures n <= |alerts|
  {
    if alerts == [] then 0 else (if p(alerts[0]) then 1 else 0) + CountWhere(alerts[1..], p)
  }

  /** The statistics of one list of alerts. */
  function StatsOf(alerts: seq<Alert>): AlertStats
  {
    AlertStats(
      total_active := CountWhere(alerts, (a: Alert) => !a.is_marked),
      by_severity := SeverityCounts(
        CountWhere(alerts, (a: Alert) => a.priority == Critical),
        CountWhere(alerts, (a: Alert) => a.priority == High),
        CountWhere(alerts, (a: Alert) => a.priority == Medium),
        CountWhere(alerts, (a: Alert) => a.priority == Low)),
      by_type := TypeCounts(
        CountWhere(alerts, (a: Alert) => a.alert_type == CriticalAlert),
        CountWhere(alerts, (a: Alert) => a.alert_type == HighPriorityAlert),
        CountWhere(alerts, (a: Alert) => a.alert_type == ActiveAlert),
        CountWhere(alerts, (a: Alert) => a.alert_type == ResolvedAlert)),
      resolved_today := CountWhere(alerts, (a: Alert) => a.is_marked))
  }

  /** A predicate and its negation split the list. */
  lemma {:induction false} CountComplement(alerts: seq<Alert>, p: Alert -> bool, q: Alert -> bool)
    requires forall a :: q(a) == !p(a)
    ensures CountWhere(alerts, p) + CountWhere(alerts, q) == |alerts|
  {
    if alerts != [] {
      CountComplement(alerts[1..], p, q);
    }
  }

  /** Counting four predicates of which each alert satisfies exactly one. */
  lemma {:induction false} CountPartition(alerts: seq<Alert>, p0: Alert -> bool, p1: Alert -> bool,
                                          p2: Alert -> bool, p3: Alert -> bool)
    requires forall a :: (if p0(a) then 1 else 0) + (if p1(a) then 1 else 0)
                         + (if p2(a) then 1 else 0) + (if p3(a) then 1 else 0) == 1
    ensures CountWhere(alerts, p0) + CountWhere(alerts, p1) + CountWhere(alerts, p2) + CountWhere(alerts, p3)
      == |alerts|
  {
    if alerts != [] {
      CountPartition(alerts[1..], p0, p1, p2, p3);
    }
  }

  /** Active and marked alerts together are all of them; so are the four
      severities and the four types. */
  lemma StatsAddUp(alerts: seq<Alert>)
    ensures StatsOf(alerts).total_active + StatsOf(alerts).resolved_today == |alerts|
    ensures var s := StatsOf(alerts).by_severity; s.critical + s.high + s.medium + s.low == |alerts|
    ensures var t := StatsOf(alerts).by_type;
      t.critical + t.high_priority + t.active + t.resolved == |alerts|
  {
    CountComplement(alerts, (a: Alert) => a.is_marked, (a: Alert) => !a.is_marked);
    CountPartition(alerts, (a: Alert) => a.priority == Critical, (a: Alert) => a.priority == High,
      (a: Alert) => a.priority == Medium, (a: Alert) => a.priority == Low);
    CountPartition(alerts, (a: Alert) => a.alert_type == CriticalAlert, (a: Alert) => a.alert_type == HighPriorityAlert,
      (a: Alert) => a.alert_type == ActiveAlert, (a: Alert) => a.alert_type == ResolvedAlert);
  }

  /** The request of `getAlertStats` is `getAlerts(1, 100)`; `response` is its
      answer, and a failure is passed on. The statistics cover only the
      alerts of that first page. */
  method GetAlertStats(response: Result<AlertsApiResponse>) returns (params: seq<Param>, r: Result<AlertStats>)
    ensures params == [Param("page", "1"), Param("page_size", "100")]
    ensures r.Err? <==> response.Err?
    ensures r.Err? ==> r.message == response.message
    ensures r.Ok? ==> r.value == StatsOf(response.value.alerts)
  {
    params := AlertsQuery(1, 100);
    assert IntToString(1) == "1" && IntToString(100) == "100";
    if response.Err? {
      return params, Err(response.message);
    }
    return params, Ok(StatsOf(response.value.alerts));
  }

  /* ---------- marking ---------- */

  /** A `POST {API}/alerts/{id}/mark` with body `{is_marked}`. */
  datatype MarkCall = MarkCall(path: string, is_marked: bool)

  /** `markAlert(id, is_marked)` */
  function MarkAlert(id: int, is_marked: bool): (r: MarkCall)
    ensures r.is_marked == is_marked
    ensures r.path == "/alerts/" + IntToString(id) + "/mark"
  {
    MarkCall("/alerts/" + IntToString(id) + "/mark", is_marked)
  }

  /** `acknowledgeAlert(id, notes)`: marks the alert; the notes go nowhere. */
  function AcknowledgeAlert(id: int, notes: Option<string>): (r: MarkCall)
    ensures r.is_marked
  {
    MarkAlert(id, true)
  }

  /** `resolveAlert(id, notes)` */
  function ResolveAlert(id: int, notes: Option<string>): (r: MarkCall)
    ensures r.is_marked
  {
    MarkAlert(id, true)
  }

  /** `dismissAlert(id)`: no call; the result is the id. */
  function DismissAlert(id: int): (r: int)
    ensures r == id
  {
    id
  }

  /** Different alerts are marked through different paths. */
  lemma MarkPathsDistinct(i: int, j: int, b1: bool, b2: bool)
    requires i != j
    ensures MarkAlert(i, b1).path != MarkAlert(j, b2).path
  {
    var p, q := MarkAlert(i, b1).path, MarkAlert(j, b2).path;
    if p == q {
      var n := |"/alerts/"|;
      assert p[n..|p| - 5] == IntToString(i);
      assert q[n..|q| - 5] == IntToString(j);
      IntToStringInjective(i, j);
    }
  }

  /** Acknowledging and resolving are the same call, whatever the notes. */
  lemma AcknowledgeIsResolve(id: int, n1: Option<string>, n2: Option<string>)
    ensures AcknowledgeAlert(id, n1) == ResolveAlert(id, n2) == MarkAlert(id, true)
  {
  }
}
