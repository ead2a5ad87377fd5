/** The alerts store (src/store/slices/alerts.ts): the alert list, paging,
    the selected alert and type, and the fetch status. Each reducer and each
    `extraReducers` case is a method on `AlertsStore` that updates its fields
    in place; the list operations are specified by functions. */
module AlertsSlice {
  import opened Common
  import opened AlertTypes

  /* ---------- list operations ---------- */

  /** Whether an alert has the given id (`a.id === id`). */
  predicate HasId(id: int, a: Alert)
  {
    a.id == id
  }

  /** `alerts.findIndex((a) => a.id === id)` */
  function IndexOfId(alerts: seq<Alert>, id: int): (r: int)
    ensures -1 <= r < |alerts|
    ensures r >= 0 ==> IsFirst(alerts, (a: Alert) => HasId(id, a), r)
    ensures r == -1 ==> forall k :: 0 <= k < |alerts| ==> alerts[k].id != id
  {
    FirstIndex(alerts, (a: Alert) => HasId(id, a))
  }

  /** The replacement `updateAlert` and the fulfilled mark, acknowledge and
      resolve cases make: the first alert with the payload's id becomes the
      payload; without such an alert nothing changes. */
  function ReplaceFirstById(alerts: seq<Alert>, x: Alert): (r: seq<Alert>)
    ensures |r| == |alerts|
    ensures forall k :: 0 <= k < |alerts| ==>
      r[k] == if IsFirst(alerts, (a: Alert) => HasId(x.id, a), k) then x else alerts[k]
    ensures (forall k :: 0 <= k < |alerts| ==> alerts[k].id != x.id) ==> r == alerts
  {
    var index := IndexOfId(alerts, x.id);
    if index != -1 then alerts[index := x] else alerts
  }

  /** `alerts.filter((a) => a.id !== id)` */
  function WithoutId(alerts: seq<Alert>, id: int): (r: seq<Alert>)
    ensures |r| <= |alerts|
    ensures forall a :: a in r <==> a in alerts && a.id != id
  {
    if alerts == [] then []
    else (if alerts[0].id != id then [alerts[0]] else []) + WithoutId(alerts[1..], id)
  }

  /** Removing commutes with concatenation, so the alerts kept stay in their
      relative order. */
  lemma {:induction false} WithoutIdConcat(a: seq<Alert>, b: seq<Alert>, id: int)
    ensures WithoutId(a + b, id) == WithoutId(a, id) + WithoutId(b, id)
  {
    if a == [] {
      assert a + b == b;
    } else {
      assert (a + b)[1..] == a[1..] + b;
      WithoutIdConcat(a[1..], b, id);
    }
  }

  /** A list without the id is kept whole. */
  lemma {:induction false} WithoutAbsentId(alerts: seq<Alert>, id: int)
    requires forall k :: 0 <= k < |alerts| ==> alerts[k].id != id
    ensures WithoutId(alerts, id) == alerts
  {
    if alerts != [] {
      WithoutAbsentId(alerts[1..], id);
    }
  }

  /** Dismissing twice is dismissing once. */
  lemma WithoutIdIdempotent(alerts: seq<Alert>, id: int)
    ensures WithoutId(WithoutId(alerts, id), id) == WithoutId(alerts, id)
  {
    var r := WithoutId(alerts, id);
    forall k | 0 <= k < |r|
      ensures r[k].id != id
    {
      assert r[k] in r;
    }
    WithoutAbsentId(r, id);
  }

  /** Replacing the first alert with an id twice by the same payload is
      replacing it once. */
  lemma ReplaceFirstIdempotent(alerts: seq<Alert>, x: Alert)
    ensures ReplaceFirstById(ReplaceFirstById(alerts, x), x) == ReplaceFirstById(alerts, x)
  {
    var r := ReplaceFirstById(alerts, x);
    var i := IndexOfId(alerts, x.id);
    if i != -1 {
      assert IndexOfId(r, x.id) == i by {
        assert r[i] == x;
        assert forall k :: 0 <= k < i ==> r[k] == alerts[k];
      }
    }
  }

  /* ---------- the store ---------- */

  datatype AlertsState = AlertsState(
    alerts: seq<Alert>,
    pagination: Option<AlertPagination>,
    stats: Option<AlertStats>,
    selectedAlert: Option<Alert>,
    currentPage: int,
    pageSize: int,
    selectedAlertType: Option<AlertType>,
    loading: bool,
    error: Option<string>)

  const InitialAlertsState := AlertsState([], None, None, None, 1, 20, None, false, None)

  const FetchAlertsFailed := "Failed to fetch alerts"

  class AlertsStore {
    var alerts: seq<Alert>
    var pagination: Option<AlertPagination>
    var stats: Option<AlertStats>
    var selectedAlert: Option<Alert>
    var currentPage: int
    var pageSize: int
    var selectedAlertType: Option<AlertType>
    var loading: bool
    var error: Option<string>

    function View(): AlertsState
      reads this
    {
      AlertsState(alerts, pagination, stats, selectedAlert, currentPage, pageSize,
        selectedAlertType, loading, error)
    }

    /** The store in its initial state. */
    constructor()
      ensures View() == InitialAlertsState
    {
      alerts := [];
      pagination := None;
      stats := None;
      selectedAlert := None;
      currentPage := 1;
      pageSize := 20;
      selectedAlertType := None;
      loading := false;
      error := None;
    }

    /** `setSelectedAlert` */
    method SetSelectedAlert(a: Option<Alert>)
      modifies this
      ensures View() == old(View()).(selectedAlert := a)
    {
      selectedAlert := a;
    }

    /** `setCurrentPage` */
    method SetCurrentPage(page: int)
      modifies this
      ensures View() == old(View()).(currentPage := page)
    {
      currentPage := page;
    }

    /** `setPageSize`: a new page size goes back to the first page. */
    method SetPageSize(size: int)
      modifies this
      ensures View() == old(View()).(pageSize := size, currentPage := 1)
    {
      pageSize := size;
      currentPage := 1;
    }

    /** `setSelectedAlertType`: a new filter goes back to the first page. */
    method SetSelectedAlertType(t: Option<AlertType>)
      modifies this
      ensures View() == old(View()).(selectedAlertType := t, currentPage := 1)
    {
      selectedAlertType := t;
      currentPage := 1;
    }

    /** `addAlert`: `unshift`, the new alert first and the old list after it. */
    method AddAlert(a: Alert)
      modifies this
      ensures |alerts| == |old(alerts)| + 1 && alerts[0] == a && alerts[1..] == old(alerts)
      ensures View() == old(View()).(alerts := [a] + old(alerts))
    {
      alerts := [a] + alerts;
    }

    /** `updateAlert`, and the fulfilled `markAlert`, `acknowledgeAlert` and
        `resolveAlert` cases, which have the same body: the first alert with
        the payload's id is overwritten. */
    method UpdateAlert(x: Alert)
      modifies this
      ensures View() == old(View()).(alerts := ReplaceFirstById(old(alerts), x))
    {
      var index := IndexOfId(alerts, x.id);
      if index != -1 {
        alerts := alerts[index := x];
      }
    }

    /** `clearError` */
    method ClearError()
      modifies this
      ensures View() == old(View()).(error := None)
    {
      error := None;
    }

    /** `fetchAlerts.pending` */
    method FetchAlertsPending()
      modifies this
      ensures View() == old(View()).(loading := true, error := None)
    {
      loading := true;
      error := None;
    }

    /** `fetchAlerts.fulfilled`: the page replaces the list and the paging. */
    method FetchAlertsFulfilled(response: AlertsApiResponse)
      modifies this
      ensures View() == old(View()).(loading := false, alerts := response.alerts,
                                     pagination := Some(response.pagination))
    {
      loading := false;
      alerts := response.alerts;
      pagination := Some(response.pagination);
    }

    /** `fetchAlerts.rejected`; `message` is the thunk's error message. */
    method FetchAlertsRejected(message: Option<string>)
      modifies this
      ensures View() == old(View()).(loading := false, error := Some(MessageOr(message, FetchAlertsFailed)))
    {
      loading := false;
      error := Some(MessageOr(message, FetchAlertsFailed));
    }

    /** `fetchAlertStats.fulfilled` */
    method FetchAlertStatsFulfilled(s: AlertStats)
      modifies this
      ensures View() == old(View()).(stats := Some(s))
    {
      stats := Some(s);
    }

    /** `dismissAlert.fulfilled`: every alert with the id goes. */
    method DismissAlertFulfilled(id: int)
      modifies this
      ensures View() == old(View()).(alerts := WithoutId(old(alerts), id))
    {
      alerts := WithoutId(alerts, id);
    }
  }
}
