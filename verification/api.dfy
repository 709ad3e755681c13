/**
 The two remote reads behind the dashboard and their fail-fast join.
 A fetch is given by its outcome: the request may reject, the response may carry a
 non-success status, and reading the body as JSON may fail. Which rejection the
 join reports when both reads fail depends on timing and is a parameter.
 */
module Api {
  import opened Wrappers

  datatype Activity = Activity(id: string, kind: string, description: string, timestamp: string)

  datatype AnalyticsSummary = AnalyticsSummary(
    widgetTitle: string,
    totalUsers: int,
    newSignupsToday: int,
    activeUsers: int,
    revenueToday: string,
    conversionRate: string,
    recentActivities: seq<Activity>
  )

  datatype Notification = Notification(id: string, message: string, severity: string, read: bool)

  datatype DashboardData = DashboardData(analyticsSummary: AnalyticsSummary, notifications: seq<Notification>)

  /** What a rejected promise carries: an `Error` object with its message, or some other value. */
  datatype Thrown = ErrorObject(message: string) | OtherValue

  /** A received response: its `ok` flag and the outcome of parsing its body as JSON. */
  datatype Response<T> = Response(ok: bool, json: Result<T, Thrown>)

  /** The outcome of `fetch` itself, which rejects on network failure. */
  type FetchOutcome<T> = Result<Response<T>, Thrown>

  const SummaryFailure: string := "Failed to fetch analytics summary"
  const NotificationsFailure: string := "Failed to fetch notifications"

  /** Which of the two reads rejected first. */
  datatype Side = SummarySide | NotificationsSide

  /**
   One read: a rejected request is re-raised unchanged, a non-success status raises
   an `Error` with the read's fixed message, and otherwise the parsed body is the
   result, parse errors included.
   */
  function Read<T>(outcome: FetchOutcome<T>, failure: string): (r: Result<T, Thrown>)
    ensures r.Success? <==> outcome.Success? && outcome.value.ok && outcome.value.json.Success?
    ensures r.Success? ==> r.value == outcome.value.json.value
    ensures outcome.Failure? ==> r.error == outcome.error
    ensures outcome.Success? && !outcome.value.ok ==> r.error == ErrorObject(failure)
    ensures outcome.Success? && outcome.value.ok && outcome.value.json.Failure? ==> r.error == outcome.value.json.error
  {
    match outcome
    case Failure(e) => Failure(e)
    case Success(response) =>
      if !response.ok then Failure(ErrorObject(failure))
      else response.json
  }

  /** The summary read; a non-success status raises "Failed to fetch analytics summary". */
  function FetchAnalyticsSummary(outcome: FetchOutcome<AnalyticsSummary>): (r: Result<AnalyticsSummary, Thrown>)
    ensures r.Success? <==> outcome.Success? && outcome.value.ok && outcome.value.json.Success?
    ensures r.Success? ==> r.value == outcome.value.json.value
    ensures outcome.Success? && !outcome.value.ok ==> r == Failure(ErrorObject(SummaryFailure))
    ensures outcome.Success? && outcome.value.ok && outcome.value.json.Failure? ==> r == Failure(outcome.value.json.error)
    ensures outcome.Failure? ==> r == Failure(outcome.error)
  {
    Read(outcome, SummaryFailure)
  }

  /** The notifications read; a non-success status raises "Failed to fetch notifications". */
  function FetchNotifications(outcome: FetchOutcome<seq<Notification>>): (r: Result<seq<Notification>, Thrown>)
    ensures r.Success? <==> outcome.Success? && outcome.value.ok && outcome.value.json.Success?
    ensures r.Success? ==> r.value == outcome.value.json.value
    ensures outcome.Success? && !outcome.value.ok ==> r == Failure(ErrorObject(NotificationsFailure))
    ensures outcome.Success? && outcome.value.ok && outcome.value.json.Failure? ==> r == Failure(outcome.value.json.error)
    ensures outcome.Failure? ==> r == Failure(outcome.error)
  {
    Read(outcome, NotificationsFailure)
  }

  /**
   The `Promise.all` join: both results succeed and are paired unchanged, or the
   whole join fails with one of the failures and no data at all.
   */
  function Join(summary: Result<AnalyticsSummary, Thrown>, notifications: Result<seq<Notification>, Thrown>,
                firstRejected: Side): (r: Result<DashboardData, Thrown>)
    ensures r.Success? <==> summary.Success? && notifications.Success?
    ensures r.Success? ==>
      r.value.analyticsSummary == summary.value && r.value.notifications == notifications.value
    ensures r.Failure? ==>
      (summary.Failure? && r.error == summary.error) || (notifications.Failure? && r.error == notifications.error)
    ensures summary.Failure? && notifications.Success? ==> r.error == summary.error
    ensures summary.Success? && notifications.Failure? ==> r.error == notifications.error
  {
    match (summary, notifications)
    case (Success(s), Success(n)) => Success(DashboardData(s, n))
    case (Failure(e), Success(_)) => Failure(e)
    case (Success(_), Failure(e)) => Failure(e)
    case (Failure(e1), Failure(e2)) =>
      if firstRejected == SummarySide then Failure(e1) else Failure(e2)
  }

  /** The dashboard read: both fetches, joined fail-fast; every failure is re-raised. */
  function FetchDashboardData(summary: FetchOutcome<AnalyticsSummary>, notifications: FetchOutcome<seq<Notification>>,
                              firstRejected: Side): (r: Result<DashboardData, Thrown>)
    ensures r.Success? <==>
      && summary.Success? && summary.value.ok && summary.value.json.Success?
      && notifications.Success? && notifications.value.ok && notifications.value.json.Success?
    ensures r.Success? ==> r.value == DashboardData(summary.value.json.value, notifications.value.json.value)
    ensures r.Failure? ==>
      || (FetchAnalyticsSummary(summary).Failure? && r.error == FetchAnalyticsSummary(summary).error)
      || (FetchNotifications(notifications).Failure? && r.error == FetchNotifications(notifications).error)
  {
    Join(FetchAnalyticsSummary(summary), FetchNotifications(notifications), firstRejected)
  }

  /** The rejection order matters only when both reads fail. */
  lemma JoinOrderIrrelevantUnlessBothFail(summary: Result<AnalyticsSummary, Thrown>,
                                          notifications: Result<seq<Notification>, Thrown>)
    requires summary.Success? || notifications.Success?
    ensures Join(summary, notifications, SummarySide) == Join(summary, notifications, NotificationsSide)
  {
  }

  /** When both reads fail, either failure can be the one reported. */
  lemma BothFailuresReachable(e1: Thrown, e2: Thrown)
    ensures Join(Failure(e1), Failure(e2), SummarySide) == Failure(e1)
    ensures Join(Failure(e1), Failure(e2), NotificationsSide) == Failure(e2)
  {
  }

  /**
   End to end: the dashboard read succeeds exactly when both requests resolve with a
   success status and parsable bodies, and then carries both bodies unchanged.
   */
  lemma FetchDashboardDataSucceeds(summary: FetchOutcome<AnalyticsSummary>,
                                   notifications: FetchOutcome<seq<Notification>>, firstRejected: Side)
    ensures var r := FetchDashboardData(summary, notifications, firstRejected);
      && (r.Success? <==>
           && summary.Success? && summary.value.ok && summary.value.json.Success?
           && notifications.Success? && notifications.value.ok && notifications.value.json.Success?)
      && (r.Success? ==>
           r.value == DashboardData(summary.value.json.value, notifications.value.json.value))
  {
  }

  /**
   End to end: a failed dashboard read reports an error that one of the two reads
   raised: a request rejection, a read's fixed status message, or a parse error.
   */
  lemma FetchDashboardDataErrorProvenance(summary: FetchOutcome<AnalyticsSummary>,
                                          notifications: FetchOutcome<seq<Notification>>, firstRejected: Side)
    ensures var r := FetchDashboardData(summary, notifications, firstRejected);
      r.Failure? ==>
        || (summary.Failure? && r.error == summary.error)
        || (summary.Success? && !summary.value.ok && r.error == ErrorObject(SummaryFailure))
        || (summary.Success? && summary.value.json.Failure? && r.error == summary.value.json.error)
        || (notifications.Failure? && r.error == notifications.error)
        || (notifications.Success? && !notifications.value.ok && r.error == ErrorObject(NotificationsFailure))
        || (notifications.Success? && notifications.value.json.Failure? && r.error == notifications.value.json.error)
  {
  }
}
