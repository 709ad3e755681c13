/**
 The dashboard screen: the load-state machine around the dashboard read, the order
 in which the screen chooses what to render, and what the rendered dashboard
 derives from the data (unread count and badge, the recent-activity and
 notification excerpts, severity colours and activity icons).
 */
module Dashboard {
  import opened Wrappers
  import Seqs
  import Api

  /** The screen's state: the loaded data, the busy flag, the error message and the panel switch. */
  datatype PageState = PageState(
    data: Option<Api.DashboardData>,
    loading: bool,
    error: Option<string>,
    showNotifications: bool
  )

  /** The state on mount, before the read completes. */
  const Initial: PageState := PageState(None, true, None, false)

  /** The message shown when the rejection is not an `Error` object. */
  const FallbackMessage: string := "Failed to load data"

  const RecentLimit: nat := 3
  const PanelLimit: nat := 5

  datatype Colour = Red | Blue | Gray

  datatype Icon = UserPlus | DollarSign | Pulse | TrendingUp

  /** The notification side panel, when open. */
  datatype Panel = Panel(entries: seq<Api.Notification>, emptyMessage: bool, markAllButton: bool)

  /** What the loaded dashboard shows. */
  datatype MainView = MainView(
    title: string,
    unreadCount: nat,
    badge: bool,
    recent: seq<Api.Activity>,
    panel: Option<Panel>
  )

  /** What the screen renders: a spinner, the error panel, nothing, or the dashboard. */
  datatype Screen = Spinner | ErrorPanel(message: string) | Blank | Main(view: MainView)

  /** The message the screen keeps from a rejection. */
  function ErrorMessage(e: Api.Thrown): (m: string)
    ensures e.ErrorObject? ==> m == e.message
    ensures e.OtherValue? ==> m == FallbackMessage
  {
    match e
    case ErrorObject(m) => m
    case OtherValue => FallbackMessage
  }

  /**
   The mount-time load: mark busy, then store the data on success or the message on
   failure, and in every case end not busy. Nothing else of the state changes.
   */
  function LoadData(s: PageState, outcome: Result<Api.DashboardData, Api.Thrown>): (r: PageState)
    ensures !r.loading
    ensures outcome.Success? ==> r.data == Some(outcome.value) && r.error == s.error
    ensures outcome.Failure? ==> r.data == s.data && r.error == Some(ErrorMessage(outcome.error))
    ensures r.showNotifications == s.showNotifications
  {
    var busy := s.(loading := true);
    var settled := match outcome
      case Success(d) => busy.(data := Some(d))
      case Failure(e) => busy.(error := Some(ErrorMessage(e)));
    settled.(loading := false)
  }

  function IsUnread(n: Api.Notification): bool
  {
    !n.read
  }

  /** The number of unread notifications, as the length of the unread filter. */
  function UnreadCount(notifications: seq<Api.Notification>): (c: nat)
    ensures c <= |notifications|
    ensures notifications == [] ==> c == 0
    ensures c == 0 <==> forall i :: 0 <= i < |notifications| ==> notifications[i].read
  {
    Seqs.FilterEmpty(notifications, IsUnread);
    |Seqs.Filter(notifications, IsUnread)|
  }

  /** The unread count is the number of positions holding an unread notification. */
  lemma UnreadCountIsCardinality(notifications: seq<Api.Notification>)
    ensures UnreadCount(notifications) == |set i | 0 <= i < |notifications| && !notifications[i].read|
  {
    Seqs.FilterLength(notifications, IsUnread);
    assert Seqs.KeptIndices(notifications, IsUnread)
        == set i | 0 <= i < |notifications| && !notifications[i].read;
  }

  /** The badge shows exactly when some notification is unread. */
  lemma BadgeIffUnread(notifications: seq<Api.Notification>)
    ensures UnreadCount(notifications) > 0 <==> exists i :: 0 <= i < |notifications| && !notifications[i].read
  {
  }

  /** The severity badge colour: "high" alone is red, "info" alone is blue, everything else gray. */
  function SeverityColour(severity: string): (c: Colour)
    ensures c == Red <==> severity == "high"
    ensures c == Blue <==> severity == "info"
    ensures c == Gray <==> severity != "high" && severity != "info"
  {
    if severity == "high" then Red
    else if severity == "info" then Blue
    else Gray
  }

  /** The activity icon: three types have their own, every other type shares the default. */
  function ActivityIcon(kind: string): (icon: Icon)
    ensures icon == UserPlus <==> kind == "New User"
    ensures icon == DollarSign <==> kind == "Transaction"
    ensures icon == Pulse <==> kind == "Login"
    ensures icon == TrendingUp <==> kind !in ["New User", "Transaction", "Login"]
  {
    if kind == "New User" then UserPlus
    else if kind == "Transaction" then DollarSign
    else if kind == "Login" then Pulse
    else TrendingUp
  }

  /** The declared severity "low" shares gray with unknown severities. */
  lemma LowIsGray()
    ensures SeverityColour("low") == Gray
  {
  }

  /** The type "Update" has no icon of its own on this screen. */
  lemma UpdateHasDefaultIcon()
    ensures ActivityIcon("Update") == TrendingUp
  {
  }

  /** The side panel: an empty-state message or the first entries, and the mark-all button. */
  function NotificationPanel(notifications: seq<Api.Notification>): (p: Panel)
    ensures p.emptyMessage <==> notifications == []
    ensures p.markAllButton <==> |notifications| > 0
    ensures |p.entries| == if |notifications| < PanelLimit then |notifications| else PanelLimit
    ensures forall i :: 0 <= i < |p.entries| ==> p.entries[i] == notifications[i]
  {
    if |notifications| == 0 then Panel([], true, false)
    else Panel(Seqs.Take(notifications, PanelLimit), false, true)
  }

  /** The loaded dashboard for data `d`, with the side panel open or closed. */
  function View(d: Api.DashboardData, panelOpen: bool): (v: MainView)
    ensures v.title == d.analyticsSummary.widgetTitle
    ensures v.unreadCount == UnreadCount(d.notifications)
    ensures v.badge <==> v.unreadCount > 0
    ensures var acts := d.analyticsSummary.recentActivities;
      && |v.recent| == (if |acts| < RecentLimit then |acts| else RecentLimit)
      && forall i :: 0 <= i < |v.recent| ==> v.recent[i] == acts[i]
    ensures v.panel.Some? <==> panelOpen
    ensures panelOpen ==> v.panel == Some(NotificationPanel(d.notifications))
  {
    var count := UnreadCount(d.notifications);
    MainView(
      d.analyticsSummary.widgetTitle,
      count,
      count > 0,
      Seqs.Take(d.analyticsSummary.recentActivities, RecentLimit),
      if panelOpen then Some(NotificationPanel(d.notifications)) else None)
  }

  /**
   The render order: the spinner while busy, then a non-empty error message, then
   nothing when there is no data, and only then the dashboard.
   */
  function Render(s: PageState): (r: Screen)
    ensures r.Spinner? <==> s.loading
    ensures r.ErrorPanel? <==> !s.loading && s.error.Some? && s.error.value != ""
    ensures r.ErrorPanel? ==> r.message == s.error.value
    ensures r.Main? <==> !s.loading && (s.error.None? || s.error.value == "") && s.data.Some?
    ensures r.Main? ==> r.view == View(s.data.value, s.showNotifications)
  {
    if s.loading then Spinner
    else if s.error.Some? && s.error.value != "" then ErrorPanel(s.error.value)
    else if s.data.None? then Blank
    else Main(View(s.data.value, s.showNotifications))
  }

  /** Opening and closing the side panel changes nothing but the panel switch. */
  function SetPanel(s: PageState, open: bool): (r: PageState)
    ensures r.showNotifications == open
    ensures r.data == s.data && r.error == s.error && r.loading == s.loading
  {
    s.(showNotifications := open)
  }

  /** On mount, the spinner shows until the read completes. */
  lemma MountShowsSpinner()
    ensures Render(Initial) == Spinner
  {
  }

  /** A successful read on mount shows the dashboard for exactly the data read. */
  lemma MountSuccessShowsData(d: Api.DashboardData)
    ensures Render(LoadData(Initial, Success(d))) == Main(View(d, false))
  {
  }

  /**
   A failed read on mount leaves no data and shows the error panel with the
   rejection's message, or the fallback message for a rejection that is not an
   `Error`, unless that message is empty, when nothing is rendered at all.
   */
  lemma MountFailureShowsError(e: Api.Thrown)
    ensures LoadData(Initial, Failure(e)).data.None?
    ensures ErrorMessage(e) != "" ==> Render(LoadData(Initial, Failure(e))) == ErrorPanel(ErrorMessage(e))
    ensures e == Api.OtherValue ==> Render(LoadData(Initial, Failure(e))) == ErrorPanel(FallbackMessage)
    ensures ErrorMessage(e) == "" ==> Render(LoadData(Initial, Failure(e))) == Blank
  {
  }

  /**
   End to end: after mounting, the dashboard is shown exactly when both reads
   succeed; any failure of either read keeps every part of the data off the screen.
   */
  lemma MountShowsDashboardIffBothReadsSucceed(summary: Api.FetchOutcome<Api.AnalyticsSummary>,
                                               notifications: Api.FetchOutcome<seq<Api.Notification>>,
                                               firstRejected: Api.Side)
    ensures var outcome := Api.FetchDashboardData(summary, notifications, firstRejected);
      && (Render(LoadData(Initial, outcome)).Main?
          <==> Api.FetchAnalyticsSummary(summary).Success? && Api.FetchNotifications(notifications).Success?)
      && (outcome.Failure? ==> LoadData(Initial, outcome).data.None?)
  {
  }
}
