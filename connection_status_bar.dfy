/**
 * The mobile app's connection banner: the label and retry button each
 * connection status shows, when the banner and the last-updated time are
 * visible, and the retry button's busy flag.  The banner reads the status as
 * the text the data provider publishes ("connected", "connecting",
 * "offline", "error"); any other text falls to the switch's default case.
 * The 3-second hide timer is a pending flag that `TimerFires` resolves;
 * colours, icons and the pulse animation are not modelled.
 */
module ConnectionStatusBar {
  import opened Common
  import DataContext

  /** The status text the provider publishes for each status. */
  function StatusName(c: DataContext.ConnectionStatus): (r: string)
    ensures |r| >= 5
  {
    match c
    case Connected => "connected"
    case Connecting => "connecting"
    case Offline => "offline"
    case Error => "error"
  }

  /** Different statuses are published as different texts. */
  lemma StatusNameInjective(a: DataContext.ConnectionStatus, b: DataContext.ConnectionStatus)
    ensures StatusName(a) == StatusName(b) <==> a == b
  {
    if a != b {
      assert StatusName(a)[..2] != StatusName(b)[..2] || |StatusName(a)| != |StatusName(b)|;
    }
  }

  /** The text and retry flag of `getStatusConfig`. */
  datatype StatusConfig = StatusConfig(text: string, showRetry: bool)

  const UnknownLabel := "Sconosciuto"

  /** `getStatusConfig`: retry is offered for every status but "connected" and "connecting". */
  function GetStatusConfig(status: string): (r: StatusConfig)
    ensures r.showRetry <==> status != "connected" && status != "connecting"
    ensures status == "connected" ==> r.text == "Connesso"
    ensures status == "connecting" ==> r.text == "Connessione in corso..."
    ensures status == "offline" ==> r.text == "Offline"
    ensures status == "error" ==> r.text == "Connessione instabile"
    ensures status !in {"connected", "connecting", "offline", "error"} ==> r.text == UnknownLabel
  {
    if status == "connected" then StatusConfig("Connesso", false)
    else if status == "connecting" then StatusConfig("Connessione in corso...", false)
    else if status == "offline" then StatusConfig("Offline", true)
    else if status == "error" then StatusConfig("Connessione instabile", true)
    else StatusConfig(UnknownLabel, true)
  }

  /**
   * The four published statuses show four different labels, none of them the
   * unknown one, and a retry button exactly for offline and error.
   */
  lemma LabelsOneToOne(a: DataContext.ConnectionStatus, b: DataContext.ConnectionStatus)
    ensures GetStatusConfig(StatusName(a)).text == GetStatusConfig(StatusName(b)).text <==> a == b
    ensures GetStatusConfig(StatusName(a)).text != UnknownLabel
    ensures GetStatusConfig(StatusName(a)).showRetry <==> a == DataContext.Offline || a == DataContext.Error
  {
    var ta, tb := GetStatusConfig(StatusName(a)).text, GetStatusConfig(StatusName(b)).text;
    if a != b {
      assert ta[..3] != tb[..3] || |ta| != |tb|;
    }
  }

  /** The last-updated time is shown only while connected and when there is one. */
  function ShowTimestamp(status: string, lastUpdated: Option<int>): (show: bool)
    ensures show ==> lastUpdated.Some?
    ensures status != "connected" ==> !show
  {
    lastUpdated.Some? && status == "connected"
  }

  /** For a published status: the time shows exactly when connected with a recorded update. */
  lemma TimestampOnlyWhenConnected(c: DataContext.ConnectionStatus, lastUpdated: Option<int>)
    ensures ShowTimestamp(StatusName(c), lastUpdated) <==> c == DataContext.Connected && lastUpdated.Some?
  {
    StatusNameInjective(c, DataContext.Connected);
  }

  /** The banner's own state: its flag, whether the hide timer is pending, the rendered status, the busy flag. */
  datatype BarState = BarState(showBanner: bool, timerPending: bool, status: string, isRetrying: bool)

  /** The banner renders unless it is connected with its flag cleared. */
  function Visible(s: BarState): (v: bool)
    ensures !v ==> s.status == "connected"
    ensures s.showBanner ==> v
  {
    !(!s.showBanner && s.status == "connected")
  }

  /** Between events: a pending timer belongs to a connected status, and a non-connected status shows its banner. */
  predicate Consistent(s: BarState) {
    (s.timerPending ==> s.status == "connected") &&
    (s.status != "connected" ==> s.showBanner)
  }

  /** The effect keyed on the status: a change cancels the pending timer, then arms it (connected) or shows the banner. */
  function StatusChanged(s: BarState, status: string): (r: BarState)
    ensures r.status == status && r.isRetrying == s.isRetrying
    ensures Consistent(s) ==> Consistent(r)
    ensures status != "connected" ==> Visible(r)
    ensures Consistent(s) && status != "connected" ==> !r.timerPending
    ensures status == s.status ==> r == s
  {
    if status == s.status then s
    else if status == "connected" then s.(status := status, timerPending := true)
    else s.(status := status, timerPending := false, showBanner := true)
  }

  /** The hide timer's callback. */
  function TimerFired(s: BarState): (r: BarState)
    requires s.timerPending
    ensures !r.showBanner && !r.timerPending
    ensures Consistent(s) ==> Consistent(r) && !Visible(r)
  {
    s.(showBanner := false, timerPending := false)
  }

  /** The first render: the flag starts set and the effect runs once for the initial status. */
  function Mounted(status: string): (r: BarState)
    ensures Consistent(r) && Visible(r) && !r.isRetrying
    ensures r.timerPending <==> status == "connected"
  {
    if status == "connected" then BarState(true, true, status, false)
    else BarState(true, false, status, false)
  }

  /**
   * Coming back to "connected" from any other status keeps the banner up
   * until the timer fires, and the timer then hides it.
   */
  lemma ReconnectShowsThenHides(s: BarState)
    requires Consistent(s) && s.status != "connected"
    ensures Visible(StatusChanged(s, "connected")) && StatusChanged(s, "connected").timerPending
    ensures !Visible(TimerFired(StatusChanged(s, "connected")))
  {
  }

  /** A hidden banner is connected: every other status reappears at once. */
  lemma HiddenOnlyWhenConnected(s: BarState, status: string)
    requires !Visible(s)
    ensures s.status == "connected" && !s.showBanner
    ensures status != "connected" ==> Visible(StatusChanged(s, status))
  {
  }

  class StatusBar {
    var showBanner: bool
    var timerPending: bool
    var status: string
    var isRetrying: bool

    function State(): BarState
      reads this
    {
      BarState(showBanner, timerPending, status, isRetrying)
    }

    constructor(initial: string)
      ensures State() == Mounted(initial)
    {
      showBanner, status, isRetrying := true, initial, false;
      timerPending := initial == "connected";
    }

    /** A re-render with the provider's current status. */
    method OnStatusChange(newStatus: string)
      modifies this
      ensures State() == StatusChanged(old(State()), newStatus)
    {
      if newStatus != status {
        timerPending := false;
        status := newStatus;
        if newStatus == "connected" {
          timerPending := true;
        } else {
          showBanner := true;
        }
      }
    }

    method TimerFires()
      requires timerPending
      modifies this
      ensures State() == TimerFired(old(State()))
    {
      showBanner := false;
      timerPending := false;
    }

    /**
     * `handleRetry`: the busy flag is raised while the provider's
     * `retryConnection` runs and lowered after it; `busy` is its value
     * during the call.
     */
    method HandleRetry(provider: DataContext.DataProvider, outcome: Option<DataContext.Fetched>, now: int)
      returns (busy: bool)
      modifies this, provider
      ensures busy && !isRetrying
      ensures showBanner == old(showBanner) && timerPending == old(timerPending) && status == old(status)
      ensures provider.State() == DataContext.Retried(old(provider.State()), outcome, now)
    {
      isRetrying := true;
      busy := isRetrying;
      provider.RetryConnection(outcome, now);
      isRetrying := false;
    }
  }
}
