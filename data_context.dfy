/**
 * The mobile app's data provider (DataContext.tsx): cached data, a connection
 * status, a retry counter, and the three operations `refreshData`,
 * `retryConnection` and `setTargetTemp`.
 *
 * React callbacks read the state of the render that created them, not the
 * latest state. `refreshData` therefore decides on a `Snapshot` of status and
 * retry count that may be older than the fields it updates; the functional
 * update `setRetryCount(prev => prev + 1)` alone uses the latest value.
 */
module DataContext {
  import opened Common
  import opened ApiClient

  datatype ConnectionStatus = Connected | Connecting | Offline | Error

  /** The status and retry count a `refreshData` closure captured. */
  datatype Snapshot = Snapshot(status: ConnectionStatus, retryCount: int)

  /** The five values one successful `Promise.all` of the refresh returns. */
  datatype Fetched = Fetched(
    boiler: BoilerStatus, room: RoomStatus, windows: seq<WindowSensor>,
    schedules: seq<Schedule>, energy: EnergyData)

  /** The provider's whole state; `lastUpdated` is a clock reading. */
  datatype ProviderState = ProviderState(
    boiler: BoilerStatus, room: RoomStatus, windows: seq<WindowSensor>,
    schedules: seq<Schedule>, energy: EnergyData, isLoading: bool,
    status: ConnectionStatus, lastUpdated: Option<int>,
    errorMessage: Option<string>, retryCount: int)

  const LostMessage := "Connessione persa. Usando dati cached."
  const OfflineMessage := "Server non raggiungibile. Modalità offline."
  const SetOfflineMessage := "Impossibile impostare: offline"
  const SetErrorMessage := "Errore nell'impostare la temperatura"

  const DefaultBoiler := BoilerStatus(45.0, 1.5, 0.0, false, None, None, None)
  const DefaultRoom := RoomStatus(20.0, 21.0)
  const DefaultWindows := [
    WindowSensor("1", "Soggiorno", false),
    WindowSensor("2", "Camera", false),
    WindowSensor("3", "Cucina", false),
    WindowSensor("4", "Bagno", false)]
  const DefaultSchedules := [
    Schedule("1", "06:00", 22.0, true),
    Schedule("2", "09:00", 19.0, true),
    Schedule("3", "17:00", 21.0, true),
    Schedule("4", "22:00", 18.0, true)]
  const DefaultEnergy := EnergyData(145.0, 168.0, [])

  /**
   * The state after one `refreshData` run that captured `seen`, starting from
   * the latest state `s`; `None` is the 8-second timeout, the only failure,
   * because each client getter catches its own errors and returns its
   * fallback, so `Promise.all` never rejects.
   */
  function Refreshed(s: ProviderState, seen: Snapshot, outcome: Option<Fetched>, now: int): (r: ProviderState)
    ensures !r.isLoading
    ensures outcome.Some? ==>
      && r.boiler == outcome.value.boiler && r.room == outcome.value.room
      && r.windows == outcome.value.windows && r.schedules == outcome.value.schedules
      && r.energy == outcome.value.energy
      && r.status == Connected && r.lastUpdated == Some(now)
      && r.errorMessage == None && r.retryCount == 0
    ensures outcome.None? ==>
      && r.boiler == s.boiler && r.room == s.room && r.windows == s.windows
      && r.schedules == s.schedules && r.energy == s.energy
      && r.lastUpdated == s.lastUpdated
    ensures outcome.None? && seen.status == Connected ==>
      && r.status == Error && r.retryCount == s.retryCount
      && r.errorMessage.Some? && |r.errorMessage.value| > 0
    ensures outcome.None? && seen.status != Connected ==>
      && r.retryCount == s.retryCount + 1
      && (r.status == Offline <==> seen.retryCount >= 2)
      && (r.status == Connecting <==> seen.retryCount < 2)
      && (seen.retryCount < 2 ==> r.errorMessage == s.errorMessage)
      && (seen.retryCount >= 2 ==> r.errorMessage == Some(OfflineMessage))
  {
    Settled(Entered(s, seen), seen, outcome, now)
  }

  /** The first step of a refresh: leaving offline announces a new attempt. */
  function Entered(s: ProviderState, seen: Snapshot): ProviderState {
    if seen.status == Offline && seen.retryCount < 3 then s.(status := Connecting) else s
  }

  /** The rest of a refresh: the fetch's outcome, judged by the captured snapshot, then loading ends. */
  function Settled(s: ProviderState, seen: Snapshot, outcome: Option<Fetched>, now: int): ProviderState {
    var after :=
      match outcome
      case Some(f) =>
        s.(boiler := f.boiler, room := f.room, windows := f.windows,
           schedules := f.schedules, energy := f.energy, status := Connected,
           lastUpdated := Some(now), errorMessage := None, retryCount := 0)
      case None =>
        if seen.status == Connected then
          s.(status := Error, errorMessage := Some(LostMessage))
        else if seen.retryCount >= 2 then
          s.(retryCount := s.retryCount + 1, status := Offline, errorMessage := Some(OfflineMessage))
        else
          s.(retryCount := s.retryCount + 1, status := Connecting);
    after.(isLoading := false)
  }

  /** The interval `useEffect` arms: 15 s while offline, 10 s otherwise. */
  function PollingIntervalMs(status: ConnectionStatus): (ms: int)
    ensures ms == 15000 <==> status == Offline
    ensures ms == 10000 <==> status != Offline
  {
    if status == Offline then 15000 else 10000
  }

  /** `retryConnection`: the reset, then the closure of the same render (which saw the pre-reset state). */
  function Retried(s: ProviderState, outcome: Option<Fetched>, now: int): (r: ProviderState)
  {
    Refreshed(s.(status := Connecting, retryCount := 0, errorMessage := None),
              Snapshot(s.status, s.retryCount), outcome, now)
  }

  /** A successful retry connects whatever the state before. */
  lemma RetrySuccessConnects(s: ProviderState, f: Fetched, now: int)
    ensures Retried(s, Some(f), now).status == Connected
    ensures Retried(s, Some(f), now).retryCount == 0
    ensures Retried(s, Some(f), now).errorMessage == None
  {
  }

  /**
   * A failed retry counts one attempt from zero; because the closure saw the
   * pre-reset count, a retry from a count of at least 2 lands back offline.
   */
  lemma RetryFailure(s: ProviderState, now: int)
    requires s.status != Connected
    ensures Retried(s, None, now).retryCount == 1
    ensures Retried(s, None, now).status == Offline <==> s.retryCount >= 2
  {
  }

  // ---------------------------------------------------------------- repeated failures

  /** `n` failed refreshes in a row, every one run by the same closure `seen`. */
  function FailWith(s: ProviderState, seen: Snapshot, n: nat): ProviderState
    decreases n
  {
    if n == 0 then s else Refreshed(FailWith(s, seen, n - 1), seen, None, 0)
  }

  /** `n` failed refreshes in a row, each run by a closure that saw the state it starts from. */
  function FailFresh(s: ProviderState, n: nat): ProviderState
    decreases n
  {
    if n == 0 then s
    else
      var p := FailFresh(s, n - 1);
      Refreshed(p, Snapshot(p.status, p.retryCount), None, 0)
  }

  /**
   * A failing closure that saw `connecting` with a count below 2 keeps the
   * status at `connecting` however often it runs, while the count grows.
   * The polling interval is re-armed only when the status changes, so from
   * `connecting` it keeps exactly such a closure and never reaches `offline`.
   */
  lemma {:induction false} StaleIntervalStaysConnecting(s: ProviderState, k: int, n: nat)
    requires s.status == Connecting && k < 2
    ensures FailWith(s, Snapshot(Connecting, k), n).status == Connecting
    ensures FailWith(s, Snapshot(Connecting, k), n).retryCount == s.retryCount + n
    decreases n
  {
    if n > 0 {
      StaleIntervalStaysConnecting(s, k, n - 1);
    }
  }

  /** With a fresh snapshot each time, the third failure from `connecting` with count 0 is offline. */
  lemma FreshRefreshReachesOffline(s: ProviderState)
    requires s.status == Connecting && s.retryCount == 0
    ensures FailFresh(s, 1).status == Connecting && FailFresh(s, 1).retryCount == 1
    ensures FailFresh(s, 2).status == Connecting && FailFresh(s, 2).retryCount == 2
    ensures FailFresh(s, 3).status == Offline && FailFresh(s, 3).retryCount == 3
    ensures FailFresh(s, 3).errorMessage == Some(OfflineMessage)
  {
  }

  // ---------------------------------------------------------------- the provider

  /** The outcome of the `mobileApiClient.setTargetTemperature` await: a reply, or a throw. */
  datatype CallOutcome = Returned(reply: Response<SuccessJson>) | Threw

  class DataProvider {
    var boiler: BoilerStatus
    var room: RoomStatus
    var windows: seq<WindowSensor>
    var schedules: seq<Schedule>
    var energy: EnergyData
    var isLoading: bool
    var status: ConnectionStatus
    var lastUpdated: Option<int>
    var errorMessage: Option<string>
    var retryCount: int

    function State(): ProviderState
      reads this
    {
      ProviderState(boiler, room, windows, schedules, energy, isLoading,
                    status, lastUpdated, errorMessage, retryCount)
    }

    /** What a closure created now would capture. */
    function Current(): Snapshot
      reads this
    {
      Snapshot(status, retryCount)
    }

    /** The initial `useState` values. */
    constructor()
      ensures State() == ProviderState(DefaultBoiler, DefaultRoom, DefaultWindows, DefaultSchedules,
                                       DefaultEnergy, true, Connecting, None, None, 0)
    {
      boiler, room, windows, schedules, energy := DefaultBoiler, DefaultRoom, DefaultWindows, DefaultSchedules, DefaultEnergy;
      isLoading, status, lastUpdated, errorMessage, retryCount := true, Connecting, None, None, 0;
    }

    /**
     * One run of a `refreshData` closure that captured `seen`. `trace` lists
     * every status written, in order.
     */
    method RefreshWith(seen: Snapshot, outcome: Option<Fetched>, now: int) returns (trace: seq<ConnectionStatus>)
      modifies this
      ensures State() == Refreshed(old(State()), seen, outcome, now)
      ensures seen.status == Offline && seen.retryCount < 3 ==> |trace| == 2 && trace[0] == Connecting
      ensures |trace| > 0 && trace[|trace| - 1] == status
    {
      trace := [];
      if seen.status == Offline && seen.retryCount < 3 {
        status := Connecting;
        trace := trace + [status];
      }
      Settle(seen, outcome, now);
      trace := trace + [status];
    }

    /** The part of `refreshData` after the fetch returned or failed. */
    method Settle(seen: Snapshot, outcome: Option<Fetched>, now: int)
      modifies this
      ensures State() == Settled(old(State()), seen, outcome, now)
    {
      match outcome {
        case Some(f) =>
          boiler, room, windows, schedules, energy := f.boiler, f.room, f.windows, f.schedules, f.energy;
          status := Connected;
          lastUpdated := Some(now);
          errorMessage := None;
          retryCount := 0;
        case None =>
          if seen.status == Connected {
            status := Error;
            errorMessage := Some(LostMessage);
          } else {
            retryCount := retryCount + 1;
            if seen.retryCount >= 2 {
              status := Offline;
              errorMessage := Some(OfflineMessage);
            } else {
              status := Connecting;
            }
          }
      }
      isLoading := false;
    }

    /** `refreshData` from the current render. */
    method RefreshData(outcome: Option<Fetched>, now: int)
      modifies this
      ensures State() == Refreshed(old(State()), old(Current()), outcome, now)
    {
      var _ := RefreshWith(Current(), outcome, now);
    }

    /** `retryConnection`: reset status, count and message, then await the same render's `refreshData`. */
    method RetryConnection(outcome: Option<Fetched>, now: int)
      modifies this
      ensures State() == Retried(old(State()), outcome, now)
    {
      var seen := Current();
      status := Connecting;
      retryCount := 0;
      errorMessage := None;
      var _ := RefreshWith(seen, outcome, now);
    }

    /**
     * `setTargetTemp(temp)`: `called` says whether the client was asked,
     * `refreshAfterMs` the delay of the refresh it schedules, if any.
     */
    method SetTargetTemp(temp: real, outcome: CallOutcome) returns (ok: bool, called: bool, refreshAfterMs: Option<int>)
      modifies this
      ensures old(status) == Offline ==>
        && !ok && !called && refreshAfterMs == None
        && State() == old(State()).(errorMessage := Some(SetOfflineMessage))
      ensures old(status) != Offline ==> called
      ensures old(status) != Offline && outcome.Returned? ==>
        && (ok <==> SetTargetTemperature(outcome.reply))
        && (ok ==> State() == old(State()).(room := old(room).(targetTemp := temp)) && refreshAfterMs == Some(1000))
        && (!ok ==> State() == old(State()) && refreshAfterMs == None)
      ensures old(status) != Offline && outcome.Threw? ==>
        && !ok && refreshAfterMs == None
        && State() == old(State()).(errorMessage := Some(SetErrorMessage))
    {
      refreshAfterMs := None;
      if status == Offline {
        errorMessage := Some(SetOfflineMessage);
        return false, false, None;
      }
      called := true;
      match outcome {
        case Returned(reply) =>
          ok := SetTargetTemperature(reply);
          if ok {
            room := room.(targetTemp := temp);
            refreshAfterMs := Some(1000);
          }
        case Threw =>
          errorMessage := Some(SetErrorMessage);
          ok := false;
      }
    }
  }
}
