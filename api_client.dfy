/**
 * The mobile client's view of the mobile API (MobileApiClient.ts): each HTTP
 * reply is an input, and each operation maps it to the client's camelCase
 * record, falling back to fixed values on any failure.
 */
module ApiClient {
  import opened Common
  import opened Text

  /** A JSON value where the client compares with `=== true`. */
  datatype Json = JNull | JBool(b: bool) | JNum(n: real) | JStr(s: string) | JOther

  /** `x === true` on an optional JSON field. */
  predicate IsTrue(v: Option<Json>) {
    v == Some(JBool(true))
  }

  /**
   * What one `fetch` produced: a parsed body from an `ok` response, a
   * non-ok status, or a rejection (network error, invalid JSON).
   */
  datatype Response<T> = Ok(body: T) | NotOk(status: int) | Rejected

  // ---------------------------------------------------------------- records

  datatype BoilerStatus = BoilerStatus(
    waterTemp: real, pressure: real, modulation: real, flameOn: bool,
    returnTemp: Option<real>, setpoint: Option<real>, enabled: Option<bool>)

  datatype RoomStatus = RoomStatus(currentTemp: real, targetTemp: real)

  datatype WindowSensor = WindowSensor(id: string, name: string, isOpen: bool)

  datatype Schedule = Schedule(id: string, time: string, temperature: real, active: bool)

  datatype EnergyData = EnergyData(currentMonth: real, previousMonth: real, daily: seq<real>)

  /** The snake_case body of `GET /boiler/status`; a `None` field is `null` or missing. */
  datatype BoilerJson = BoilerJson(
    waterTemp: Option<real>, pressure: Option<real>, modulation: Option<real>,
    flameOn: Option<Json>, returnTemp: Option<real>, setpoint: Option<real>,
    enabled: Option<bool>)

  datatype WindowJson = WindowJson(roomName: string, isOpen: Option<Json>, entityId: string)

  /** The body of `GET /environment`. */
  datatype EnvironmentJson = EnvironmentJson(
    indoorTemp: Option<real>, outdoorTemp: Option<real>, windows: Option<seq<WindowJson>>)

  datatype ScheduleJson = ScheduleJson(
    id: string, time: string, temperature: real, enabled: Option<Json>, active: Option<Json>)

  datatype SuccessJson = SuccessJson(success: Option<Json>)

  // ---------------------------------------------------------------- fallbacks

  const BoilerFallback := BoilerStatus(65.3, 1.5, 75.0, true, None, None, None)
  const RoomFallback := RoomStatus(20.5, 21.0)
  const WindowsFallback := [
    WindowSensor("1", "Soggiorno", false),
    WindowSensor("2", "Camera da Letto", true),
    WindowSensor("3", "Cucina", false),
    WindowSensor("4", "Bagno", false)]
  const SchedulesFallback := [
    Schedule("1", "06:00", 22.0, true),
    Schedule("2", "09:00", 19.0, true),
    Schedule("3", "17:00", 21.0, true),
    Schedule("4", "22:00", 18.0, true)]
  const EnergyPlaceholder := EnergyData(145.0, 168.0, [])

  // ---------------------------------------------------------------- operations

  /** `getBoilerStatus`: snake_case to camelCase, missing numbers as 0, fixed fallback on failure. */
  function GetBoilerStatus(r: Response<BoilerJson>): (b: BoilerStatus)
    ensures !r.Ok? ==> b == BoilerFallback
    ensures r.Ok? ==>
      && b.waterTemp == r.body.waterTemp.GetOr(0.0)
      && b.pressure == r.body.pressure.GetOr(0.0)
      && b.modulation == r.body.modulation.GetOr(0.0)
      && (b.flameOn <==> r.body.flameOn == Some(JBool(true)))
      && b.returnTemp == r.body.returnTemp
      && b.setpoint == r.body.setpoint
      && b.enabled == r.body.enabled
  {
    match r
    case Ok(d) =>
      BoilerStatus(
        d.waterTemp.GetOr(0.0), d.pressure.GetOr(0.0), d.modulation.GetOr(0.0),
        IsTrue(d.flameOn), d.returnTemp, d.setpoint, d.enabled)
    case _ => BoilerFallback
  }

  /**
   * `getRoomStatus`: the indoor temperature from `/environment` and the target
   * from a nested `getBoilerStatus` (fetched only when the first call succeeded).
   */
  function GetRoomStatus(env: Response<EnvironmentJson>, boiler: Response<BoilerJson>): (s: RoomStatus)
    ensures !env.Ok? ==> s == RoomFallback
    ensures env.Ok? ==> s.currentTemp == env.body.indoorTemp.GetOr(20.0)
    ensures env.Ok? ==> s.targetTemp == GetBoilerStatus(boiler).setpoint.GetOr(21.0)
  {
    match env
    case Ok(d) => RoomStatus(d.indoorTemp.GetOr(20.0), GetBoilerStatus(boiler).setpoint.GetOr(21.0))
    case _ => RoomFallback
  }

  /** The mapping applied to one window: position `index` gets id `String(index + 1)`. */
  function MapWindow(w: WindowJson, index: nat): WindowSensor {
    WindowSensor(NatToString(index + 1), w.roomName, IsTrue(w.isOpen))
  }

  function MapWindows(ws: seq<WindowJson>): (r: seq<WindowSensor>)
    ensures |r| == |ws|
    ensures forall i :: 0 <= i < |ws| ==> r[i] == MapWindow(ws[i], i)
  {
    seq(|ws|, i requires 0 <= i < |ws| => MapWindow(ws[i], i))
  }

  /** `getWindowSensors`. */
  function GetWindowSensors(r: Response<EnvironmentJson>): (s: seq<WindowSensor>)
    ensures !r.Ok? ==> s == WindowsFallback
    ensures r.Ok? && r.body.windows.None? ==> s == []
    ensures r.Ok? && r.body.windows.Some? ==>
      |s| == |r.body.windows.value| &&
      forall i :: 0 <= i < |s| ==>
        && s[i].name == r.body.windows.value[i].roomName
        && s[i].id == NatToString(i + 1)
        && (s[i].isOpen <==> r.body.windows.value[i].isOpen == Some(JBool(true)))
  {
    match r
    case Ok(d) => MapWindows(d.windows.GetOr([]))
    case _ => WindowsFallback
  }

  /** Window ids are "1", "2", ... by position, so they are pairwise distinct. */
  lemma {:induction false} WindowIdsDistinct(r: Response<EnvironmentJson>, i: nat, j: nat)
    requires r.Ok? && r.body.windows.Some?
    requires i < j < |r.body.windows.value|
    ensures GetWindowSensors(r)[i].id != GetWindowSensors(r)[j].id
  {
    var s := GetWindowSensors(r);
    NatToStringValue(i + 1);
    NatToStringValue(j + 1);
    assert DigitsValue(s[i].id) != DigitsValue(s[j].id);
  }

  function MapSchedule(s: ScheduleJson): Schedule {
    Schedule(s.id, s.time, s.temperature, IsTrue(s.enabled) || IsTrue(s.active))
  }

  /** `getSchedules`: a schedule is active when either `enabled` or `active` is exactly `true`. */
  function GetSchedules(r: Response<Option<seq<ScheduleJson>>>): (s: seq<Schedule>)
    ensures !r.Ok? ==> s == SchedulesFallback
    ensures r.Ok? && r.body.None? ==> s == []
    ensures r.Ok? && r.body.Some? ==>
      |s| == |r.body.value| &&
      forall i :: 0 <= i < |s| ==>
        && s[i].id == r.body.value[i].id
        && s[i].time == r.body.value[i].time
        && s[i].temperature == r.body.value[i].temperature
        && (s[i].active <==> r.body.value[i].enabled == Some(JBool(true)) || r.body.value[i].active == Some(JBool(true)))
  {
    match r
    case Ok(body) =>
      var xs := body.GetOr([]);
      seq(|xs|, i requires 0 <= i < |xs| => MapSchedule(xs[i]))
    case _ => SchedulesFallback
  }

  /** `getEnergyData`: the history reply is fetched but not used. */
  function GetEnergyData<H>(r: Response<H>): (e: EnergyData)
    ensures e.currentMonth == 145.0 && e.previousMonth == 168.0 && e.daily == []
  {
    EnergyPlaceholder
  }

  /** Energy data does not depend on what the history endpoint returned. */
  lemma EnergyIgnoresHistory<H>(a: Response<H>, b: Response<H>)
    ensures GetEnergyData(a) == GetEnergyData(b)
  {
  }

  /** `setTargetTemperature`: true only for an ok reply whose `success` is exactly `true`. */
  function SetTargetTemperature(r: Response<SuccessJson>): (ok: bool)
    ensures ok <==> r.Ok? && r.body.success == Some(JBool(true))
  {
    match r
    case Ok(d) => IsTrue(d.success)
    case _ => false
  }

  /** The app's configured server host with the mobile API's port 8004, and its "/api" base URL. */
  const MobileApiHost := "http://192.168.1.18:8004"
  const MobileApiBase := MobileApiHost + "/api"

  /** The URL `checkHealth` probes: the first "/api" removed, then "/health". */
  function HealthUrl(baseUrl: string): (u: string)
    ensures !Contains(baseUrl, "/api") ==> u == baseUrl + "/health"
    ensures EndsWith(u, "/health")
  {
    ReplaceFirst(baseUrl, "/api", "") + "/health"
  }

  /** With the first "/api" at position `n`, the probe URL drops exactly that occurrence. */
  lemma HealthUrlDropsFirstApi(baseUrl: string, n: nat)
    requires OccursAt(baseUrl, "/api", n)
    requires forall i: nat :: i < n ==> !OccursAt(baseUrl, "/api", i)
    ensures HealthUrl(baseUrl) == baseUrl[..n] + baseUrl[n + 4..] + "/health"
  {
    ReplaceFirstAt(baseUrl, "/api", "", n);
  }

  /**
   * `checkHealth` against `baseUrl`, with `fetch` giving the reply to a GET
   * of a URL (`Rejected` for a thrown error): up exactly when the probe of
   * `HealthUrl(baseUrl)` answers ok, so a throw or an error status is down.
   */
  function CheckHealth<H>(baseUrl: string, fetch: string -> Response<H>): (up: bool)
    ensures up <==> fetch(HealthUrl(baseUrl)).Ok?
    ensures fetch(HealthUrl(baseUrl)).Rejected? ==> !up
  {
    match fetch(HealthUrl(baseUrl))
    case Ok(_) => true
    case NotOk(_) => false
    case Rejected => false
  }

  /** A base URL that is a host without an 'a' followed by "/api" is probed at the host's `/health`. */
  lemma HealthUrlOfApiSuffix(host: string)
    requires 'a' !in host
    ensures HealthUrl(host + "/api") == host + "/health"
  {
    var b := host + "/api";
    var n := |host|;
    assert OccursAt(b, "/api", n) by {
      assert b[n..n + 4] == "/api";
    }
    forall i: nat | i < n
      ensures !OccursAt(b, "/api", i)
    {
      assert b[i + 1] != 'a' by {
        if i + 1 < n {
          assert b[i + 1] == host[i + 1];
        } else {
          assert b[n] == '/';
        }
      }
      assert b[i..i + 4][1] == b[i + 1];
    }
    HealthUrlDropsFirstApi(b, n);
    assert b[..n] == host && b[n + 4..] == [];
  }

  /** The app's own base URL is probed at the server's root `/health` route, not under `/api`. */
  lemma HealthProbeIsServerRoot(baseUrl: string)
    requires baseUrl == MobileApiBase
    ensures HealthUrl(baseUrl) == "http://192.168.1.18:8004/health"
  {
    MobileApiHostHasNoA();
    HealthUrlOfApiSuffix(MobileApiHost);
  }

  lemma MobileApiHostHasNoA()
    ensures 'a' !in MobileApiHost
    ensures MobileApiHost + "/health" == "http://192.168.1.18:8004/health"
  {
  }
}
