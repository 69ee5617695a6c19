/**
 * The mobile API service (mobile_api/src/main.py): an MQTT message handler
 * that edits a cache dictionary in place, the status endpoint that reads the
 * cache, and the control endpoints that clamp a setpoint and publish it.
 * Publishing is recorded in an outbox; the broker itself is not modelled.
 */
module MobileApi {
  import opened Common
  import opened Text
  import ApiClient
  import SimOtgw

  /** A cache value: a float, an int, a bool, a string, or `None`. */
  datatype CacheValue = Num(r: real) | Int(i: int) | Flag(b: bool) | Str(s: string) | Null

  const LastUpdate := "last_update"

  /** The cache entries that hold numbers. */
  const NumericKeys := {"boiler_temp", "return_temp", "pressure", "setpoint", "indoor_temp", "outdoor_temp", "heating_demand"}

  /** `mqtt_cache` at start-up. */
  const InitialCache: map<string, CacheValue> := map[
    "boiler_temp" := Num(45.0), "return_temp" := Num(35.0), "modulation" := Int(0),
    "pressure" := Num(1.5), "flame" := Flag(false), "mode" := Str("heat"),
    "setpoint" := Num(45.0), "indoor_temp" := Num(20.0), "outdoor_temp" := Num(10.0),
    "heating_demand" := Int(0), LastUpdate := Null]

  predicate IsNumber(v: CacheValue) {
    v.Num? || v.Int?
  }

  function AsReal(v: CacheValue): real
    requires IsNumber(v)
  {
    if v.Num? then v.r else v.i as real
  }

  /** Every entry `get_boiler_status` reads is there with a value of its type. */
  predicate Valid(c: map<string, CacheValue>) {
    && (forall k :: k in NumericKeys ==> k in c && IsNumber(c[k]))
    && "modulation" in c && c["modulation"].Int?
    && "flame" in c && c["flame"].Flag?
    && "mode" in c && c["mode"].Str?
    && LastUpdate in c && (c[LastUpdate].Null? || c[LastUpdate].Str?)
  }

  lemma InitialCacheValid()
    ensures Valid(InitialCache)
  {
  }

  // ---------------------------------------------------------------- on_mqtt_message

  /** The cache key a status topic writes; `None` for any other topic. */
  function TopicKey(topic: string): (k: Option<string>)
    ensures k.Some? ==> k.value in NumericKeys + {"modulation", "flame", "mode"}
    ensures topic == "otgw/setpoint/state" ==> k == Some("setpoint")
  {
    if topic == "otgw/status/boiler_temp" then Some("boiler_temp")
    else if topic == "otgw/status/return_temp" then Some("return_temp")
    else if topic == "otgw/status/modulation" then Some("modulation")
    else if topic == "otgw/status/pressure" then Some("pressure")
    else if topic == "otgw/status/flame" then Some("flame")
    else if topic == "otgw/mode/state" then Some("mode")
    else if topic == "otgw/setpoint/state" then Some("setpoint")
    else if topic == "home/sensor/indoor_temp" then Some("indoor_temp")
    else if topic == "home/sensor/outdoor_temp" then Some("outdoor_temp")
    else if topic == "home/heating/demand" then Some("heating_demand")
    else None
  }

  /** The value stored under `key` for `payload`; `None` is the `ValueError` of a malformed number. */
  function PayloadValue(key: string, payload: string): (v: Option<CacheValue>)
    ensures key == "flame" ==> v == Some(Flag(Upper(payload) == "ON"))
    ensures key == "mode" ==> v == Some(Str(payload))
    ensures key == "modulation" ==>
      v == (if ParseFloat(payload).Some? then Some(Int(Trunc(ParseFloat(payload).value))) else None)
    ensures key !in {"flame", "mode", "modulation"} ==>
      v == (if ParseFloat(payload).Some? then Some(Num(ParseFloat(payload).value)) else None)
  {
    if key == "flame" then Some(Flag(Upper(payload) == "ON"))
    else if key == "mode" then Some(Str(payload))
    else
      match ParseFloat(payload)
      case None => None
      case Some(x) => if key == "modulation" then Some(Int(Trunc(x))) else Some(Num(x))
  }

  /** The cache after one message; `now` is the `utcnow().isoformat()` text. */
  function AfterMessage(c: map<string, CacheValue>, topic: string, payload: string, now: string): (r: map<string, CacheValue>)
    ensures TopicKey(topic).None? ==> r == c[LastUpdate := Str(now)]
    ensures TopicKey(topic).Some? && PayloadValue(TopicKey(topic).value, payload).None? ==> r == c
  {
    match TopicKey(topic)
    case None => c[LastUpdate := Str(now)]
    case Some(k) =>
      match PayloadValue(k, payload)
      case None => c
      case Some(v) => c[k := v][LastUpdate := Str(now)]
  }

  /** A well-formed message on a status topic sets its key and `last_update`, and nothing else. */
  lemma AfterMessageChangesOneKey(c: map<string, CacheValue>, topic: string, payload: string, now: string, k: string)
    requires TopicKey(topic) == Some(k) && PayloadValue(k, payload).Some?
    ensures AfterMessage(c, topic, payload, now).Keys == c.Keys + {k, LastUpdate}
    ensures AfterMessage(c, topic, payload, now)[k] == PayloadValue(k, payload).value
    ensures AfterMessage(c, topic, payload, now)[LastUpdate] == Str(now)
    ensures forall j :: j in c && j != k && j != LastUpdate ==> AfterMessage(c, topic, payload, now)[j] == c[j]
  {
    assert k != LastUpdate;
  }

  /** A processed message keeps the cache readable by `get_boiler_status`. */
  lemma AfterMessageValid(c: map<string, CacheValue>, topic: string, payload: string, now: string)
    requires Valid(c)
    ensures Valid(AfterMessage(c, topic, payload, now))
  {
  }

  // ---------------------------------------------------------------- get_boiler_status

  /** The `BoilerStatus` response model. */
  datatype BoilerStatus = BoilerStatus(
    waterTemp: real, returnTemp: real, pressure: real, modulation: int, flameOn: bool,
    setpoint: real, enabled: bool, indoorTemp: real, outdoorTemp: real, timestamp: string)

  /** `get_boiler_status`; `now` stands in when no update has been seen (`None` or ""). */
  function GetBoilerStatus(c: map<string, CacheValue>, now: string): (s: BoilerStatus)
    requires Valid(c)
    ensures s.enabled <==> c["mode"].s != "off"
    ensures s.timestamp == (if c[LastUpdate].Str? && c[LastUpdate].s != "" then c[LastUpdate].s else now)
    ensures s.waterTemp == AsReal(c["boiler_temp"]) && s.setpoint == AsReal(c["setpoint"])
    ensures s.modulation == c["modulation"].i && s.flameOn == c["flame"].b
    ensures s.returnTemp == AsReal(c["return_temp"]) && s.pressure == AsReal(c["pressure"])
    ensures s.indoorTemp == AsReal(c["indoor_temp"]) && s.outdoorTemp == AsReal(c["outdoor_temp"])
  {
    BoilerStatus(
      AsReal(c["boiler_temp"]), AsReal(c["return_temp"]), AsReal(c["pressure"]),
      c["modulation"].i, c["flame"].b, AsReal(c["setpoint"]), c["mode"].s != "off",
      AsReal(c["indoor_temp"]), AsReal(c["outdoor_temp"]),
      if c[LastUpdate].Str? && c[LastUpdate].s != "" then c[LastUpdate].s else now)
  }

  /** A status message changes exactly its field of the status read afterwards. */
  lemma SetpointMessageReadBack(c: map<string, CacheValue>, payload: string, now: string, later: string)
    requires Valid(c) && ParseFloat(payload).Some?
    ensures GetBoilerStatus(AfterMessage(c, "otgw/setpoint/state", payload, now), later)
         == GetBoilerStatus(c, later).(setpoint := ParseFloat(payload).value, timestamp := (if now != "" then now else later))
  {
  }

  /** The JSON the endpoint sends, in the client's terms. */
  function ToJson(s: BoilerStatus): ApiClient.BoilerJson {
    ApiClient.BoilerJson(Some(s.waterTemp), Some(s.pressure), Some(s.modulation as real),
                         Some(ApiClient.JBool(s.flameOn)), Some(s.returnTemp), Some(s.setpoint), Some(s.enabled))
  }

  /** The mobile client reads the server's status back unchanged. */
  lemma ClientReadsServerStatus(s: BoilerStatus)
    ensures ApiClient.GetBoilerStatus(ApiClient.Ok(ToJson(s))) ==
      ApiClient.BoilerStatus(s.waterTemp, s.pressure, s.modulation as real, s.flameOn,
                             Some(s.returnTemp), Some(s.setpoint), Some(s.enabled))
  {
  }

  // ---------------------------------------------------------------- clamps

  /** The water setpoint `set_temperature` publishes. */
  function WaterSetpoint(t: real): (w: real)
    ensures 30.0 <= w <= 80.0
    ensures 30.0 <= t <= 80.0 ==> w == t
  {
    Clamp(t, 30.0, 80.0)
  }

  /** The room target `set_room_temperature` accepts. */
  function RoomTarget(t: real): (r: real)
    ensures 15.0 <= r <= 25.0
    ensures 15.0 <= t <= 25.0 ==> r == t
  {
    Clamp(t, 15.0, 25.0)
  }

  /** The climate curve of `set_room_temperature`, before clamping. */
  function CurveWater(room: real, outdoor: real): (w: real)
    ensures room == outdoor ==> w == 35.0
    ensures room > outdoor ==> w > 35.0
    ensures room < outdoor ==> w < 35.0
  {
    35.0 + 1.5 * (room - outdoor)
  }

  /** The water setpoint `set_room_temperature` publishes. */
  function RoomToWater(t: real, outdoor: real): (w: real)
    ensures 30.0 <= w <= 80.0
    ensures w == Clamp(CurveWater(RoomTarget(t), outdoor), 30.0, 80.0)
  {
    Clamp(CurveWater(RoomTarget(t), outdoor), 30.0, 80.0)
  }

  /** A warmer room target never asks for cooler water. */
  lemma RoomToWaterMonotone(t1: real, t2: real, outdoor: real)
    requires t1 <= t2
    ensures RoomToWater(t1, outdoor) <= RoomToWater(t2, outdoor)
  {
    assert RoomTarget(t1) <= RoomTarget(t2);
  }

  /** Inside the room range and away from the water limits, distinct targets give distinct setpoints. */
  lemma RoomCurveDistinguishesTargets(t1: real, t2: real, outdoor: real)
    requires 15.0 <= t1 < t2 <= 25.0
    requires 30.0 < CurveWater(t1, outdoor) && CurveWater(t2, outdoor) < 80.0
    ensures RoomToWater(t1, outdoor) < RoomToWater(t2, outdoor)
  {
  }

  /**
   * The app's dial (room targets 5 to 30) posts to `set_temperature`, whose
   * water clamp turns every such target into 30, which the app then reads
   * back as its room target.
   */
  lemma DialTargetBecomesWaterMinimum(t: real, c: map<string, CacheValue>, env: ApiClient.Response<ApiClient.EnvironmentJson>, now: string)
    requires 5.0 <= t <= 30.0 && Valid(c) && env.Ok?
    ensures WaterSetpoint(t) == 30.0
    ensures ApiClient.GetRoomStatus(env, ApiClient.Ok(ToJson(GetBoilerStatus(c[ "setpoint" := Num(WaterSetpoint(t))], now)))).targetTemp == 30.0
  {
  }

  /**
   * The same path through the boiler simulator: the published 30 is inside
   * the simulator's own clamp, so it is stored and echoed as 30, and the
   * echo, read back by this service, is the app's room target.  The text
   * `str(temp)` travels as `sent` and the echo as `echoed`; that each parses
   * back to its number is the requires.
   */
  lemma DialTargetEchoedAsWaterMinimum(t: real, s: SimOtgw.BoilerState, sent: string, echoed: string,
                                       c: map<string, CacheValue>, env: ApiClient.Response<ApiClient.EnvironmentJson>,
                                       now: string, later: string)
    requires 5.0 <= t <= 30.0 && Valid(c) && env.Ok?
    requires ParseFloat(sent) == Some(WaterSetpoint(t)) && ParseFloat(echoed) == Some(30.0)
    ensures SimOtgw.Received(s, SimOtgw.SetpointSetTopic, sent).state.setpoint == 30.0
    ensures SimOtgw.Received(s, SimOtgw.SetpointSetTopic, sent).published == [PublishNum(SimOtgw.SetpointStateTopic, 30.0)]
    ensures ApiClient.GetRoomStatus(env, ApiClient.Ok(ToJson(GetBoilerStatus(
              AfterMessage(c, SimOtgw.SetpointStateTopic, echoed, now), later)))).targetTemp == 30.0
  {
    DialTargetBecomesWaterMinimum(t, c, env, now);
    SetpointMessageReadBack(c, echoed, now, later);
  }

  // ---------------------------------------------------------------- the service

  /** An endpoint's result: its JSON fields, or the 503 of a missing MQTT connection. */
  datatype Reply = Sent(value: real) | RoomSent(room: real, water: real) | ModeSent(mode: string) | Unavailable

  class Service {
    var cache: map<string, CacheValue>
    var mqttConnected: bool
    var hasClient: bool
    var outbox: seq<Publish>

    constructor()
      ensures cache == InitialCache && !mqttConnected && !hasClient && outbox == []
    {
      cache := InitialCache;
      mqttConnected := false;
      hasClient := false;
      outbox := [];
    }

    /** `start_mqtt_client` creates the client. */
    method StartClient()
      modifies this
      ensures hasClient && cache == old(cache) && mqttConnected == old(mqttConnected) && outbox == old(outbox)
    {
      hasClient := true;
    }

    /** `on_mqtt_connect` with return code `rc`. */
    method OnConnect(rc: int)
      modifies this
      ensures mqttConnected == (rc == 0)
      ensures cache == old(cache) && hasClient == old(hasClient) && outbox == old(outbox)
    {
      mqttConnected := rc == 0;
    }

    /** `on_mqtt_disconnect`. */
    method OnDisconnect()
      modifies this
      ensures !mqttConnected
      ensures cache == old(cache) && hasClient == old(hasClient) && outbox == old(outbox)
    {
      mqttConnected := false;
    }

    /** `on_mqtt_message`: edits the cache in place. */
    method OnMessage(topic: string, payload: string, now: string)
      modifies this
      ensures cache == AfterMessage(old(cache), topic, payload, now)
      ensures mqttConnected == old(mqttConnected) && hasClient == old(hasClient) && outbox == old(outbox)
    {
      var key := TopicKey(topic);
      if key.Some? {
        var v := PayloadValue(key.value, payload);
        if v.None? {
          return;
        }
        cache := cache[key.value := v.value];
      }
      cache := cache[LastUpdate := Str(now)];
    }

    predicate Ready()
      reads this
    {
      mqttConnected && hasClient
    }

    /** `set_temperature`. */
    method SetTemperature(t: real) returns (r: Reply)
      modifies this
      ensures !old(Ready()) ==> r == Unavailable && outbox == old(outbox)
      ensures old(Ready()) ==> r == Sent(WaterSetpoint(t)) && outbox == old(outbox) + [PublishNum("otgw/setpoint/set", WaterSetpoint(t))]
      ensures cache == old(cache) && mqttConnected == old(mqttConnected) && hasClient == old(hasClient)
    {
      if !Ready() {
        return Unavailable;
      }
      var temp := Max(30.0, Min(80.0, t));
      outbox := outbox + [PublishNum("otgw/setpoint/set", temp)];
      return Sent(temp);
    }

    /** `set_room_temperature`; the reply carries the clamped room target and the water setpoint before its rounding for display. */
    method SetRoomTemperature(t: real) returns (r: Reply)
      requires Valid(cache)
      modifies this
      ensures !old(Ready()) ==> r == Unavailable && outbox == old(outbox)
      ensures old(Ready()) ==>
        var w := RoomToWater(t, AsReal(old(cache)["outdoor_temp"]));
        r == RoomSent(RoomTarget(t), w) && outbox == old(outbox) + [PublishNum("otgw/setpoint/set", w)]
      ensures cache == old(cache) && mqttConnected == old(mqttConnected) && hasClient == old(hasClient)
    {
      if !Ready() {
        return Unavailable;
      }
      var room := Max(15.0, Min(25.0, t));
      var outdoor := AsReal(cache["outdoor_temp"]);
      var water := 35.0 + 1.5 * (room - outdoor);
      water := Max(30.0, Min(80.0, water));
      outbox := outbox + [PublishNum("otgw/setpoint/set", water)];
      return RoomSent(room, water);
    }

    /** `turn_on_boiler` and `turn_off_boiler`. */
    method SetMode(on: bool) returns (r: Reply)
      modifies this
      ensures !old(Ready()) ==> r == Unavailable && outbox == old(outbox)
      ensures old(Ready()) ==>
        var mode := if on then "heat" else "off";
        r == ModeSent(mode) && outbox == old(outbox) + [PublishText("otgw/mode/set", mode)]
      ensures cache == old(cache) && mqttConnected == old(mqttConnected) && hasClient == old(hasClient)
    {
      if !Ready() {
        return Unavailable;
      }
      var mode := if on then "heat" else "off";
      outbox := outbox + [PublishText("otgw/mode/set", mode)];
      return ModeSent(mode);
    }
  }
}
