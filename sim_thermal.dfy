/**
 * The thermal simulator: the house's indoor temperature, driven by the heat
 * the radiators deliver and the heat lost through walls and open windows,
 * and the heating demand it reports back to the boiler.  The `state` and
 * `windows` dictionaries are fields updated in place.
 */
module SimThermal {
  import opened Common
  import opened Text
  import SimWindows

  const ThermalCapacity: real := 50000.0
  const UClosed: real := 0.5
  const RadiatorPower: real := 8.0
  const SpecificHeatWater: real := 4.186
  const WaterFlowRate: real := 0.3
  const DT: real := 1.0
  /** Indoor temperatures are capped here. */
  const MaxIndoor: real := 30.0

  const BoilerTempTopic := "otgw/status/boiler_temp"
  const ReturnTempTopic := "otgw/status/return_temp"

  /** The window ids, shared with the window simulator whose state topics this one reads. */
  function WindowIds(): seq<string> {
    SimWindows.WindowIds
  }

  /** Every window id names one window. */
  predicate Distinct(ids: seq<string>) {
    forall i, j :: 0 <= i < j < |ids| ==> ids[i] != ids[j]
  }

  predicate Covers(ws: map<string, bool>, ids: seq<string>) {
    forall k :: 0 <= k < |ids| ==> ids[k] in ws
  }

  // ---------------------------------------------------------------- windows

  /** A window state payload means open for "on", "open" and "1", in any case. */
  function WindowOpens(payload: string): (open: bool)
    ensures open == (Lower(Upper(payload)) in {"on", "open", "1"})
  {
    LowerOfUpper(payload);
    Lower(payload) in {"on", "open", "1"}
  }

  /** The states the window simulator publishes read back as they were meant. */
  lemma PublishedStatesReadBack()
    ensures WindowOpens("on") && !WindowOpens("off")
  {
    LowerOfLowercase("on");
    LowerOfLowercase("off");
  }

  /** The first window, from index `k` on, whose `window_<id>` occurs in `topic`. */
  function FirstWindow(topic: string, k: nat): (r: Option<nat>)
    requires k <= |WindowIds()|
    ensures r.Some? ==> k <= r.value < |WindowIds()| && Contains(topic, "window_" + WindowIds()[r.value])
    ensures r.Some? ==> forall j :: k <= j < r.value ==> !Contains(topic, "window_" + WindowIds()[j])
    ensures r.None? ==> forall j :: k <= j < |WindowIds()| ==> !Contains(topic, "window_" + WindowIds()[j])
    decreases |WindowIds()| - k
  {
    if k == |WindowIds()| then None
    else if Contains(topic, "window_" + WindowIds()[k]) then Some(k)
    else FirstWindow(topic, k + 1)
  }

  /** The windows after a message on `topic`: only the first matching one changes. */
  function WindowsAfter(ws: map<string, bool>, topic: string, payload: string): (r: map<string, bool>)
    ensures ws.Keys <= r.Keys
    ensures forall id :: id in r && (id !in ws || r[id] != ws[id]) ==>
      Contains(topic, "window_" + id) && r[id] == WindowOpens(payload)
    ensures !Contains(topic, "window_") ==> r == ws
    ensures FirstWindow(topic, 0).None? ==> r == ws
    ensures forall i ::
      (0 <= i < |WindowIds()| && Contains(topic, "window_" + WindowIds()[i]) &&
       forall j :: 0 <= j < i ==> !Contains(topic, "window_" + WindowIds()[j]))
      ==> r == ws[WindowIds()[i] := WindowOpens(payload)]
  {
    match FirstWindow(topic, 0)
    case None => ws
    case Some(i) =>
      WindowTagHasPrefix(topic, WindowIds()[i]);
      ws[WindowIds()[i] := WindowOpens(payload)]
  }

  /** A topic naming a window contains "window_", so the source's outer test loses nothing. */
  lemma {:induction false} WindowTagHasPrefix(topic: string, id: string)
    requires Contains(topic, "window_" + id)
    ensures Contains(topic, "window_")
  {
    var i: nat :| OccursAt(topic, "window_" + id, i);
    assert topic[i..i + 7] == topic[i..i + 7 + |id|][..7];
    assert OccursAt(topic, "window_", i);
  }

  lemma NoPrefixNoWindow(topic: string)
    requires !Contains(topic, "window_")
    ensures FirstWindow(topic, 0).None?
  {
    if FirstWindow(topic, 0).Some? {
      WindowTagHasPrefix(topic, WindowIds()[FirstWindow(topic, 0).value]);
    }
  }

  /** The state topic of the first window addresses that window. */
  lemma StateTopicAddressesFirstWindow()
    ensures FirstWindow(SimWindows.WindowTopic(WindowIds()[0], "state"), 0) == Some(0)
  {
    var t := SimWindows.WindowTopic(WindowIds()[0], "state");
    var pat := "window_" + WindowIds()[0];
    assert t[28..28 + |pat|] == pat;
    assert OccursAt(t, pat, 28);
  }

  /** The number of open windows among `ids`. */
  function OpenCount(ws: map<string, bool>, ids: seq<string>): (n: nat)
    requires Covers(ws, ids)
    ensures n <= |ids|
  {
    if ids == [] then 0
    else OpenCount(ws, ids[..|ids| - 1]) + (if ws[ids[|ids| - 1]] then 1 else 0)
  }

  /** No window is open exactly when the count is zero. */
  lemma {:induction false} OpenCountZero(ws: map<string, bool>, ids: seq<string>)
    requires Covers(ws, ids)
    ensures OpenCount(ws, ids) == 0 <==> forall k :: 0 <= k < |ids| ==> !ws[ids[k]]
    decreases |ids|
  {
    if ids != [] {
      var init := ids[..|ids| - 1];
      OpenCountZero(ws, init);
      assert forall k :: 0 <= k < |init| ==> init[k] == ids[k];
    }
  }

  /** Opening one closed window raises the count by exactly one. */
  lemma {:induction false} OpeningAddsOne(ws: map<string, bool>, ids: seq<string>, id: string)
    requires Covers(ws, ids) && Distinct(ids)
    requires id in ids && id in ws && !ws[id]
    ensures OpenCount(ws[id := true], ids) == OpenCount(ws, ids) + 1
    decreases |ids|
  {
    var init := ids[..|ids| - 1];
    var last := ids[|ids| - 1];
    assert ids == init + [last];
    if last == id {
      assert id !in init;
      OpenCountUnchanged(ws, init, id, true);
    } else {
      assert id in init;
      OpeningAddsOne(ws, init, id);
    }
  }

  /** Changing a window outside `ids` does not change their count. */
  lemma {:induction false} OpenCountUnchanged(ws: map<string, bool>, ids: seq<string>, id: string, open: bool)
    requires Covers(ws, ids) && id !in ids
    ensures OpenCount(ws[id := open], ids) == OpenCount(ws, ids)
    decreases |ids|
  {
    if ids != [] {
      var init := ids[..|ids| - 1];
      assert id !in init by {
        assert forall k :: 0 <= k < |init| ==> init[k] == ids[k];
      }
      OpenCountUnchanged(ws, init, id, open);
    }
  }

  // ---------------------------------------------------------------- heat balance

  /** The effective heat-loss coefficient, 0.4 kW/°C more per open window. */
  function UValue(openCount: nat): (u: real)
    ensures u == UClosed + 0.4 * openCount as real
  {
    if openCount > 0 then UClosed + openCount as real * 0.4 else UClosed
  }

  /** Heat lost through the envelope in one step, in kJ. */
  function HeatLoss(indoor: real, outdoor: real, openCount: nat): (q: real)
    ensures indoor >= outdoor ==> q >= 0.0
    ensures indoor <= outdoor ==> q <= 0.0
  {
    UValue(openCount) * (indoor - outdoor) * DT
  }

  /** On a cold day, every extra open window loses more heat. */
  lemma MoreOpenWindowsLoseMore(indoor: real, outdoor: real, fewer: nat, more: nat)
    requires indoor >= outdoor && fewer <= more
    ensures HeatLoss(indoor, outdoor, fewer) <= HeatLoss(indoor, outdoor, more)
  {
    var d := indoor - outdoor;
    assert UValue(more) - UValue(fewer) == 0.4 * (more - fewer) as real;
    assert (UValue(more) - UValue(fewer)) * d >= 0.0;
  }

  /** Heat the radiators deliver in one step, in kJ, capped at their nominal power. */
  function HeatProvided(supply: real, ret: real): (q: real)
    ensures 0.0 <= q <= RadiatorPower * DT
    ensures supply <= ret ==> q == 0.0
    ensures supply > ret && WaterFlowRate * SpecificHeatWater * (supply - ret) <= RadiatorPower ==>
      q == WaterFlowRate * SpecificHeatWater * (supply - ret) * DT
    ensures supply > ret && WaterFlowRate * SpecificHeatWater * (supply - ret) >= RadiatorPower ==>
      q == RadiatorPower * DT
  {
    var delta := supply - ret;
    var kw := if delta > 0.0 then Min(WaterFlowRate * SpecificHeatWater * delta, RadiatorPower) else 0.0;
    kw * DT
  }

  /** The indoor temperature after one step, kept within the realistic limits. */
  function IndoorAfter(indoor: real, outdoor: real, provided: real, loss: real): (t: real)
    ensures t >= outdoor - 2.0
    ensures outdoor <= MaxIndoor + 2.0 ==> t <= MaxIndoor
    ensures outdoor - 2.0 <= indoor + (provided - loss) / ThermalCapacity <= MaxIndoor ==>
      t == indoor + (provided - loss) / ThermalCapacity
  {
    Max(outdoor - 2.0, Min(MaxIndoor, indoor + (provided - loss) / ThermalCapacity))
  }

  /** The heating demand, 20 % per degree below target. */
  function HeatingDemand(target: real, indoor: real): (d: real)
    ensures 0.0 <= d <= 100.0
    ensures indoor >= target ==> d == 0.0
    ensures target - indoor >= 5.0 ==> d == 100.0
    ensures 0.0 <= target - indoor <= 5.0 ==> d == 20.0 * (target - indoor)
  {
    Clamp((target - indoor) * 20.0, 0.0, 100.0)
  }

  /** A warmer house never asks for more heat. */
  lemma DemandFallsAsHouseWarms(target: real, cooler: real, warmer: real)
    requires cooler <= warmer
    ensures HeatingDemand(target, warmer) <= HeatingDemand(target, cooler)
  {
  }

  // ---------------------------------------------------------------- the simulator

  class Thermal {
    var indoorTemp: real
    var outdoorTemp: real
    var targetTemp: real
    var boilerWaterTemp: real
    var boilerReturnTemp: real
    var heatingDemand: real
    var windowsOpenCount: nat
    var windows: map<string, bool>

    predicate Valid()
      reads this
    {
      Covers(windows, WindowIds())
    }

    constructor()
      ensures Valid()
      ensures indoorTemp == 18.0 && outdoorTemp == 10.0 && targetTemp == 20.0
      ensures boilerWaterTemp == 45.0 && boilerReturnTemp == 35.0 && heatingDemand == 0.0
      ensures windowsOpenCount == 0
      ensures windows == map["living_room" := false, "bedroom" := false, "kitchen" := false, "bathroom" := false]
    {
      indoorTemp, outdoorTemp, targetTemp := 18.0, 10.0, 20.0;
      boilerWaterTemp, boilerReturnTemp, heatingDemand := 45.0, 35.0, 0.0;
      windowsOpenCount := 0;
      windows := map["living_room" := false, "bedroom" := false, "kitchen" := false, "bathroom" := false];
    }

    /** `on_message`: boiler readings, or the state of the first window the topic names. */
    method OnMessage(topic: string, payload: string)
      requires Valid()
      modifies this
      ensures Valid()
      ensures topic == BoilerTempTopic ==> boilerWaterTemp == ParseFloat(payload).GetOr(old(boilerWaterTemp))
      ensures topic != BoilerTempTopic ==> boilerWaterTemp == old(boilerWaterTemp)
      ensures topic == ReturnTempTopic ==> boilerReturnTemp == ParseFloat(payload).GetOr(old(boilerReturnTemp))
      ensures topic != ReturnTempTopic ==> boilerReturnTemp == old(boilerReturnTemp)
      ensures topic in {BoilerTempTopic, ReturnTempTopic} ==> windows == old(windows)
      ensures topic !in {BoilerTempTopic, ReturnTempTopic} ==> windows == WindowsAfter(old(windows), topic, payload)
      ensures indoorTemp == old(indoorTemp) && outdoorTemp == old(outdoorTemp) && targetTemp == old(targetTemp)
      ensures heatingDemand == old(heatingDemand) && windowsOpenCount == old(windowsOpenCount)
    {
      if topic == BoilerTempTopic || topic == ReturnTempTopic {
        UpdateBoilerReading(topic, payload);
      } else if Contains(topic, "window_") {
        UpdateWindow(topic, payload);
      } else {
        NoPrefixNoWindow(topic);
      }
    }

    /** The boiler branches of `on_message`: a numeric payload replaces the reading, a malformed one is ignored. */
    method UpdateBoilerReading(topic: string, payload: string)
      requires Valid() && (topic == BoilerTempTopic || topic == ReturnTempTopic)
      modifies this
      ensures Valid()
      ensures topic == BoilerTempTopic ==>
        boilerWaterTemp == ParseFloat(payload).GetOr(old(boilerWaterTemp)) && boilerReturnTemp == old(boilerReturnTemp)
      ensures topic == ReturnTempTopic ==>
        boilerReturnTemp == ParseFloat(payload).GetOr(old(boilerReturnTemp)) && boilerWaterTemp == old(boilerWaterTemp)
      ensures windows == old(windows)
      ensures indoorTemp == old(indoorTemp) && outdoorTemp == old(outdoorTemp) && targetTemp == old(targetTemp)
      ensures heatingDemand == old(heatingDemand) && windowsOpenCount == old(windowsOpenCount)
    {
      var v := ParseFloat(payload);
      if v.Some? {
        if topic == BoilerTempTopic {
          boilerWaterTemp := v.value;
        } else {
          boilerReturnTemp := v.value;
        }
      }
    }

    /** The window branch of `on_message`: the first window the topic names takes the payload. */
    method UpdateWindow(topic: string, payload: string)
      requires Valid()
      modifies this
      ensures Valid()
      ensures windows == WindowsAfter(old(windows), topic, payload)
      ensures indoorTemp == old(indoorTemp) && outdoorTemp == old(outdoorTemp) && targetTemp == old(targetTemp)
      ensures heatingDemand == old(heatingDemand) && windowsOpenCount == old(windowsOpenCount)
      ensures boilerWaterTemp == old(boilerWaterTemp) && boilerReturnTemp == old(boilerReturnTemp)
    {
      var i := 0;
      while i < |WindowIds()|
        invariant 0 <= i <= |WindowIds()|
        invariant windows == old(windows)
        invariant FirstWindow(topic, 0) == FirstWindow(topic, i)
      {
        var id := WindowIds()[i];
        if Contains(topic, "window_" + id) {
          windows := windows[id := WindowOpens(payload)];
          break;
        }
        i := i + 1;
      }
    }

    /** `calculate_heat_loss`: counts the open windows, then the loss for this step. */
    method CalculateHeatLoss() returns (loss: real)
      requires Valid()
      modifies this
      ensures Valid()
      ensures windowsOpenCount == OpenCount(windows, WindowIds())
      ensures loss == HeatLoss(indoorTemp, outdoorTemp, windowsOpenCount)
      ensures windows == old(windows) && indoorTemp == old(indoorTemp) && outdoorTemp == old(outdoorTemp)
      ensures targetTemp == old(targetTemp) && heatingDemand == old(heatingDemand)
      ensures boilerWaterTemp == old(boilerWaterTemp) && boilerReturnTemp == old(boilerReturnTemp)
    {
      var ids := WindowIds();
      var count := 0;
      var i := 0;
      while i < |ids|
        invariant 0 <= i <= |ids|
        invariant count == OpenCount(windows, ids[..i])
      {
        assert ids[..i + 1][..i] == ids[..i];
        if windows[ids[i]] {
          count := count + 1;
        }
        i := i + 1;
      }
      assert ids[..i] == ids;
      windowsOpenCount := count;
      var u := if windowsOpenCount > 0 then UClosed + windowsOpenCount as real * 0.4 else UClosed;
      var deltaT := indoorTemp - outdoorTemp;
      loss := u * deltaT * DT;
    }

    /** `update_indoor_temperature`: the heat balance of one step. */
    method UpdateIndoorTemperature()
      requires Valid()
      modifies this
      ensures Valid()
      ensures windowsOpenCount == OpenCount(windows, WindowIds())
      ensures indoorTemp == IndoorAfter(old(indoorTemp), outdoorTemp, HeatProvided(boilerWaterTemp, boilerReturnTemp),
                                        HeatLoss(old(indoorTemp), outdoorTemp, windowsOpenCount))
      ensures windows == old(windows) && outdoorTemp == old(outdoorTemp)
      ensures targetTemp == old(targetTemp) && heatingDemand == old(heatingDemand)
      ensures boilerWaterTemp == old(boilerWaterTemp) && boilerReturnTemp == old(boilerReturnTemp)
    {
      var provided := HeatProvided(boilerWaterTemp, boilerReturnTemp);
      var loss := CalculateHeatLoss();
      var netHeat := provided - loss;
      var deltaTemp := netHeat / ThermalCapacity;
      indoorTemp := indoorTemp + deltaTemp;
      indoorTemp := Max(outdoorTemp - 2.0, Min(MaxIndoor, indoorTemp));
    }

    /** `calculate_heating_demand`. */
    method CalculateHeatingDemand()
      modifies this
      ensures heatingDemand == HeatingDemand(targetTemp, indoorTemp)
      ensures windows == old(windows) && windowsOpenCount == old(windowsOpenCount)
      ensures indoorTemp == old(indoorTemp) && outdoorTemp == old(outdoorTemp) && targetTemp == old(targetTemp)
      ensures boilerWaterTemp == old(boilerWaterTemp) && boilerReturnTemp == old(boilerReturnTemp)
    {
      var error := targetTemp - indoorTemp;
      var demand := error * 20.0;
      heatingDemand := Max(0.0, Min(100.0, demand));
    }

    /** One pass of the main loop, with the outdoor temperature of this moment as a parameter. */
    method Tick(outdoor: real)
      requires Valid()
      modifies this
      ensures Valid()
      ensures outdoorTemp == outdoor
      ensures indoorTemp == IndoorAfter(old(indoorTemp), outdoor, HeatProvided(boilerWaterTemp, boilerReturnTemp),
                                        HeatLoss(old(indoorTemp), outdoor, windowsOpenCount))
      ensures indoorTemp >= outdoor - 2.0 && (outdoor <= MaxIndoor + 2.0 ==> indoorTemp <= MaxIndoor)
      ensures heatingDemand == HeatingDemand(targetTemp, indoorTemp)
      ensures windowsOpenCount == OpenCount(windows, WindowIds())
      ensures windows == old(windows) && targetTemp == old(targetTemp)
      ensures boilerWaterTemp == old(boilerWaterTemp) && boilerReturnTemp == old(boilerReturnTemp)
    {
      outdoorTemp := outdoor;
      UpdateIndoorTemperature();
      CalculateHeatingDemand();
    }
  }
}
