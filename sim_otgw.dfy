/**
 * The OpenTherm boiler simulator: one state record, changed field by field
 * by MQTT commands (mode, water setpoint, the thermal simulator's readings)
 * and by a physics step run once per second.  What the simulator publishes
 * is recorded in an outbox; the broker is not modelled.
 */
module SimOtgw {
  import opened Common
  import opened Text

  const MinWater: real := 30.0
  const MaxWater: real := 80.0
  const Ambient: real := 20.0
  const HeatingRate: real := 0.8
  const CoolingRate: real := 0.15
  const ReturnDelta: real := 10.0
  const CurveCoefficient: real := 1.5
  /** Largest change of the burner modulation in one step, in percent. */
  const ModRate: real := 2.0

  const ModeSetTopic := "otgw/mode/set"
  const ModeStateTopic := "otgw/mode/state"
  const SetpointSetTopic := "otgw/setpoint/set"
  const SetpointStateTopic := "otgw/setpoint/state"
  const OutdoorTopic := "home/sensor/outdoor_temp"
  const IndoorTopic := "home/sensor/indoor_temp"
  const DemandTopic := "home/heating/demand"

  /** The simulator's `state` dictionary, one field per key. */
  datatype BoilerState = BoilerState(
    boilerTemp: real, returnTemp: real, setpoint: real, modulation: real, pressure: real,
    flameOn: bool, enabled: bool, outdoorTemp: real, indoorTemp: real, heatingDemand: real)

  const Initial := BoilerState(30.0, 25.0, 45.0, 0.0, 1.5, false, true, 10.0, 18.0, 0.0)

  // ---------------------------------------------------------------- commands

  /** A mode command switches the boiler off exactly for "off", "0" and "false". */
  predicate ModeEnables(payload: string) {
    Lower(payload) !in {"off", "0", "false"}
  }

  /** The mode command is case-insensitive. */
  lemma ModeIgnoresCase(payload: string)
    ensures ModeEnables(Upper(payload)) == ModeEnables(payload)
  {
    LowerOfUpper(payload);
  }

  function ModeState(enabled: bool): (r: string)
    ensures r == "heat" <==> enabled
  {
    if enabled then "heat" else "off"
  }

  /** The water setpoint a setpoint command stores; `None` when the payload is not a number. */
  function SetpointCommand(payload: string): (r: Option<real>)
    ensures r.Some? <==> ParseFloat(payload).Some?
    ensures r.Some? ==> MinWater <= r.value <= MaxWater
    ensures r.Some? && MinWater <= ParseFloat(payload).value <= MaxWater ==> r.value == ParseFloat(payload).value
    ensures r.Some? && ParseFloat(payload).value < MinWater ==> r.value == MinWater
    ensures r.Some? && ParseFloat(payload).value > MaxWater ==> r.value == MaxWater
  {
    match ParseFloat(payload)
    case None => None
    case Some(v) => Some(Clamp(v, MinWater, MaxWater))
  }

  /** A whole-degree setpoint inside the range is stored as sent. */
  lemma SetpointRoundTrip(n: nat)
    requires 30 <= n <= 80
    ensures SetpointCommand(NatToString(n)) == Some(n as real)
  {
    ParseFloatNat(n);
  }

  // ---------------------------------------------------------------- control

  /**
   * The climate-compensation curve: 35 °C of water at 20 °C outdoors or
   * warmer, 1.5 °C more per degree colder, capped at 80 °C.
   */
  function ClimateCurveSetpoint(outdoor: real): (r: real)
    ensures 35.0 <= r <= MaxWater
    ensures outdoor >= 20.0 ==> r == 35.0
    ensures outdoor <= -10.0 ==> r == MaxWater
    ensures -10.0 <= outdoor <= 20.0 ==> r == 35.0 + CurveCoefficient * (20.0 - outdoor)
  {
    var diff := Max(0.0, 20.0 - outdoor);
    Clamp(35.0 + CurveCoefficient * diff, MinWater, MaxWater)
  }

  /** Colder outside never asks for cooler water. */
  lemma ClimateCurveMonotone(colder: real, warmer: real)
    requires colder <= warmer
    ensures ClimateCurveSetpoint(colder) >= ClimateCurveSetpoint(warmer)
  {
  }

  /** The modulation the proportional controller aims at. */
  function TargetModulation(enabled: bool, setpoint: real, boilerTemp: real, demand: real): (r: real)
    ensures 0.0 <= r <= 100.0
    ensures !enabled ==> r == 0.0
    ensures enabled && 0.0 <= 3.0 * (setpoint - boilerTemp) + 0.3 * demand <= 100.0 ==>
      r == 3.0 * (setpoint - boilerTemp) + 0.3 * demand
    ensures enabled && 3.0 * (setpoint - boilerTemp) + 0.3 * demand > 100.0 ==> r == 100.0
    ensures enabled && 3.0 * (setpoint - boilerTemp) + 0.3 * demand < 0.0 ==> r == 0.0
  {
    if !enabled then 0.0 else Clamp(3.0 * (setpoint - boilerTemp) + 0.3 * demand, 0.0, 100.0)
  }

  /** One rate-limited modulation step toward `target`, kept within [0, 100]. */
  function StepModulation(current: real, target: real): (r: real)
    ensures 0.0 <= r <= 100.0
    ensures 0.0 <= current <= 100.0 && 0.0 <= target <= 100.0 ==>
      (current <= target ==> current <= r <= target) && (target <= current ==> target <= r <= current)
    ensures 0.0 <= current <= 100.0 ==> -ModRate <= r - current <= ModRate
    ensures 0.0 <= current <= 100.0 && 0.0 <= target <= 100.0 && -ModRate <= target - current <= ModRate ==> r == target
    ensures 0.0 <= current <= 100.0 && 0.0 <= target <= 100.0 && target - current > ModRate ==> r == current + ModRate
    ensures 0.0 <= current <= 100.0 && 0.0 <= target <= 100.0 && current - target > ModRate ==> r == current - ModRate
  {
    var m :=
      if target > current then current + Min(ModRate, target - current)
      else if target < current then current - Min(ModRate, current - target)
      else current;
    Clamp(m, 0.0, 100.0)
  }

  /** The modulation after `k` steps toward a target that does not change. */
  function ModulationAfter(current: real, target: real, k: nat): real
    decreases k
  {
    if k == 0 then current else ModulationAfter(StepModulation(current, target), target, k - 1)
  }

  /** With a steady target, the modulation reaches it within ⌈|target − current| / 2⌉ steps. */
  lemma {:induction false} ModulationReachesTarget(current: real, target: real, k: nat)
    requires 0.0 <= current <= 100.0 && 0.0 <= target <= 100.0
    requires -ModRate * k as real <= target - current <= ModRate * k as real
    ensures ModulationAfter(current, target, k) == target
    decreases k
  {
    if k > 0 {
      var next := StepModulation(current, target);
      if -ModRate <= target - current <= ModRate {
        assert next == target;
        ModulationStaysAtTarget(target, k - 1);
      } else {
        assert -ModRate * (k - 1) as real <= target - next <= ModRate * (k - 1) as real;
        ModulationReachesTarget(next, target, k - 1);
      }
    }
  }

  lemma {:induction false} ModulationStaysAtTarget(target: real, k: nat)
    requires 0.0 <= target <= 100.0
    ensures ModulationAfter(target, target, k) == target
    decreases k
  {
    if k > 0 {
      assert StepModulation(target, target) == target;
      ModulationStaysAtTarget(target, k - 1);
    }
  }

  /**
   * One physics step (`update_physics`): modulation and flame, heat input,
   * cooling, the lagging return temperature, pressure with the caller's
   * `noise`, then the safety clamps.
   */
  function Step(s: BoilerState, noise: real): (r: BoilerState)
    ensures r.modulation == StepModulation(s.modulation, TargetModulation(s.enabled, s.setpoint, s.boilerTemp, s.heatingDemand))
    ensures r.flameOn <==> r.modulation > 5.0
    ensures Ambient <= r.boilerTemp <= MaxWater && Ambient <= r.returnTemp <= MaxWater
    ensures 0.5 <= r.pressure <= 3.0
    ensures !r.flameOn && s.boilerTemp >= Ambient ==> r.boilerTemp <= s.boilerTemp
    ensures !s.enabled && 0.0 <= s.modulation <= 100.0 ==> r.modulation == Max(0.0, s.modulation - ModRate)
    ensures r.setpoint == s.setpoint && r.enabled == s.enabled
    ensures r.outdoorTemp == s.outdoorTemp && r.indoorTemp == s.indoorTemp && r.heatingDemand == s.heatingDemand
  {
    Heat(Modulate(s), noise)
  }

  /** The first half of a physics step: the modulation moves toward its target and sets the flame. */
  function Modulate(s: BoilerState): BoilerState {
    var mod := StepModulation(s.modulation, TargetModulation(s.enabled, s.setpoint, s.boilerTemp, s.heatingDemand));
    s.(modulation := mod, flameOn := mod > 5.0)
  }

  /**
   * The second half: heat input from the flame, cooling, the lagging return
   * temperature, pressure with the caller's `noise`, then the safety clamps.
   */
  function Heat(s: BoilerState, noise: real): BoilerState {
    var heated := if s.flameOn then s.boilerTemp + s.modulation / 100.0 * HeatingRate else s.boilerTemp;
    var cooling := if s.heatingDemand > 10.0 then CoolingRate * 1.5 else CoolingRate;
    var water := heated - cooling;
    var ret := s.returnTemp + (water - ReturnDelta - s.returnTemp) * 0.1;
    var pressure := 1.5 + (water - 30.0) * 0.003 + noise;
    s.(boilerTemp := Clamp(water, Ambient, MaxWater), returnTemp := Clamp(ret, Ambient, MaxWater),
       pressure := Clamp(pressure, 0.5, 3.0))
  }

  /** What one message does: the new state and the messages published in reply. */
  datatype Handled = Handled(state: BoilerState, published: seq<Publish>)

  /** The topics `on_message` tells apart, in the order it tests them. */
  datatype Command = ModeSet | SetpointSet | OutdoorReading | IndoorReading | DemandReading | OtherTopic

  /** `on_message`'s topic tests. */
  function CommandOf(topic: string): (c: Command)
    ensures c == ModeSet <==> topic == ModeSetTopic
    ensures c == SetpointSet <==> topic == SetpointSetTopic
    ensures c == OutdoorReading <==> topic == OutdoorTopic
    ensures c == IndoorReading <==> topic == IndoorTopic
    ensures c == DemandReading <==> topic == DemandTopic
  {
    CommandTopicLengths();
    if topic == ModeSetTopic then ModeSet
    else if topic == SetpointSetTopic then SetpointSet
    else if topic == OutdoorTopic then OutdoorReading
    else if topic == IndoorTopic then IndoorReading
    else if topic == DemandTopic then DemandReading
    else OtherTopic
  }

  /** `on_message` on the state: the new state and what it publishes in reply. */
  function Received(s: BoilerState, topic: string, payload: string): (r: Handled)
    ensures |r.published| <= 1
    ensures r.state.boilerTemp == s.boilerTemp && r.state.returnTemp == s.returnTemp && r.state.modulation == s.modulation
    ensures r.state.pressure == s.pressure && r.state.flameOn == s.flameOn
    ensures CommandOf(topic) == OtherTopic ==> r == Handled(s, [])
    ensures CommandOf(topic) != ModeSet && ParseFloat(payload).None? ==> r == Handled(s, [])
  {
    var command := CommandOf(topic);
    if command == ModeSet then
      var enabled := ModeEnables(payload);
      Handled(s.(enabled := enabled), [PublishText(ModeStateTopic, ModeState(enabled))])
    else if command == SetpointSet then
      (match ParseFloat(payload)
       case Some(v) =>
         var setpoint := Clamp(v, MinWater, MaxWater);
         Handled(s.(setpoint := setpoint), [PublishNum(SetpointStateTopic, setpoint)])
       case None => Handled(s, []))
    else
      match ParseFloat(payload)
      case None => Handled(s, [])
      case Some(v) =>
        if command == OutdoorReading then Handled(s.(outdoorTemp := v), [])
        else if command == IndoorReading then Handled(s.(indoorTemp := v), [])
        else if command == DemandReading then Handled(s.(heatingDemand := v), [])
        else Handled(s, [])
  }

  /**
   * Each command topic changes only its own field, only a mode command and
   * a numeric setpoint publish, and a non-numeric payload or an unknown
   * topic changes nothing.
   */
  lemma ReceivedChangesOwnField(s: BoilerState, topic: string, payload: string)
    ensures var r := Received(s, topic, payload);
      r.published != [] <==> topic == ModeSetTopic || (topic == SetpointSetTopic && SetpointCommand(payload).Some?)
    ensures var r := Received(s, topic, payload);
      topic == ModeSetTopic ==>
        r.state == s.(enabled := ModeEnables(payload)) &&
        r.published == [PublishText(ModeStateTopic, ModeState(ModeEnables(payload)))]
    ensures var r := Received(s, topic, payload);
      topic == SetpointSetTopic && SetpointCommand(payload).Some? ==>
        r.state == s.(setpoint := SetpointCommand(payload).value) &&
        r.published == [PublishNum(SetpointStateTopic, SetpointCommand(payload).value)]
    ensures topic == OutdoorTopic ==> Received(s, topic, payload).state == s.(outdoorTemp := ParseFloat(payload).GetOr(s.outdoorTemp))
    ensures topic == IndoorTopic ==> Received(s, topic, payload).state == s.(indoorTemp := ParseFloat(payload).GetOr(s.indoorTemp))
    ensures topic == DemandTopic ==> Received(s, topic, payload).state == s.(heatingDemand := ParseFloat(payload).GetOr(s.heatingDemand))
    ensures topic !in {ModeSetTopic, OutdoorTopic, IndoorTopic, DemandTopic} && SetpointCommand(payload).None? ==>
      Received(s, topic, payload).state == s
    ensures topic !in {ModeSetTopic, SetpointSetTopic, OutdoorTopic, IndoorTopic, DemandTopic} ==>
      Received(s, topic, payload) == Handled(s, [])
  {
  }

  /** The five command topics have five different lengths, so no two are equal. */
  lemma CommandTopicLengths()
    ensures |ModeSetTopic| == 13 && |SetpointSetTopic| == 17 && |OutdoorTopic| == 24
    ensures |IndoorTopic| == 23 && |DemandTopic| == 19
  {
  }

  // ---------------------------------------------------------------- the simulator

  class Simulator {
    var boilerTemp: real
    var returnTemp: real
    var setpoint: real
    var modulation: real
    var pressure: real
    var flameOn: bool
    var enabled: bool
    var outdoorTemp: real
    var indoorTemp: real
    var heatingDemand: real
    var outbox: seq<Publish>

    function State(): BoilerState
      reads this
    {
      BoilerState(boilerTemp, returnTemp, setpoint, modulation, pressure,
                  flameOn, enabled, outdoorTemp, indoorTemp, heatingDemand)
    }

    /** The initial state and the two retained messages published at start-up. */
    constructor()
      ensures State() == Initial
      ensures outbox == [PublishNum(SetpointStateTopic, 45.0), PublishText(ModeStateTopic, "heat")]
    {
      boilerTemp, returnTemp, setpoint, modulation, pressure := 30.0, 25.0, 45.0, 0.0, 1.5;
      flameOn, enabled := false, true;
      outdoorTemp, indoorTemp, heatingDemand := 10.0, 18.0, 0.0;
      outbox := [PublishNum(SetpointStateTopic, 45.0), PublishText(ModeStateTopic, "heat")];
    }

    /** `on_message`: the new state and the replies are those of `Received`. */
    method OnMessage(topic: string, payload: string)
      modifies this
      ensures State() == Received(old(State()), topic, payload).state
      ensures outbox == old(outbox) + Received(old(State()), topic, payload).published
    {
      ghost var s := State();
      var command := CommandOf(topic);
      if command == ModeSet {
        SetMode(ModeEnables(payload));
        assert Received(s, topic, payload) == Handled(State(), [PublishText(ModeStateTopic, ModeState(ModeEnables(payload)))]);
      } else if command == SetpointSet {
        var requested := ParseFloat(payload);
        if requested.Some? {
          var setpoint := Clamp(requested.value, MinWater, MaxWater);
          SetSetpoint(setpoint);
          assert Received(s, topic, payload) == Handled(State(), [PublishNum(SetpointStateTopic, setpoint)]);
        } else {
          assert Received(s, topic, payload) == Handled(s, []);
        }
      } else {
        var value := ParseFloat(payload);
        if value.Some? {
          SetReading(command, value.value);
        }
        assert Received(s, topic, payload) == Handled(State(), []);
      }
    }

    /** A mode command's effect: the flag, and the mode state published back. */
    method SetMode(on: bool)
      modifies this
      ensures State() == old(State()).(enabled := on)
      ensures outbox == old(outbox) + [PublishText(ModeStateTopic, ModeState(on))]
    {
      enabled := on;
      outbox := outbox + [PublishText(ModeStateTopic, ModeState(enabled))];
    }

    /** A numeric setpoint command's effect, with the clamped value. */
    method SetSetpoint(v: real)
      modifies this
      ensures State() == old(State()).(setpoint := v)
      ensures outbox == old(outbox) + [PublishNum(SetpointStateTopic, v)]
    {
      setpoint := v;
      outbox := outbox + [PublishNum(SetpointStateTopic, setpoint)];
    }

    /** A numeric reading from the thermal simulator, stored in the field its topic names. */
    method SetReading(command: Command, v: real)
      modifies this
      ensures command == OutdoorReading ==> State() == old(State()).(outdoorTemp := v)
      ensures command == IndoorReading ==> State() == old(State()).(indoorTemp := v)
      ensures command == DemandReading ==> State() == old(State()).(heatingDemand := v)
      ensures command !in {OutdoorReading, IndoorReading, DemandReading} ==> State() == old(State())
      ensures outbox == old(outbox)
    {
      if command == OutdoorReading {
        outdoorTemp := v;
      } else if command == IndoorReading {
        indoorTemp := v;
      } else if command == DemandReading {
        heatingDemand := v;
      }
    }

    /** `update_physics`, with the random pressure noise as a parameter. */
    method UpdatePhysics(noise: real)
      modifies this
      ensures State() == Step(old(State()), noise)
      ensures outbox == old(outbox)
    {
      UpdateModulation();
      UpdateTemperatures(noise);
    }

    /** The modulation and flame half of `update_physics`. */
    method UpdateModulation()
      modifies this
      ensures State() == Modulate(old(State()))
      ensures outbox == old(outbox)
    {
      ghost var s := State();
      var targetMod: real;
      if !enabled {
        targetMod := 0.0;
      } else {
        var error := setpoint - boilerTemp;
        targetMod := error * 3.0;
        targetMod := targetMod + heatingDemand * 0.3;
        targetMod := Max(0.0, Min(100.0, targetMod));
      }
      if targetMod > modulation {
        modulation := modulation + Min(ModRate, targetMod - modulation);
      } else if targetMod < modulation {
        modulation := modulation - Min(ModRate, modulation - targetMod);
      }
      modulation := Max(0.0, Min(100.0, modulation));
      assert modulation == StepModulation(s.modulation, TargetModulation(s.enabled, s.setpoint, s.boilerTemp, s.heatingDemand));
      flameOn := modulation > 5.0;
    }

    /** The temperature and pressure half of `update_physics`. */
    method UpdateTemperatures(noise: real)
      modifies this
      ensures State() == Heat(old(State()), noise)
      ensures outbox == old(outbox)
    {
      if flameOn {
        boilerTemp := boilerTemp + modulation / 100.0 * HeatingRate;
      }
      var cooling := CoolingRate;
      if heatingDemand > 10.0 {
        cooling := cooling * 1.5;
      }
      boilerTemp := boilerTemp - cooling;
      var targetReturn := boilerTemp - ReturnDelta;
      returnTemp := returnTemp + (targetReturn - returnTemp) * 0.1;
      pressure := 1.5 + (boilerTemp - 30.0) * 0.003 + noise;
      boilerTemp := Max(Ambient, Min(MaxWater, boilerTemp));
      returnTemp := Max(Ambient, Min(MaxWater, returnTemp));
      pressure := Max(0.5, Min(3.0, pressure));
    }
  }
}
