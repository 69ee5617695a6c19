/**
 * The maintenance analyzer (maintenance.py): history parsing, pressure,
 * temperature and heating-cycle anomaly rules, the health score, the next
 * maintenance date, and the report that dispatches sensors to the rules.
 * Fetched histories are inputs; dates are days from now.
 */
module Maintenance {
  import opened Common
  import opened Text

  /** A detected anomaly; `measured` is the number its description prints. */
  datatype Anomaly = Anomaly(
    sensorId: string, anomalyType: string, severity: string,
    measured: real, recommendation: string)

  // ---------------------------------------------------------------- history parsing

  /** A timestamp: the text `fromisoformat` accepted, or the clock fallback after a `ValueError`. */
  datatype Stamp = Parsed(text: string) | ClockNow

  datatype SensorData = SensorData(timestamp: Stamp, value: real)

  /** One element of Home Assistant's history list; a `None` field is a missing key. */
  datatype HistoryEntry = HistoryEntry(state: Option<string>, lastChanged: Option<string>)

  /**
   * What `GET /api/history/period/...` produced: a status with the decoded
   * body (`None` when it is not a list), or an exception.
   */
  datatype HistoryReply = HistoryStatus(code: int, body: Option<seq<seq<HistoryEntry>>>) | HistoryFailed

  /** A trailing "Z" becomes "+00:00" before the timestamp is parsed. */
  function NormalizeStamp(t: string): (u: string)
    ensures EndsWith(t, "Z") ==> u == t[..|t| - 1] + "+00:00" && EndsWith(u, "+00:00")
    ensures !EndsWith(t, "Z") ==> u == t
  {
    if EndsWith(t, "Z") then t[..|t| - 1] + "+00:00" else t
  }

  /** One entry of the loop, or `None` when it is skipped; `isoValid` stands for `datetime.fromisoformat`. */
  function ParseEntry(e: HistoryEntry, isoValid: string -> bool): (r: Option<SensorData>)
    ensures r.None? <==> e.state.None? || ParseFloat(e.state.value).None? || e.lastChanged.None?
    ensures r.Some? ==> r.value.value == ParseFloat(e.state.value).value
    ensures r.Some? && isoValid(NormalizeStamp(e.lastChanged.value)) ==>
      r.value.timestamp == Parsed(NormalizeStamp(e.lastChanged.value))
    ensures r.Some? && !isoValid(NormalizeStamp(e.lastChanged.value)) ==> r.value.timestamp == ClockNow
  {
    if e.state.None? then None
    else
      match ParseFloat(e.state.value)
      case None => None
      case Some(v) =>
        if e.lastChanged.None? then None
        else
          var t := NormalizeStamp(e.lastChanged.value);
          Some(SensorData(if isoValid(t) then Parsed(t) else ClockNow, v))
  }

  /** The results `parse` gives over `es`, in order, skipping every `None`. */
  function Kept<E, D>(es: seq<E>, parse: E -> Option<D>): (r: seq<D>)
    ensures |r| <= |es|
    decreases |es|
  {
    if es == [] then []
    else
      var init := Kept(es[..|es| - 1], parse);
      match parse(es[|es| - 1])
      case Some(d) => init + [d]
      case None => init
  }

  /** When `parse` accepts every element, nothing is skipped and positions are kept. */
  lemma {:induction false} KeptAll<E, D>(es: seq<E>, parse: E -> Option<D>)
    requires forall i :: 0 <= i < |es| ==> parse(es[i]).Some?
    ensures |Kept(es, parse)| == |es|
    ensures forall i :: 0 <= i < |es| ==> Kept(es, parse)[i] == parse(es[i]).value
    decreases |es|
  {
    if es != [] {
      var init := es[..|es| - 1];
      assert forall i :: 0 <= i < |init| ==> parse(init[i]).Some? by {
        assert forall i :: 0 <= i < |init| ==> init[i] == es[i];
      }
      KeptAll(init, parse);
      var p := Kept(init, parse);
      var r := Kept(es, parse);
      assert r == p + [parse(es[|es| - 1]).value];
      forall i | 0 <= i < |es|
        ensures r[i] == parse(es[i]).value
      {
        if i < |init| {
          assert init[i] == es[i];
          assert r[i] == p[i];
        }
      }
    }
  }

  /** Filtering distributes over concatenation. */
  lemma {:induction false} KeptAppend<E, D>(a: seq<E>, b: seq<E>, parse: E -> Option<D>)
    ensures Kept(a + b, parse) == Kept(a, parse) + Kept(b, parse)
    decreases |b|
  {
    if b == [] {
      assert a + b == a;
    } else {
      var init := b[..|b| - 1];
      assert (a + b)[..|a + b| - 1] == a + init;
      assert (a + b)[|a + b| - 1] == b[|b| - 1];
      KeptAppend(a, init, parse);
    }
  }

  /** A single element is kept exactly when it parses. */
  lemma KeptOne<E, D>(e: E, parse: E -> Option<D>)
    ensures Kept([e], parse) == (if parse(e).Some? then [parse(e).value] else [])
  {
    assert [e][..0] == [];
  }

  /** An element that fails to parse is dropped: the result is that of the list without it. */
  lemma KeptSkipsFailure<E, D>(es: seq<E>, parse: E -> Option<D>, i: nat)
    requires i < |es| && parse(es[i]).None?
    ensures Kept(es, parse) == Kept(es[..i] + es[i + 1..], parse)
  {
    KeptSplit(es, parse, i);
    KeptOne(es[i], parse);
    KeptAppend(es[..i], es[i + 1..], parse);
  }

  /** An element that parses is kept, between the results of the elements before and after it. */
  lemma KeptKeepsSuccess<E, D>(es: seq<E>, parse: E -> Option<D>, i: nat)
    requires i < |es| && parse(es[i]).Some?
    ensures Kept(es, parse) == Kept(es[..i], parse) + [parse(es[i]).value] + Kept(es[i + 1..], parse)
  {
    KeptSplit(es, parse, i);
    KeptOne(es[i], parse);
  }

  lemma KeptSplit<E, D>(es: seq<E>, parse: E -> Option<D>, i: nat)
    requires i < |es|
    ensures Kept(es, parse) == Kept(es[..i], parse) + Kept([es[i]], parse) + Kept(es[i + 1..], parse)
  {
    var pre, one, post := es[..i], [es[i]], es[i + 1..];
    SplitAround(es, i);
    calc {
      Kept(es, parse);
      Kept((pre + one) + post, parse);
      { KeptAppend(pre + one, post, parse); }
      Kept(pre + one, parse) + Kept(post, parse);
      { KeptAppend(pre, one, parse); }
      Kept(pre, parse) + Kept(one, parse) + Kept(post, parse);
    }
  }

  lemma SplitAround<E>(es: seq<E>, i: nat)
    requires i < |es|
    ensures es == (es[..i] + [es[i]]) + es[i + 1..]
  {
  }

  /** The kept entries, in order. */
  function ParsedEntries(es: seq<HistoryEntry>, isoValid: string -> bool): (r: seq<SensorData>)
    ensures |r| <= |es|
  {
    Kept(es, e => ParseEntry(e, isoValid))
  }

  /** An entry list where every entry is well formed loses nothing. */
  lemma WellFormedEntriesAllKept(es: seq<HistoryEntry>, isoValid: string -> bool)
    requires forall i :: 0 <= i < |es| ==> ParseEntry(es[i], isoValid).Some?
    ensures |ParsedEntries(es, isoValid)| == |es|
    ensures forall i :: 0 <= i < |es| ==> ParsedEntries(es, isoValid)[i] == ParseEntry(es[i], isoValid).value
  {
    KeptAll(es, e => ParseEntry(e, isoValid));
  }

  /** A malformed entry is skipped and the others keep their order. */
  lemma MalformedEntryDropped(es: seq<HistoryEntry>, isoValid: string -> bool, i: nat)
    requires i < |es| && ParseEntry(es[i], isoValid).None?
    ensures ParsedEntries(es, isoValid) == ParsedEntries(es[..i] + es[i + 1..], isoValid)
  {
    KeptSkipsFailure(es, e => ParseEntry(e, isoValid), i);
  }

  /** A well-formed entry is kept, after the entries before it and before the entries after it. */
  lemma WellFormedEntryKept(es: seq<HistoryEntry>, isoValid: string -> bool, i: nat)
    requires i < |es| && ParseEntry(es[i], isoValid).Some?
    ensures ParsedEntries(es, isoValid) ==
      ParsedEntries(es[..i], isoValid) + [ParseEntry(es[i], isoValid).value] + ParsedEntries(es[i + 1..], isoValid)
  {
    KeptKeepsSuccess(es, e => ParseEntry(e, isoValid), i);
  }

  /** The parse loop of `fetch_sensor_history`. */
  method ParseEntries(es: seq<HistoryEntry>, isoValid: string -> bool) returns (data: seq<SensorData>)
    ensures data == ParsedEntries(es, isoValid)
  {
    data := [];
    var i := 0;
    while i < |es|
      invariant 0 <= i <= |es|
      invariant data == ParsedEntries(es[..i], isoValid)
    {
      assert es[..i + 1][..i] == es[..i];
      var e := ParseEntry(es[i], isoValid);
      if e.Some? {
        data := data + [e.value];
      }
      i := i + 1;
    }
    assert es[..|es|] == es;
  }

  /** `fetch_sensor_history` on the reply: every failure gives the empty history. */
  method FetchSensorHistory(reply: HistoryReply, isoValid: string -> bool) returns (data: seq<SensorData>)
    ensures !reply.HistoryStatus? || reply.code != 200 || reply.body.None? ==> data == []
    ensures reply.HistoryStatus? && reply.code == 200 && reply.body.Some? ==>
      data == (if reply.body.value == [] then [] else ParsedEntries(reply.body.value[0], isoValid))
  {
    if !reply.HistoryStatus? || reply.code != 200 || reply.body.None? || reply.body.value == [] {
      return [];
    }
    data := ParseEntries(reply.body.value[0], isoValid);
  }

  function Values(history: seq<SensorData>): (v: seq<real>)
    ensures |v| == |history|
    ensures forall i :: 0 <= i < |history| ==> v[i] == history[i].value
  {
    seq(|history|, i requires 0 <= i < |history| => history[i].value)
  }

  // ---------------------------------------------------------------- statistics

  function SeqMax(v: seq<real>): (m: real)
    requires |v| > 0
    ensures forall i :: 0 <= i < |v| ==> v[i] <= m
    ensures exists i :: 0 <= i < |v| && v[i] == m
  {
    if |v| == 1 then v[0] else Max(v[0], SeqMax(v[1..]))
  }

  function SeqMin(v: seq<real>): (m: real)
    requires |v| > 0
    ensures forall i :: 0 <= i < |v| ==> m <= v[i]
    ensures exists i :: 0 <= i < |v| && v[i] == m
  {
    if |v| == 1 then v[0] else Min(v[0], SeqMin(v[1..]))
  }

  function Sum(v: seq<real>): real {
    if v == [] then 0.0 else v[0] + Sum(v[1..])
  }

  /** `statistics.mean`. */
  function Mean(v: seq<real>): real
    requires |v| > 0
  {
    Sum(v) / |v| as real
  }

  lemma {:induction false} SumConstant(v: seq<real>, m: real)
    requires forall i :: 0 <= i < |v| ==> v[i] == m
    ensures Sum(v) == |v| as real * m
  {
    if v != [] {
      SumConstant(v[1..], m);
    }
  }

  function SquaredDeviations(v: seq<real>, m: real): real {
    if v == [] then 0.0 else (v[0] - m) * (v[0] - m) + SquaredDeviations(v[1..], m)
  }

  /** `statistics.variance`, the square of `statistics.stdev`. */
  function SampleVariance(v: seq<real>): real
    requires |v| >= 2
  {
    SquaredDeviations(v, Mean(v)) / (|v| - 1) as real
  }

  // ---------------------------------------------------------------- detectors

  const PressureDropThreshold := 0.2
  const TempFluctuationThreshold := 3.0
  const CycleCountThreshold := 15.0

  const LeakAdvice := "Check for leaks in the system. May need to refill water pressure."
  const RefillAdvice := "Refill water pressure to 1.2-1.5 bar range."
  const ThermostatAdvice := "Check thermostat calibration and heating element function."
  const DifferentialAdvice := "Consider increasing temperature differential or checking thermostat placement."

  /** `_detect_pressure_anomalies`. */
  function DetectPressureAnomalies(id: string, v: seq<real>): (r: seq<Anomaly>)
    ensures |r| <= 2
    ensures |v| < 2 ==> r == []
    ensures |v| >= 2 ==>
      |r| == (if SeqMax(v) - SeqMin(v) > PressureDropThreshold then 1 else 0) + (if Mean(v) < 1.0 then 1 else 0)
    ensures forall k :: 0 <= k < |r| ==> r[k].sensorId == id
    ensures forall k :: 0 <= k < |r| ==> r[k].anomalyType == "pressure_drop" || r[k].anomalyType == "low_pressure"
    ensures |v| >= 2 ==>
      (|r| > 0 && r[0].anomalyType == "pressure_drop" <==> SeqMax(v) - SeqMin(v) > PressureDropThreshold)
    ensures |v| >= 2 ==>
      (|r| > 0 && r[|r| - 1].anomalyType == "low_pressure" <==> Mean(v) < 1.0)
    ensures |r| > 0 && r[0].anomalyType == "pressure_drop" ==>
      r[0].measured == SeqMax(v) - SeqMin(v) && r[0].severity == (if r[0].measured > 0.4 then "high" else "medium") &&
      r[0].recommendation == LeakAdvice
    ensures |r| > 0 && r[|r| - 1].anomalyType == "low_pressure" ==>
      r[|r| - 1].measured == Mean(v) && r[|r| - 1].severity == "high" && r[|r| - 1].recommendation == RefillAdvice
  {
    if |v| < 2 then []
    else
      var drop := SeqMax(v) - SeqMin(v);
      var dropAnomaly :=
        if drop > PressureDropThreshold then
          [Anomaly(id, "pressure_drop", if drop > 0.4 then "high" else "medium", drop, LeakAdvice)]
        else [];
      var avg := Mean(v);
      dropAnomaly + (if avg < 1.0 then [Anomaly(id, "low_pressure", "high", avg, RefillAdvice)] else [])
  }

  /**
   * `_detect_temperature_anomalies`: fewer than 10 readings give nothing;
   * otherwise a standard deviation above 3, i.e. a variance above 9, gives
   * one `temperature_fluctuation` anomaly.
   */
  function DetectTemperatureAnomalies(id: string, v: seq<real>): (r: seq<Anomaly>)
    ensures |v| < 10 ==> r == []
    ensures |r| <= 1
    ensures |v| >= 10 ==>
      (|r| == 1 <==> SampleVariance(v) > TempFluctuationThreshold * TempFluctuationThreshold)
    ensures |r| == 1 ==> r[0] == Anomaly(id, "temperature_fluctuation", "medium", SampleVariance(v), ThermostatAdvice)
  {
    if |v| < 10 then []
    else if SampleVariance(v) > TempFluctuationThreshold * TempFluctuationThreshold then
      [Anomaly(id, "temperature_fluctuation", "medium", SampleVariance(v), ThermostatAdvice)]
    else []
  }

  /** Readings that never change carry no fluctuation. */
  lemma {:induction false} SteadyTemperatureNoAnomaly(id: string, v: seq<real>)
    requires |v| >= 2
    requires forall i :: 0 <= i < |v| ==> v[i] == v[0]
    ensures DetectTemperatureAnomalies(id, v) == []
  {
    SumConstant(v, v[0]);
    assert Mean(v) == v[0];
    NoDeviation(v, v[0]);
  }

  lemma {:induction false} NoDeviation(v: seq<real>, m: real)
    requires forall i :: 0 <= i < |v| ==> v[i] == m
    ensures SquaredDeviations(v, m) == 0.0
  {
    if v != [] {
      NoDeviation(v[1..], m);
    }
  }

  // ---------------------------------------------------------------- heating cycles

  /** The number of adjacent readings that differ. */
  function StateChanges(v: seq<real>): (n: nat)
    ensures v != [] ==> n <= |v| - 1
    decreases |v|
  {
    if |v| < 2 then 0
    else StateChanges(v[..|v| - 1]) + (if v[|v| - 1] != v[|v| - 2] then 1 else 0)
  }

  /** Readings that never change mean no cycle. */
  lemma {:induction false} ConstantNoChanges(v: seq<real>)
    requires forall i :: 0 <= i < |v| ==> v[i] == v[0]
    ensures StateChanges(v) == 0
    decreases |v|
  {
    if |v| >= 2 {
      ConstantNoChanges(v[..|v| - 1]);
    }
  }

  /** `max(hours / 24, 0.1)` with true division. */
  function Days(hours: int): (d: real)
    ensures d >= 0.1 && d >= hours as real / 24.0
    ensures hours >= 3 ==> d == hours as real / 24.0
    ensures hours <= 2 ==> d == 0.1
  {
    Max(hours as real / 24.0, 0.1)
  }

  const HysteresisSuggestion := "Reduce heating cycles by increasing hysteresis (±0.5°C) to improve efficiency"
  const InertiaSuggestion := "Consider pre-heating 30 minutes before peak usage times to leverage thermal inertia"

  datatype CycleAnalysis = CycleAnalysis(anomalies: seq<Anomaly>, optimizations: seq<string>)

  /** What `_analyze_heating_cycles` returns for a non-empty history. */
  function HeatingCycles(id: string, history: seq<SensorData>, hours: int): (c: CycleAnalysis)
    ensures 1 <= |c.optimizations| <= 2 && c.optimizations[|c.optimizations| - 1] == InertiaSuggestion
    ensures StateChanges(Values(history)) as real / Days(hours) > CycleCountThreshold ==>
      && c.anomalies == [Anomaly(id, "excessive_cycling", "medium", StateChanges(Values(history)) as real / Days(hours), DifferentialAdvice)]
      && c.optimizations == [HysteresisSuggestion, InertiaSuggestion]
    ensures StateChanges(Values(history)) as real / Days(hours) <= CycleCountThreshold ==>
      c.anomalies == [] && c.optimizations == [InertiaSuggestion]
  {
    var perDay := StateChanges(Values(history)) as real / Days(hours);
    if perDay > CycleCountThreshold then
      CycleAnalysis([Anomaly(id, "excessive_cycling", "medium", perDay, DifferentialAdvice)],
                    [HysteresisSuggestion, InertiaSuggestion])
    else CycleAnalysis([], [InertiaSuggestion])
  }

  /** A history that never changes gives no cycling anomaly. */
  lemma SteadyHistoryNoCycling(id: string, history: seq<SensorData>, hours: int)
    requires forall i :: 0 <= i < |history| ==> history[i].value == history[0].value
    ensures HeatingCycles(id, history, hours).anomalies == []
  {
    ConstantNoChanges(Values(history));
  }

  /** `_analyze_heating_cycles` on the history it fetched. */
  method AnalyzeHeatingCycles(id: string, history: seq<SensorData>, hours: int) returns (r: Option<CycleAnalysis>)
    ensures r.None? <==> history == []
    ensures r.Some? ==> r.value == HeatingCycles(id, history, hours)
  {
    if history == [] {
      return None;
    }
    var v := Values(history);
    var changes := 0;
    var i := 1;
    while i < |v|
      invariant 1 <= i <= |v|
      invariant changes == StateChanges(v[..i])
    {
      assert v[..i + 1][..i] == v[..i];
      if v[i] != v[i - 1] {
        changes := changes + 1;
      }
      i := i + 1;
    }
    assert v[..|v|] == v;
    var perDay := changes as real / Days(hours);
    var anomalies: seq<Anomaly> := [];
    var optimizations: seq<string> := [];
    if perDay > CycleCountThreshold {
      anomalies := anomalies + [Anomaly(id, "excessive_cycling", "medium", perDay, DifferentialAdvice)];
      optimizations := optimizations + [HysteresisSuggestion];
    }
    optimizations := optimizations + [InertiaSuggestion];
    return Some(CycleAnalysis(anomalies, optimizations));
  }

  // ---------------------------------------------------------------- score and schedule

  /** The deduction for one severity; an unknown one counts as "medium". */
  function Deduction(severity: string): (d: real)
    ensures 2.0 <= d <= 20.0
    ensures severity == "low" ==> d == 2.0
    ensures severity == "high" ==> d == 10.0
    ensures severity == "critical" ==> d == 20.0
    ensures severity !in {"low", "high", "critical"} ==> d == 5.0
  {
    if severity == "low" then 2.0
    else if severity == "medium" then 5.0
    else if severity == "high" then 10.0
    else if severity == "critical" then 20.0
    else 5.0
  }

  function TotalDeduction(anomalies: seq<Anomaly>): (t: real)
    ensures t >= 2.0 * |anomalies| as real
    decreases |anomalies|
  {
    if anomalies == [] then 0.0
    else TotalDeduction(anomalies[..|anomalies| - 1]) + Deduction(anomalies[|anomalies| - 1].severity)
  }

  /** The health score the loop of `_calculate_health_score` computes. */
  function HealthScore(anomalies: seq<Anomaly>): (s: real)
    ensures 0.0 <= s <= 100.0
    ensures anomalies == [] ==> s == 100.0
  {
    Clamp(100.0 - TotalDeduction(anomalies), 0.0, 100.0)
  }

  lemma {:induction false} TotalDeductionAppend(a: seq<Anomaly>, b: seq<Anomaly>)
    ensures TotalDeduction(a + b) == TotalDeduction(a) + TotalDeduction(b)
    decreases |b|
  {
    if b != [] {
      var ab := a + b;
      assert ab[..|ab| - 1] == a + b[..|b| - 1];
      assert ab[|ab| - 1] == b[|b| - 1];
      TotalDeductionAppend(a, b[..|b| - 1]);
      calc {
        TotalDeduction(ab);
        TotalDeduction(ab[..|ab| - 1]) + Deduction(ab[|ab| - 1].severity);
        TotalDeduction(a + b[..|b| - 1]) + Deduction(b[|b| - 1].severity);
        TotalDeduction(a) + TotalDeduction(b[..|b| - 1]) + Deduction(b[|b| - 1].severity);
        TotalDeduction(a) + TotalDeduction(b);
      }
    } else {
      assert a + b == a;
    }
  }

  /** More anomalies never raise the score. */
  lemma AppendNeverIncreasesScore(a: seq<Anomaly>, b: seq<Anomaly>)
    ensures HealthScore(a + b) <= HealthScore(a)
  {
    TotalDeductionAppend(a, b);
  }

  /** `_calculate_health_score`. */
  method CalculateHealthScore(anomalies: seq<Anomaly>) returns (score: real)
    ensures score == HealthScore(anomalies)
  {
    score := 100.0;
    var i := 0;
    while i < |anomalies|
      invariant 0 <= i <= |anomalies|
      invariant score == 100.0 - TotalDeduction(anomalies[..i])
    {
      assert anomalies[..i + 1][..i] == anomalies[..i];
      score := score - Deduction(anomalies[i].severity);
      i := i + 1;
    }
    assert anomalies[..|anomalies|] == anomalies;
    score := Max(0.0, Min(100.0, score));
  }

  predicate HasSeverity(anomalies: seq<Anomaly>, severity: string) {
    exists k :: 0 <= k < |anomalies| && anomalies[k].severity == severity
  }

  /** `_recommend_next_maintenance`, in days from now. */
  function NextMaintenanceDays(anomalies: seq<Anomaly>, score: real): (days: int)
    ensures HasSeverity(anomalies, "critical") ==> days == 0
    ensures !HasSeverity(anomalies, "critical") && HasSeverity(anomalies, "high") ==> days == 7
    ensures !HasSeverity(anomalies, "critical") && !HasSeverity(anomalies, "high") ==>
      days == (if score < 70.0 then 14 else if score < 85.0 then 30 else 90)
  {
    if HasSeverity(anomalies, "critical") then 0
    else if HasSeverity(anomalies, "high") then 7
    else if score < 70.0 then 14
    else if score < 85.0 then 30
    else 90
  }

  /** A lower score never pushes the next maintenance later. */
  lemma LowerScoreNotLater(anomalies: seq<Anomaly>, s1: real, s2: real)
    requires s1 <= s2
    ensures NextMaintenanceDays(anomalies, s1) <= NextMaintenanceDays(anomalies, s2)
  {
  }

  /** A report with no anomaly schedules the next maintenance in 90 days. */
  lemma CleanReportInNinetyDays()
    ensures NextMaintenanceDays([], HealthScore([])) == 90
  {
  }

  // ---------------------------------------------------------------- the report

  const GeneralSuggestions := [
    "Enable night setback (lower temperature during sleep hours) to save 10-15% energy",
    "Avoid rapid temperature changes - gradual adjustments are more efficient"]

  /** One analysed sensor: its id, its history, and the history the cycle analysis fetches again. */
  datatype SensorInput = SensorInput(entityId: string, history: seq<SensorData>, cycleHistory: seq<SensorData>)

  datatype Report = Report(anomalies: seq<Anomaly>, suggestions: seq<string>, healthScore: real, nextMaintenanceDays: int)

  /** The detector a sensor id selects: pressure first, then temperature, else none. */
  function DetectorAnomalies(id: string, v: seq<real>): (r: seq<Anomaly>)
    ensures Contains(Lower(id), "pressure") ==> r == DetectPressureAnomalies(id, v)
    ensures !Contains(Lower(id), "pressure") && Contains(Lower(id), "temperature") ==> r == DetectTemperatureAnomalies(id, v)
    ensures !Contains(Lower(id), "pressure") && !Contains(Lower(id), "temperature") ==> r == []
  {
    if Contains(Lower(id), "pressure") then DetectPressureAnomalies(id, v)
    else if Contains(Lower(id), "temperature") then DetectTemperatureAnomalies(id, v)
    else []
  }

  /** The cycle analysis of a sensor whose id contains "climate" (case-sensitive). */
  function CycleOf(s: SensorInput, hours: int): CycleAnalysis {
    if Contains(s.entityId, "climate") && s.cycleHistory != [] then HeatingCycles(s.entityId, s.cycleHistory, hours)
    else CycleAnalysis([], [])
  }

  /** What one sensor contributes; a sensor with an empty history contributes nothing. */
  function SensorFindings(s: SensorInput, hours: int): (c: CycleAnalysis)
    ensures s.history == [] ==> c == CycleAnalysis([], [])
  {
    if s.history == [] then CycleAnalysis([], [])
    else
      var cy := CycleOf(s, hours);
      CycleAnalysis(DetectorAnomalies(s.entityId, Values(s.history)) + cy.anomalies, cy.optimizations)
  }

  function AllAnomalies(sensors: seq<SensorInput>, hours: int): seq<Anomaly>
    decreases |sensors|
  {
    if sensors == [] then []
    else AllAnomalies(sensors[..|sensors| - 1], hours) + SensorFindings(sensors[|sensors| - 1], hours).anomalies
  }

  function SensorSuggestions(sensors: seq<SensorInput>, hours: int): seq<string>
    decreases |sensors|
  {
    if sensors == [] then []
    else SensorSuggestions(sensors[..|sensors| - 1], hours) + SensorFindings(sensors[|sensors| - 1], hours).optimizations
  }

  /** Sensors whose ids name neither pressure, temperature nor climate add nothing to a report. */
  lemma {:induction false} UnrelatedSensorsAddNothing(sensors: seq<SensorInput>, hours: int)
    requires forall i :: 0 <= i < |sensors| ==>
      !Contains(Lower(sensors[i].entityId), "pressure") && !Contains(Lower(sensors[i].entityId), "temperature")
      && !Contains(sensors[i].entityId, "climate")
    ensures AllAnomalies(sensors, hours) == []
    ensures SensorSuggestions(sensors, hours) == []
    decreases |sensors|
  {
    if sensors != [] {
      UnrelatedSensorsAddNothing(sensors[..|sensors| - 1], hours);
    }
  }

  /** The body of the report loop for one sensor. */
  method AnalyzeSensor(s: SensorInput, hours: int) returns (c: CycleAnalysis)
    ensures c == SensorFindings(s, hours)
  {
    if s.history == [] {
      return CycleAnalysis([], []);
    }
    var anomalies := DetectorAnomalies(s.entityId, Values(s.history));
    var optimizations: seq<string> := [];
    if Contains(s.entityId, "climate") {
      var cycles := AnalyzeHeatingCycles(s.entityId, s.cycleHistory, hours);
      if cycles.Some? {
        anomalies := anomalies + cycles.value.anomalies;
        optimizations := optimizations + cycles.value.optimizations;
      }
    }
    return CycleAnalysis(anomalies, optimizations);
  }

  /** `generate_maintenance_report` on the fetched histories. */
  method GenerateMaintenanceReport(sensors: seq<SensorInput>, hours: int) returns (report: Report)
    ensures report.anomalies == AllAnomalies(sensors, hours)
    ensures report.suggestions == SensorSuggestions(sensors, hours) + GeneralSuggestions
    ensures report.healthScore == HealthScore(report.anomalies)
    ensures report.nextMaintenanceDays == NextMaintenanceDays(report.anomalies, report.healthScore)
  {
    var anomalies: seq<Anomaly> := [];
    var suggestions: seq<string> := [];
    var i := 0;
    while i < |sensors|
      invariant 0 <= i <= |sensors|
      invariant anomalies == AllAnomalies(sensors[..i], hours)
      invariant suggestions == SensorSuggestions(sensors[..i], hours)
    {
      assert sensors[..i + 1][..i] == sensors[..i];
      var found := AnalyzeSensor(sensors[i], hours);
      anomalies := anomalies + found.anomalies;
      suggestions := suggestions + found.optimizations;
      i := i + 1;
    }
    assert sensors[..|sensors|] == sensors;
    var score := CalculateHealthScore(anomalies);
    var next := NextMaintenanceDays(anomalies, score);
    suggestions := suggestions + GeneralSuggestions;
    return Report(anomalies, suggestions, score, next);
  }
}
