/** The older metrics helpers of lib/metrics.ts: a fixed-size shift summary and
    an OEE calculation whose divisions are unguarded, so that a zero divisor
    yields a JavaScript infinity or NaN. Events have the same shape as the
    engine's (lib/domain.ts declares them identically). */
module Metrics {
  import opened Js
  import opened EngineeringDemo

  datatype ShiftMetrics = ShiftMetrics(
    plannedTimeMin: real,
    downtimeMin: real,
    outputUnits: real,
    scrapUnits: real,
    idealCycleSec: real)

  /** The four ratios as JavaScript numbers. */
  datatype Ratios = Ratios(availability: Num, performance: Num, quality: Num, oee: Num)

  /** `deriveShiftMetrics`: a 480-minute shift of 420 parts, 18 scrapped, at
      12 s each; only the downtime comes from the events. */
  function DeriveShiftMetrics(events: seq<ProductionEvent>): (m: ShiftMetrics)
    ensures m.downtimeMin == MinutesWhere(events, IsDowntimeOrChangeover)
    ensures m.plannedTimeMin == DemoShift.plannedTimeMin
    ensures m.outputUnits == DemoShift.outputUnits
    ensures m.scrapUnits == DemoShift.scrapUnits
    ensures m.idealCycleSec == DemoShift.idealCycleSec
  {
    ShiftMetrics(480.0, DowntimeMinutes(events), 420.0, 18.0, 12.0)
  }

  /** `calculateOEE`: availability is run time over planned time, performance
      ideal time over run time, quality good parts over output. */
  function CalculateOEE(m: ShiftMetrics): (r: Ratios)
    ensures m.plannedTimeMin != 0.0 ==>
      r.availability.Fin? && r.availability.v * m.plannedTimeMin == m.plannedTimeMin - m.downtimeMin
    ensures m.plannedTimeMin - m.downtimeMin != 0.0 ==>
      r.performance.Fin? &&
      r.performance.v * (m.plannedTimeMin - m.downtimeMin) * 60.0 == m.outputUnits * m.idealCycleSec
    ensures m.outputUnits != 0.0 ==>
      r.quality.Fin? && r.quality.v * m.outputUnits == m.outputUnits - m.scrapUnits
    ensures m.plannedTimeMin == 0.0 ==> !r.availability.Fin?
    ensures m.plannedTimeMin == m.downtimeMin ==> !r.performance.Fin?
    ensures m.outputUnits == 0.0 ==> !r.quality.Fin?
    ensures r.oee.Fin? <==> r.availability.Fin? && r.performance.Fin? && r.quality.Fin?
    ensures r.oee.Fin? ==> r.oee.v == r.availability.v * r.performance.v * r.quality.v
  {
    var runtime := m.plannedTimeMin - m.downtimeMin;
    var availability := Divide(runtime, m.plannedTimeMin);
    var performance := Divide(m.outputUnits * m.idealCycleSec, runtime * 60.0);
    var quality := Divide(m.outputUnits - m.scrapUnits, m.outputUnits);
    Ratios(availability, performance, quality, Multiply(Multiply(availability, performance), quality))
  }

  /** While at least one minute of the shift runs, the unguarded calculation
      agrees with the engine's clamped one, ratio by ratio. */
  lemma AgreesWithEngine(events: seq<ProductionEvent>)
    requires DowntimeMinutes(events) <= DemoShift.plannedTimeMin - 1.0
    ensures var r := CalculateOEE(DeriveShiftMetrics(events));
      var e := DeriveMetrics(events, DemoShift);
      && r.availability == Fin(e.availability)
      && r.performance == Fin(e.performance)
      && r.quality == Fin(e.quality)
      && r.oee == Fin(e.oee)
  {
    var m := DeriveShiftMetrics(events);
    var r := CalculateOEE(m);
    var e := DeriveMetrics(events, DemoShift);
    var runtime := RuntimeMinutes(e.downtimeMin, DemoShift);
    assert runtime == 480.0 - m.downtimeMin;
    assert r.availability.v * 480.0 == e.availability * 480.0;
    assert r.performance.v * runtime * 60.0 == e.performance * runtime * 60.0;
    assert r.quality.v * 420.0 == e.quality * 420.0;
  }

  /** When downtime fills the whole shift the unguarded performance divides
      by zero and is infinite, where the engine clamps run time to one minute. */
  lemma FullDowntimeDiverges(events: seq<ProductionEvent>)
    requires DowntimeMinutes(events) == DemoShift.plannedTimeMin
    ensures CalculateOEE(DeriveShiftMetrics(events)).performance == PosInf
    ensures CalculateOEE(DeriveShiftMetrics(events)).availability == Fin(0.0)
    ensures CalculateOEE(DeriveShiftMetrics(events)).oee == NaN
    ensures DeriveMetrics(events, DemoShift).performance == 420.0 * 12.0 / 60.0
  {
    var e := DeriveMetrics(events, DemoShift);
    assert RuntimeMinutes(e.downtimeMin, DemoShift) == 1.0;
  }

  /** Downtime beyond the planned time makes the unguarded availability negative. */
  lemma OverlongDowntimeNegative(events: seq<ProductionEvent>)
    requires DowntimeMinutes(events) > DemoShift.plannedTimeMin
    ensures CalculateOEE(DeriveShiftMetrics(events)).availability.Fin?
    ensures CalculateOEE(DeriveShiftMetrics(events)).availability.v < 0.0
  {
    var r := CalculateOEE(DeriveShiftMetrics(events));
    assert r.availability.v * 480.0 < 0.0;
  }

  /** With no parts made, quality is 0 / 0 when nothing is scrapped. */
  lemma NoOutputQuality(m: ShiftMetrics)
    requires m.outputUnits == 0.0 && m.scrapUnits == 0.0
    ensures CalculateOEE(m).quality == NaN
    ensures CalculateOEE(m).oee == NaN
  {
  }
}
