/** The OEE metrics deriver and the deterministic findings engine of
    lib/engineering-demo.ts, with the demo shift and its four events.
    Event types and categories are plain strings compared case-sensitively,
    as at run time; numbers are exact reals. */
module EngineeringDemo {
  import opened Wrappers
  import opened Seqs

  datatype Severity = Low | Medium | High

  datatype ProductionEvent = ProductionEvent(
    id: string,
    timestamp: string,
    eventType: string,
    category: string,
    durationMin: Option<real>,
    comment: Option<string>)

  datatype ShiftInputs = ShiftInputs(
    plannedTimeMin: real,
    idealCycleSec: real,
    outputUnits: real,
    scrapUnits: real)

  datatype DerivedMetrics = DerivedMetrics(
    downtimeMin: real,
    availability: real,
    performance: real,
    quality: real,
    oee: real)

  datatype Finding = Finding(
    id: string,
    severity: Severity,
    description: string,
    evidenceEventIds: seq<string>)

  /** The suggestion shape the AI review parses; it carries no behaviour here. */
  datatype RecommendedAction = RecommendedAction(
    action: string,
    category: string,
    expectedImpact: string,
    confidence: Severity,
    evidenceEventIds: Option<seq<string>>)

  /** Thresholds of the three rules. */
  const RepeatedDowntimeCount: nat := 2
  const ChangeoverLimitMin: real := 15.0
  const OeeThreshold: real := 0.65

  const RepeatedDowntimeText := "Repeated machine downtime detected (likely common cause)."
  const ChangeoverText := "Changeover time appears above target (method / setup standardization opportunity)."
  const LowOeeText := "OEE below threshold; prioritize top loss contributors (downtime + changeover + quality losses)."

  const DemoShift: ShiftInputs := ShiftInputs(480.0, 12.0, 420.0, 18.0)

  const DemoEvents: seq<ProductionEvent> := [
    ProductionEvent("e1", "2025-01-15T08:14:00", "Downtime", "Machine", Some(12.0), Some("Sensor fault during startup")),
    ProductionEvent("e2", "2025-01-15T08:47:00", "Changeover", "Method", Some(18.0), Some("Tool mismatch / setup not standardized")),
    ProductionEvent("e3", "2025-01-15T09:30:00", "Downtime", "Machine", Some(9.0), Some("Sensor fault repeat")),
    ProductionEvent("e4", "2025-01-15T10:05:00", "Scrap", "Material", None, Some("Warped input material detected at inspection"))
  ]

  /** `e.durationMin ?? 0` */
  function DurationOrZero(e: ProductionEvent): real {
    e.durationMin.GetOr(0.0)
  }

  predicate IsDowntimeOrChangeover(e: ProductionEvent) {
    e.eventType == "Downtime" || e.eventType == "Changeover"
  }

  predicate IsMachineDowntime(e: ProductionEvent) {
    e.eventType == "Downtime" && e.category == "Machine"
  }

  predicate IsChangeover(e: ProductionEvent) {
    e.eventType == "Changeover"
  }

  predicate NonNegativeDurations(es: seq<ProductionEvent>) {
    forall i :: 0 <= i < |es| ==> DurationOrZero(es[i]) >= 0.0
  }

  function Max(a: real, b: real): real {
    if a >= b then a else b
  }

  /** `reduce((sum, e) => sum + (e.durationMin ?? 0), 0)` over an already filtered list. */
  function SumDurations(es: seq<ProductionEvent>): real {
    if es == [] then 0.0 else DurationOrZero(es[0]) + SumDurations(es[1..])
  }

  /** `map((e) => e.id)` */
  function Ids(es: seq<ProductionEvent>): seq<string> {
    seq(|es|, i requires 0 <= i < |es| => es[i].id)
  }

  /** Reference definition: the minutes of the events that satisfy `p`, event by event. */
  function MinutesWhere(es: seq<ProductionEvent>, p: ProductionEvent -> bool): real {
    if es == [] then 0.0
    else (if p(es[0]) then DurationOrZero(es[0]) else 0.0) + MinutesWhere(es[1..], p)
  }

  /** Filtering then summing is summing the matching events' minutes. */
  lemma {:induction false} SumOfFilter(es: seq<ProductionEvent>, p: ProductionEvent -> bool)
    ensures SumDurations(Filter(es, p)) == MinutesWhere(es, p)
  {
    if es != [] {
      SumOfFilter(es[1..], p);
      var head := if p(es[0]) then [es[0]] else [];
      assert Filter(es, p) == head + Filter(es[1..], p);
      SumAppend(head, Filter(es[1..], p));
    }
  }

  lemma {:induction false} SumAppend(a: seq<ProductionEvent>, b: seq<ProductionEvent>)
    ensures SumDurations(a + b) == SumDurations(a) + SumDurations(b)
  {
    if a == [] {
      assert a + b == b;
    } else {
      assert (a + b)[1..] == a[1..] + b;
      SumAppend(a[1..], b);
    }
  }

  /** Minutes over events with non-negative durations are non-negative. */
  lemma {:induction false} MinutesWhereNonNegative(es: seq<ProductionEvent>, p: ProductionEvent -> bool)
    requires NonNegativeDurations(es)
    ensures MinutesWhere(es, p) >= 0.0
  {
    if es != [] {
      assert DurationOrZero(es[0]) >= 0.0;
      MinutesWhereNonNegative(es[1..], p);
    }
  }

  /** Events that fail `p` add nothing, whatever their duration. */
  lemma {:induction false} MinutesWhereNone(es: seq<ProductionEvent>, p: ProductionEvent -> bool)
    requires forall i :: 0 <= i < |es| ==> !p(es[i])
    ensures MinutesWhere(es, p) == 0.0
  {
    if es != [] {
      MinutesWhereNone(es[1..], p);
    }
  }

  lemma {:induction false} MinutesWhereAppend(a: seq<ProductionEvent>, b: seq<ProductionEvent>, p: ProductionEvent -> bool)
    ensures MinutesWhere(a + b, p) == MinutesWhere(a, p) + MinutesWhere(b, p)
  {
    if a == [] {
      assert a + b == b;
    } else {
      assert (a + b)[1..] == a[1..] + b;
      MinutesWhereAppend(a[1..], b, p);
    }
  }

  /** `downtimeMin` of `deriveMetrics`: the minutes of the Downtime and Changeover
      events, a missing duration counting as 0. */
  function DowntimeMinutes(es: seq<ProductionEvent>): (d: real)
    ensures d == MinutesWhere(es, IsDowntimeOrChangeover)
    ensures NonNegativeDurations(es) ==> d >= 0.0
  {
    SumOfFilter(es, IsDowntimeOrChangeover);
    assert NonNegativeDurations(es) ==> MinutesWhere(es, IsDowntimeOrChangeover) >= 0.0 by {
      if NonNegativeDurations(es) {
        MinutesWhereNonNegative(es, IsDowntimeOrChangeover);
      }
    }
    SumDurations(Filter(es, IsDowntimeOrChangeover))
  }

  /** Adding a Scrap event (or any event that is neither Downtime nor Changeover)
      leaves the downtime unchanged. */
  lemma ScrapAddsNoDowntime(es: seq<ProductionEvent>, e: ProductionEvent)
    requires !IsDowntimeOrChangeover(e)
    ensures DowntimeMinutes(es + [e]) == DowntimeMinutes(es)
  {
    MinutesWhereAppend(es, [e], IsDowntimeOrChangeover);
    MinutesWhereNone([e], IsDowntimeOrChangeover);
  }

  /** `max(planned - downtime, 1)`: the runtime never drops below one minute. */
  function RuntimeMinutes(downtime: real, shift: ShiftInputs): (r: real)
    ensures r >= 1.0
    ensures r >= shift.plannedTimeMin - downtime
    ensures r == 1.0 || r == shift.plannedTimeMin - downtime
  {
    Max(shift.plannedTimeMin - downtime, 1.0)
  }

  /** Exact division: the quotient times the divisor gives back the dividend. */
  function Ratio(x: real, d: real): (q: real)
    requires d != 0.0
    ensures q * d == x
  {
    x / d
  }

  /** `deriveMetrics`. The source divides by `plannedTimeMin` unguarded; every
      caller passes the demo shift (480 minutes). */
  /** The five equations `deriveMetrics` establishes between a shift, its
      events and the metrics it reports. */
  predicate MetricsOf(m: DerivedMetrics, events: seq<ProductionEvent>, shift: ShiftInputs) {
    && m.downtimeMin == MinutesWhere(events, IsDowntimeOrChangeover)
    && m.availability * shift.plannedTimeMin == RuntimeMinutes(m.downtimeMin, shift)
    && m.performance * (RuntimeMinutes(m.downtimeMin, shift) * 60.0) == shift.outputUnits * shift.idealCycleSec
    && m.quality * Max(shift.outputUnits, 1.0) == shift.outputUnits - shift.scrapUnits
    && m.oee == m.availability * m.performance * m.quality
  }

  function DeriveMetrics(events: seq<ProductionEvent>, shift: ShiftInputs): (m: DerivedMetrics)
    requires shift.plannedTimeMin != 0.0
    ensures m.downtimeMin == MinutesWhere(events, IsDowntimeOrChangeover)
    ensures m.availability * shift.plannedTimeMin == RuntimeMinutes(m.downtimeMin, shift)
    ensures m.performance * (RuntimeMinutes(m.downtimeMin, shift) * 60.0) == shift.outputUnits * shift.idealCycleSec
    ensures m.quality * Max(shift.outputUnits, 1.0) == shift.outputUnits - shift.scrapUnits
    ensures m.oee == m.availability * m.performance * m.quality
  {
    var downtimeMin := DowntimeMinutes(events);
    var runtimeMin := RuntimeMinutes(downtimeMin, shift);
    var availability := Ratio(runtimeMin, shift.plannedTimeMin);
    var performance := Ratio(shift.outputUnits * shift.idealCycleSec, runtimeMin * 60.0);
    var quality := Ratio(shift.outputUnits - shift.scrapUnits, Max(shift.outputUnits, 1.0));
    DerivedMetrics(downtimeMin, availability, performance, quality, availability * performance * quality)
  }

  /** `deriveMetrics` satisfies the five equations together. */
  lemma DerivedMetricsHold(events: seq<ProductionEvent>, shift: ShiftInputs)
    requires shift.plannedTimeMin != 0.0
    ensures MetricsOf(DeriveMetrics(events, shift), events, shift)
  {
  }

  /** With at least one planned minute and non-negative durations, availability
      lies in (0, 1]. */
  lemma AvailabilityInUnitInterval(events: seq<ProductionEvent>, shift: ShiftInputs)
    requires shift.plannedTimeMin >= 1.0
    requires NonNegativeDurations(events)
    ensures 0.0 < DeriveMetrics(events, shift).availability <= 1.0
  {
    var m := DeriveMetrics(events, shift);
    var d := DowntimeMinutes(events);
    var rt := RuntimeMinutes(d, shift);
    assert d >= 0.0;
    assert 1.0 <= rt <= shift.plannedTimeMin;
    UnitFraction(m.availability, shift.plannedTimeMin, rt);
  }

  /** `q * d == n` with `0 <= n <= d` puts `q` in [0, 1], and above 0 when `n` is. */
  lemma UnitFraction(q: real, d: real, n: real)
    requires 0.0 <= n <= d && d > 0.0
    requires q * d == n
    ensures 0.0 <= q <= 1.0
    ensures n > 0.0 ==> q > 0.0
  {
    assert q == n / d;
  }

  /** With `0 <= scrap <= output`, quality lies in [0, 1]. */
  lemma QualityInUnitInterval(events: seq<ProductionEvent>, shift: ShiftInputs)
    requires shift.plannedTimeMin != 0.0
    requires 0.0 <= shift.scrapUnits <= shift.outputUnits
    ensures 0.0 <= DeriveMetrics(events, shift).quality <= 1.0
  {
    var m := DeriveMetrics(events, shift);
    var o := Max(shift.outputUnits, 1.0);
    assert o >= 1.0 && 0.0 <= shift.outputUnits - shift.scrapUnits <= o;
    UnitFraction(m.quality, o, shift.outputUnits - shift.scrapUnits);
  }

  /** Performance is not clamped: a fast shift has performance above 1. */
  lemma PerformanceMayExceedOne()
    ensures DeriveMetrics([], ShiftInputs(10.0, 60.0, 100.0, 0.0)).performance > 1.0
  {
    var m := DeriveMetrics([], ShiftInputs(10.0, 60.0, 100.0, 0.0));
    assert DowntimeMinutes([]) == 0.0;
    assert m.performance * 10.0 * 60.0 == 6000.0;
  }

  lemma DemoDowntime()
    ensures DowntimeMinutes(DemoEvents) == 39.0
  {
    var es := DemoEvents;
    assert es[3..][1..] == [];
    assert MinutesWhere(es[3..], IsDowntimeOrChangeover) == 0.0;
    assert MinutesWhere(es[2..], IsDowntimeOrChangeover) == 9.0 by { assert es[2..][1..] == es[3..]; }
    assert MinutesWhere(es[1..], IsDowntimeOrChangeover) == 27.0 by { assert es[1..][1..] == es[2..]; }
  }

  /** The arithmetic of the demo shift: with 39 minutes of downtime, 441 of
      480 minutes run, 420 parts at 12 s fill 84 minutes, 402 parts are good. */
  lemma DemoShiftRatios(events: seq<ProductionEvent>)
    requires DowntimeMinutes(events) == 39.0
    ensures RuntimeMinutes(39.0, DemoShift) == 441.0
    ensures DeriveMetrics(events, DemoShift).availability == 441.0 / 480.0
    ensures DeriveMetrics(events, DemoShift).quality == 402.0 / 420.0
    ensures DeriveMetrics(events, DemoShift).oee < OeeThreshold
  {
    var m := DeriveMetrics(events, DemoShift);
    assert m.performance * 441.0 * 60.0 == 5040.0;
    assert m.availability * m.performance == 5040.0 / 28800.0;
  }

  /** The derived metrics of the demo shift: 39 minutes of downtime, OEE below 0.65. */
  lemma DemoMetrics()
    ensures DowntimeMinutes(DemoEvents) == 39.0
    ensures DeriveMetrics(DemoEvents, DemoShift).availability == 441.0 / 480.0
    ensures DeriveMetrics(DemoEvents, DemoShift).quality == 402.0 / 420.0
    ensures DeriveMetrics(DemoEvents, DemoShift).oee < OeeThreshold
  {
    DemoDowntime();
    DemoShiftRatios(DemoEvents);
  }

  predicate HasFinding(fs: seq<Finding>, id: string) {
    exists f :: f in fs && f.id == id
  }

  /** Position of a finding id in the rule order f1, f2, f3. */
  function RuleRank(id: string): int {
    if id == "f1" then 1 else if id == "f2" then 2 else if id == "f3" then 3 else 0
  }

  /** The repeated machine downtime rule (first block of `runDeterministicFindings`). */
  function RepeatedDowntimeRule(events: seq<ProductionEvent>): (r: seq<Finding>)
    ensures |r| <= 1
    ensures r != [] <==> |Filter(events, IsMachineDowntime)| >= RepeatedDowntimeCount
    ensures r != [] ==> r[0] == Finding("f1", High, RepeatedDowntimeText, Ids(Filter(events, IsMachineDowntime)))
  {
    var machineDowntime := Filter(events, IsMachineDowntime);
    if |machineDowntime| >= RepeatedDowntimeCount
    then [Finding("f1", High, RepeatedDowntimeText, Ids(machineDowntime))]
    else []
  }

  /** The excess changeover rule (second block). */
  function ChangeoverRule(events: seq<ProductionEvent>): (r: seq<Finding>)
    ensures |r| <= 1
    ensures r != [] <==> MinutesWhere(events, IsChangeover) >= ChangeoverLimitMin
    ensures r != [] ==> r[0] == Finding("f2", Medium, ChangeoverText, Ids(Filter(events, IsChangeover)))
  {
    var changeovers := Filter(events, IsChangeover);
    var changeoverMin := SumDurations(changeovers);
    SumOfFilter(events, IsChangeover);
    if changeoverMin >= ChangeoverLimitMin
    then [Finding("f2", Medium, ChangeoverText, Ids(changeovers))]
    else []
  }

  /** The low OEE rule (third block). */
  function LowOeeRule(events: seq<ProductionEvent>, metrics: DerivedMetrics): (r: seq<Finding>)
    ensures |r| <= 1
    ensures r != [] <==> metrics.oee < OeeThreshold
    ensures r != [] ==> r[0] == Finding("f3", High, LowOeeText, Ids(events))
  {
    if metrics.oee < OeeThreshold then [Finding("f3", High, LowOeeText, Ids(events))] else []
  }

  /** `runDeterministicFindings`: three independent rules, each appending at most
      one finding. A rule's finding is present exactly when its threshold is met. */
  function RunDeterministicFindings(events: seq<ProductionEvent>, metrics: DerivedMetrics): (r: seq<Finding>)
    ensures |r| <= 3
    ensures HasFinding(r, "f1") <==> |Filter(events, IsMachineDowntime)| >= RepeatedDowntimeCount
    ensures HasFinding(r, "f2") <==> MinutesWhere(events, IsChangeover) >= ChangeoverLimitMin
    ensures HasFinding(r, "f3") <==> metrics.oee < OeeThreshold
  {
    var f1 := RepeatedDowntimeRule(events);
    var f2 := ChangeoverRule(events);
    var f3 := LowOeeRule(events, metrics);
    RulesPresent(f1, f2, f3);
    f1 + f2 + f3
  }

  /** The findings come in rule order f1, f2, f3 (so their ids are distinct), and
      each one is its rule's finding: severity, text and the events it cites. */
  lemma FindingsInRuleOrder(events: seq<ProductionEvent>, metrics: DerivedMetrics)
    ensures var r := RunDeterministicFindings(events, metrics);
      && (forall i :: 0 <= i < |r| ==> RuleRank(r[i].id) > 0)
      && (forall i, j :: 0 <= i < j < |r| ==> RuleRank(r[i].id) < RuleRank(r[j].id))
      && (forall i :: 0 <= i < |r| ==> r[i] == RuleFinding(r[i].id, events))
  {
    RulesInOrder(RepeatedDowntimeRule(events), ChangeoverRule(events), LowOeeRule(events, metrics), events);
  }

  /** Concatenating the three rules' outputs reports a rule's finding exactly when that rule fired. */
  lemma RulesPresent(f1: seq<Finding>, f2: seq<Finding>, f3: seq<Finding>)
    requires |f1| <= 1 && |f2| <= 1 && |f3| <= 1
    requires f1 != [] ==> f1[0].id == "f1"
    requires f2 != [] ==> f2[0].id == "f2"
    requires f3 != [] ==> f3[0].id == "f3"
    ensures |f1 + f2 + f3| <= 3
    ensures HasFinding(f1 + f2 + f3, "f1") <==> f1 != []
    ensures HasFinding(f1 + f2 + f3, "f2") <==> f2 != []
    ensures HasFinding(f1 + f2 + f3, "f3") <==> f3 != []
  {
    var r := f1 + f2 + f3;
    assert f1 != [] ==> f1[0] in r;
    assert f2 != [] ==> f2[0] in r;
    assert f3 != [] ==> f3[0] in r;
  }

  /** Concatenating the three rules' outputs keeps rule order, and each entry is its rule's finding. */
  lemma RulesInOrder(f1: seq<Finding>, f2: seq<Finding>, f3: seq<Finding>, events: seq<ProductionEvent>)
    requires |f1| <= 1 && |f2| <= 1 && |f3| <= 1
    requires f1 != [] ==> f1[0] == RuleFinding("f1", events)
    requires f2 != [] ==> f2[0] == RuleFinding("f2", events)
    requires f3 != [] ==> f3[0] == RuleFinding("f3", events)
    ensures forall i :: 0 <= i < |f1 + f2 + f3| ==> RuleRank((f1 + f2 + f3)[i].id) > 0
    ensures forall i, j :: 0 <= i < j < |f1 + f2 + f3| ==>
      RuleRank((f1 + f2 + f3)[i].id) < RuleRank((f1 + f2 + f3)[j].id)
    ensures forall i :: 0 <= i < |f1 + f2 + f3| ==>
      (f1 + f2 + f3)[i] == RuleFinding((f1 + f2 + f3)[i].id, events)
  {
    var r := f1 + f2 + f3;
    // Each entry's rank is the number of the block (f1, f2 or f3) it comes from.
    forall i | 0 <= i < |r|
      ensures r[i] == RuleFinding(r[i].id, events)
      ensures RuleRank(r[i].id) == (if i < |f1| then 1 else if i < |f1| + |f2| then 2 else 3)
    {
      if i < |f1| {
        assert r[i] == f1[0];
      } else if i < |f1| + |f2| {
        assert r[i] == f2[i - |f1|];
      } else {
        assert r[i] == f3[i - |f1| - |f2|];
      }
    }
  }

  /** The finding each rule emits, by id: its severity, text and cited events. */
  function RuleFinding(id: string, events: seq<ProductionEvent>): Finding {
    if id == "f1" then Finding("f1", High, RepeatedDowntimeText, Ids(Filter(events, IsMachineDowntime)))
    else if id == "f2" then Finding("f2", Medium, ChangeoverText, Ids(Filter(events, IsChangeover)))
    else Finding("f3", High, LowOeeText, Ids(events))
  }

  /** The ids of a filtered list are ids of the whole list. */
  lemma IdsOfFilter(es: seq<ProductionEvent>, p: ProductionEvent -> bool, id: string)
    requires id in Ids(Filter(es, p))
    ensures id in Ids(es)
  {
    var sub := Filter(es, p);
    var j :| 0 <= j < |sub| && sub[j].id == id;
    assert sub[j] in es;
    var k :| 0 <= k < |es| && es[k] == sub[j];
    assert Ids(es)[k] == id;
  }

  /** The ids of a filtered list are exactly the ids of the matching events. */
  lemma IdsOfFilterExactly(es: seq<ProductionEvent>, p: ProductionEvent -> bool, id: string)
    ensures id in Ids(Filter(es, p)) <==> exists e :: e in es && p(e) && e.id == id
  {
    var sub := Filter(es, p);
    if id in Ids(sub) {
      var j :| 0 <= j < |sub| && Ids(sub)[j] == id;
      assert sub[j] in es && p(sub[j]);
    }
    if e :| e in es && p(e) && e.id == id {
      assert e in sub;
      var j :| 0 <= j < |sub| && sub[j] == e;
      assert Ids(sub)[j] == id;
    }
  }

  /** Every evidence id of every finding is the id of an input event: the
      traceability the dashboard promises. */
  lemma EvidenceComesFromInput(events: seq<ProductionEvent>, metrics: DerivedMetrics, i: int, id: string)
    requires 0 <= i < |RunDeterministicFindings(events, metrics)|
    requires id in RunDeterministicFindings(events, metrics)[i].evidenceEventIds
    ensures id in Ids(events)
  {
    var f := RunDeterministicFindings(events, metrics)[i];
    FindingsInRuleOrder(events, metrics);
    assert f == RuleFinding(f.id, events);
    if f.id == "f1" {
      IdsOfFilter(events, IsMachineDowntime, id);
    } else if f.id == "f2" {
      IdsOfFilter(events, IsChangeover, id);
    }
  }

  /** The repeated-downtime finding cites at least two events, all of them
      Downtime events in category Machine. */
  lemma RepeatedDowntimeEvidence(events: seq<ProductionEvent>, metrics: DerivedMetrics, i: int)
    requires 0 <= i < |RunDeterministicFindings(events, metrics)|
    requires RunDeterministicFindings(events, metrics)[i].id == "f1"
    ensures |RunDeterministicFindings(events, metrics)[i].evidenceEventIds| >= 2
    ensures forall id :: id in RunDeterministicFindings(events, metrics)[i].evidenceEventIds ==>
      exists e :: e in events && IsMachineDowntime(e) && e.id == id
  {
    var r := RunDeterministicFindings(events, metrics);
    var sub := Filter(events, IsMachineDowntime);
    FindingsInRuleOrder(events, metrics);
    assert r[i] == RuleFinding("f1", events);
    assert r[i].evidenceEventIds == Ids(sub);
    assert HasFinding(r, "f1") by {
      assert r[i] in r;
    }
    forall id | id in Ids(sub) ensures exists e :: e in events && IsMachineDowntime(e) && e.id == id {
      IdsOfFilterExactly(events, IsMachineDowntime, id);
    }
  }

  /** The changeover rule fires at exactly 15 minutes and not at 14. */
  lemma ChangeoverBoundary(m: DerivedMetrics)
    ensures HasFinding(RunDeterministicFindings(
      [ProductionEvent("c1", "t", "Changeover", "Method", Some(15.0), None)], m), "f2")
    ensures !HasFinding(RunDeterministicFindings(
      [ProductionEvent("c1", "t", "Changeover", "Method", Some(14.0), None)], m), "f2")
  {
    var e15 := [ProductionEvent("c1", "t", "Changeover", "Method", Some(15.0), None)];
    var e14 := [ProductionEvent("c1", "t", "Changeover", "Method", Some(14.0), None)];
    assert MinutesWhere(e15, IsChangeover) == 15.0;
    assert MinutesWhere(e14, IsChangeover) == 14.0;
  }

  /** With no events the low-OEE rule still fires on the demo shift, citing no
      evidence at all. */
  lemma LowOeeWithoutEvidence()
    ensures RunDeterministicFindings([], DeriveMetrics([], DemoShift)) ==
      [Finding("f3", High, LowOeeText, [])]
  {
    var m := DeriveMetrics([], DemoShift);
    assert DowntimeMinutes([]) == 0.0;
    assert m.availability == 1.0;
    assert m.performance * 480.0 * 60.0 == 5040.0;
    assert m.oee < OeeThreshold;
    assert Filter([], IsMachineDowntime) == [];
    assert Filter([], IsChangeover) == [];
    assert Ids([]) == [];
  }

  lemma DemoFilters()
    ensures Filter(DemoEvents, IsMachineDowntime) == [DemoEvents[0], DemoEvents[2]]
    ensures Filter(DemoEvents, IsChangeover) == [DemoEvents[1]]
  {
    DemoMachineDowntimeFilter();
    DemoChangeoverFilter();
  }

  lemma DemoMachineDowntimeFilter()
    ensures Filter(DemoEvents, IsMachineDowntime) == [DemoEvents[0], DemoEvents[2]]
  {
    var es := DemoEvents;
    assert es[3..][1..] == [];
    assert Filter(es[3..], IsMachineDowntime) == [];
    assert Filter(es[2..], IsMachineDowntime) == [es[2]] by { assert es[2..][1..] == es[3..]; }
    assert Filter(es[1..], IsMachineDowntime) == [es[2]] by { assert es[1..][1..] == es[2..]; }
  }

  lemma DemoChangeoverFilter()
    ensures Filter(DemoEvents, IsChangeover) == [DemoEvents[1]]
  {
    var es := DemoEvents;
    assert es[3..][1..] == [];
    assert Filter(es[3..], IsChangeover) == [];
    assert Filter(es[2..], IsChangeover) == [] by { assert es[2..][1..] == es[3..]; }
    assert Filter(es[1..], IsChangeover) == [es[1]] by { assert es[1..][1..] == es[2..]; }
  }

  /** On the demo events the downtime and changeover rules fire: f1 cites e1
      and e3, f2 cites e2. */
  lemma DemoRules()
    ensures RepeatedDowntimeRule(DemoEvents) == [Finding("f1", High, RepeatedDowntimeText, ["e1", "e3"])]
    ensures ChangeoverRule(DemoEvents) == [Finding("f2", Medium, ChangeoverText, ["e2"])]
  {
    DemoFilters();
    DemoRepeatedDowntime(Filter(DemoEvents, IsMachineDowntime));
    DemoChangeover(Filter(DemoEvents, IsChangeover));
  }

  lemma DemoRepeatedDowntime(sub: seq<ProductionEvent>)
    requires sub == [DemoEvents[0], DemoEvents[2]]
    ensures |sub| == 2 && Ids(sub) == ["e1", "e3"]
  {
  }

  lemma DemoChangeover(sub: seq<ProductionEvent>)
    requires sub == [DemoEvents[1]]
    ensures Ids(sub) == ["e2"] && SumDurations(sub) == 18.0
  {
  }

  /** On the demo events the OEE rule fires whenever OEE is below the
      threshold, and f3 cites every event. */
  lemma DemoLowOee(m: DerivedMetrics)
    requires m.oee < OeeThreshold
    ensures LowOeeRule(DemoEvents, m) == [Finding("f3", High, LowOeeText, ["e1", "e2", "e3", "e4"])]
  {
    assert Ids(DemoEvents) == ["e1", "e2", "e3", "e4"];
  }

  /** When each rule emits one finding, the findings are those three in rule order. */
  lemma Concat3(es: seq<ProductionEvent>, m: DerivedMetrics, f1: Finding, f2: Finding, f3: Finding)
    requires RepeatedDowntimeRule(es) == [f1] && ChangeoverRule(es) == [f2] && LowOeeRule(es, m) == [f3]
    ensures RunDeterministicFindings(es, m) == [f1, f2, f3]
  {
    assert [f1] + [f2] + [f3] == [f1, f2, f3];
  }

  lemma DemoFindingsBelowThreshold(m: DerivedMetrics)
    requires m.oee < OeeThreshold
    ensures RunDeterministicFindings(DemoEvents, m) == [
      Finding("f1", High, RepeatedDowntimeText, ["e1", "e3"]),
      Finding("f2", Medium, ChangeoverText, ["e2"]),
      Finding("f3", High, LowOeeText, ["e1", "e2", "e3", "e4"])]
  {
    DemoRules();
    DemoLowOee(m);
    Concat3(DemoEvents, m, Finding("f1", High, RepeatedDowntimeText, ["e1", "e3"]),
      Finding("f2", Medium, ChangeoverText, ["e2"]), Finding("f3", High, LowOeeText, ["e1", "e2", "e3", "e4"]));
  }
  /** The demo shift's OEE is below the threshold, so all three findings fire. */
  lemma DemoFindings()
    ensures RunDeterministicFindings(DemoEvents, DeriveMetrics(DemoEvents, DemoShift)) == [
      Finding("f1", High, RepeatedDowntimeText, ["e1", "e3"]),
      Finding("f2", Medium, ChangeoverText, ["e2"]),
      Finding("f3", High, LowOeeText, ["e1", "e2", "e3", "e4"])]
  {
    DemoMetrics();
    DemoFindingsBelowThreshold(DeriveMetrics(DemoEvents, DemoShift));
  }
}
