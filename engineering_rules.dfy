/** The single loss-pattern rule of lib/engineering-rules.ts, an earlier form
    of the engine's repeated-downtime rule. */
module EngineeringRules {
  import opened Seqs
  import opened EngineeringDemo

  const LossPatternText := "Repeated machine-related downtime detected"

  /** `detectLossPatterns`: one high-severity finding citing every machine
      downtime event, in input order, once there are at least two of them. */
  function DetectLossPatterns(events: seq<ProductionEvent>): (r: seq<Finding>)
    ensures |r| <= 1
    ensures r != [] <==> |Filter(events, IsMachineDowntime)| >= 2
    ensures r != [] ==> r[0].id == "f1" && r[0].severity == High && r[0].description == LossPatternText
    ensures r != [] ==> forall id :: id in r[0].evidenceEventIds <==>
      exists e :: e in events && IsMachineDowntime(e) && e.id == id
  {
    var machineDowntime := Filter(events, IsMachineDowntime);
    assert forall id :: id in Ids(machineDowntime) <==>
      exists e :: e in events && IsMachineDowntime(e) && e.id == id by {
      forall id ensures id in Ids(machineDowntime) <==>
        exists e :: e in events && IsMachineDowntime(e) && e.id == id {
        IdsOfFilterExactly(events, IsMachineDowntime, id);
      }
    }
    if |machineDowntime| >= 2 then
      [Finding("f1", High, LossPatternText, Ids(machineDowntime))]
    else []
  }

  /** The rule fires exactly when the engine's first rule does, citing the
      same events; only the wording of the description differs. */
  lemma SameAsEngineRule(events: seq<ProductionEvent>)
    ensures |DetectLossPatterns(events)| == |RepeatedDowntimeRule(events)|
    ensures DetectLossPatterns(events) != [] ==>
      DetectLossPatterns(events)[0] == RepeatedDowntimeRule(events)[0].(description := LossPatternText)
  {
  }

  /** On the demo events the rule cites e1 and e3. */
  lemma DemoLossPatterns()
    ensures DetectLossPatterns(DemoEvents) == [Finding("f1", High, LossPatternText, ["e1", "e3"])]
  {
    DemoRules();
  }
}
