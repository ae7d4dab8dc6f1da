/** The pure parts of the AI review page, app/ai/ai-client.tsx: reading a JSON
    array out of a model's reply, turning ingested events into engine events,
    and choosing which events the engine reviews. */
module AiClient {
  import opened Wrappers
  import opened Js
  import opened Seqs
  import opened EngineeringDemo

  const Fence := "```"

  /** "```" occurs at position `i`. */
  predicate FenceAt(s: string, i: int) {
    0 <= i && i + 3 <= |s| && s[i] == '`' && s[i + 1] == '`' && s[i + 2] == '`'
  }

  predicate HasNoFence(s: string) {
    forall i :: 0 <= i < |s| ==> !FenceAt(s, i)
  }

  /** The ASCII letter `c` in either case, as the regular expression flag `i` matches it. */
  predicate SameLetter(c: char, lower: char) {
    c == lower || c as int == lower as int - 32
  }

  /** "```json" in any letter case starts at position 0. */
  predicate JsonFenceAtStart(s: string) {
    |s| >= 7 && FenceAt(s, 0)
    && SameLetter(s[3], 'j') && SameLetter(s[4], 's') && SameLetter(s[5], 'o') && SameLetter(s[6], 'n')
  }

  /** `s.replace(/```json/gi, "```")`: every "```json", in any letter case,
      scanning left to right, becomes "```". */
  function ReplaceJsonFences(s: string): (r: string)
    ensures |r| <= |s|
  {
    if s == [] then []
    else if JsonFenceAtStart(s) then Fence + ReplaceJsonFences(s[7..])
    else [s[0]] + ReplaceJsonFences(s[1..])
  }

  /** `s.replace(/```/g, "")`: every "```", scanning left to right, removed. */
  function RemoveFences(s: string): (r: string)
    ensures |r| <= |s|
  {
    if s == [] then []
    else if FenceAt(s, 0) then RemoveFences(s[3..])
    else [s[0]] + RemoveFences(s[1..])
  }

  /** A backtick at the front of the result was a backtick at the front of the input. */
  lemma {:induction false} RemovedStartsWithBacktick(u: string)
    requires RemoveFences(u) != [] && RemoveFences(u)[0] == '`'
    ensures u != [] && u[0] == '`'
  {
  }

  /** Two backticks at the front of the result were two at the front of the input. */
  lemma {:induction false} RemovedStartsWithTwoBackticks(t: string)
    requires |RemoveFences(t)| >= 2 && RemoveFences(t)[0] == '`' && RemoveFences(t)[1] == '`'
    ensures |t| >= 2 && t[0] == '`' && t[1] == '`'
  {
    if FenceAt(t, 0) {
    } else {
      assert RemoveFences(t) == [t[0]] + RemoveFences(t[1..]);
      RemovedStartsWithBacktick(t[1..]);
    }
  }

  /** After removing every fence no fence is left: the backticks that remain
      on either side of a removed one never join into a new one. */
  lemma {:induction false} RemoveFencesLeavesNone(s: string)
    ensures HasNoFence(RemoveFences(s))
  {
    if s == [] {
    } else if FenceAt(s, 0) {
      RemoveFencesLeavesNone(s[3..]);
    } else {
      RemoveFencesLeavesNone(s[1..]);
      var rest := RemoveFences(s[1..]);
      var r := RemoveFences(s);
      assert r == [s[0]] + rest;
      forall i | 0 <= i < |r| ensures !FenceAt(r, i) {
        if i == 0 {
          if |rest| >= 2 && rest[0] == '`' && rest[1] == '`' {
            RemovedStartsWithTwoBackticks(s[1..]);
          }
        } else {
          assert FenceAt(r, i) ==> FenceAt(rest, i - 1);
        }
      }
    }
  }

  /** A stretch of a fence-free text is fence-free. */
  lemma SliceHasNoFence(s: string, a: int, b: int)
    requires 0 <= a <= b <= |s| && HasNoFence(s)
    ensures HasNoFence(s[a..b])
  {
    forall i | 0 <= i < b - a && FenceAt(s[a..b], i) ensures false {
      assert FenceAt(s, a + i);
    }
  }

  /** The text `tryParseJSONArray` parses first: "```json" in any case
      reduced to "```", every "```" removed, surrounding whitespace trimmed. */
  function Clean(s: string): string {
    Trim(RemoveFences(ReplaceJsonFences(s)))
  }

  /** Trimming the front of a fence-free text leaves it fence-free. */
  lemma TrimStartKeepsNoFence(u: string)
    requires HasNoFence(u)
    ensures HasNoFence(TrimStart(u))
  {
    var t := TrimStart(u);
    SliceHasNoFence(u, |u| - |t|, |u|);
    assert t == u[|u| - |t|..|u|];
  }

  /** Trimming the end of a fence-free text leaves it fence-free. */
  lemma TrimEndKeepsNoFence(t: string)
    requires HasNoFence(t)
    ensures HasNoFence(TrimEnd(t))
  {
    var cleaned := TrimEnd(t);
    SliceHasNoFence(t, 0, |cleaned|);
    assert cleaned == t[0..|cleaned|];
  }

  /** The cleaned text never contains "```". */
  lemma CleanHasNoFence(s: string)
    ensures HasNoFence(Clean(s))
  {
    var unfenced := RemoveFences(ReplaceJsonFences(s));
    RemoveFencesLeavesNone(ReplaceJsonFences(s));
    TrimStartKeepsNoFence(unfenced);
    TrimEndKeepsNoFence(TrimStart(unfenced));
  }

  /** Text without backticks passes through the case-insensitive replacement unchanged. */
  lemma {:induction false} ReplaceKeepsPlainPrefix(a: string, b: string)
    requires '`' !in a
    ensures ReplaceJsonFences(a + b) == a + ReplaceJsonFences(b)
  {
    if a == [] {
      assert a + b == b;
    } else {
      assert (a + b)[0] == a[0] && (a + b)[1..] == a[1..] + b;
      ReplaceKeepsPlainPrefix(a[1..], b);
    }
  }

  /** Text without backticks passes through the fence removal unchanged. */
  lemma {:induction false} RemoveKeepsPlainPrefix(a: string, b: string)
    requires '`' !in a
    ensures RemoveFences(a + b) == a + RemoveFences(b)
  {
    if a == [] {
      assert a + b == b;
    } else {
      assert (a + b)[0] == a[0] && (a + b)[1..] == a[1..] + b;
      RemoveKeepsPlainPrefix(a[1..], b);
    }
  }

  /** "```JSON" opens a JSON fence: the letters match in upper case. */
  lemma UpperCaseJsonFence(s: string)
    requires s == "```JSON\n[]\n```"
    ensures JsonFenceAtStart(s) && s[7..] == "\n[]\n" + Fence
  {
    assert FenceAt(s, 0);
    assert s[3] == 'J' && s[4] == 'S' && s[5] == 'O' && s[6] == 'N';
  }

  /** A bare fence is too short to be a JSON fence and is kept. */
  lemma ReplaceKeepsBareFence()
    ensures ReplaceJsonFences(Fence) == Fence
  {
    var f := Fence;
    assert f[1..] == "``" && f[1..][1..] == "`" && f[1..][1..][1..] == [];
    assert ReplaceJsonFences(f[1..][1..]) == "`";
    assert ReplaceJsonFences(f[1..]) == "``";
  }

  lemma ReplaceExample(s: string)
    requires s == "```JSON\n[]\n```"
    ensures ReplaceJsonFences(s) == "```\n[]\n```"
  {
    var rest := "\n[]\n" + Fence;
    UpperCaseJsonFence(s);
    assert ReplaceJsonFences(s) == Fence + ReplaceJsonFences(rest);
    ReplaceKeepsPlainPrefix("\n[]\n", Fence);
    ReplaceKeepsBareFence();
    assert ReplaceJsonFences(rest) == rest;
  }

  lemma RemoveExample()
    ensures RemoveFences("```\n[]\n```") == "\n[]\n"
  {
    var s := "```\n[]\n```";
    assert FenceAt(s, 0) && s[3..] == "\n[]\n" + Fence;
    RemoveKeepsPlainPrefix("\n[]\n", Fence);
    assert RemoveFences(Fence) == [] by {
      assert FenceAt(Fence, 0) && Fence[3..] == [];
    }
  }

  lemma TrimStartExample()
    ensures TrimStart("\n[]\n") == "[]\n"
  {
    var s := "\n[]\n";
    assert IsTrimmable(s[0]) && s[1..] == "[]\n";
    assert !IsTrimmable(s[1..][0]);
  }

  lemma TrimEndExample()
    ensures TrimEnd("[]\n") == "[]"
  {
    var s := "[]\n";
    assert IsTrimmable(s[2]) && s[..2] == "[]";
    assert !IsTrimmable(s[..2][1]);
  }

  lemma TrimExample()
    ensures Trim("\n[]\n") == "[]"
  {
    TrimStartExample();
    TrimEndExample();
  }

  /** A fenced reply, as models often send it, cleans to the bare array. */
  lemma CleanFencedReply()
    ensures Clean("```JSON\n[]\n```") == "[]"
  {
    ReplaceExample("```JSON\n[]\n```");
    RemoveExample();
    TrimExample();
  }

  /** `cleaned.slice(start, end + 1)` from the first "[" to the last "]", when
      both exist and the "]" comes after the "[". */
  function BracketSlice(cleaned: string): (t: Option<string>)
    ensures t.Some? <==> '[' in cleaned && ']' in cleaned && LastIndexOf(cleaned, ']') > IndexOf(cleaned, '[')
    ensures t.Some? ==> t.value == cleaned[IndexOf(cleaned, '[')..LastIndexOf(cleaned, ']') + 1]
    ensures t.Some? ==> |t.value| >= 2 && t.value[0] == '[' && t.value[|t.value| - 1] == ']'
  {
    var start := IndexOf(cleaned, '[');
    var end := LastIndexOf(cleaned, ']');
    if start != -1 && end != -1 && end > start then Some(cleaned[start..end + 1]) else None
  }

  /** The array a parse produced, if it produced one (`Array.isArray`). */
  function AsArray(v: Option<Json>): Option<seq<Json>> {
    if v.Some? && v.value.JArr? then Some(v.value.items) else None
  }

  /** `tryParseJSONArray`. `parse` is `JSON.parse`, None where it throws. */
  function TryParseJsonArray(s: string, parse: string -> Option<Json>): (r: Option<seq<Json>>)
    ensures AsArray(parse(Clean(s))).Some? ==> r == AsArray(parse(Clean(s)))
    ensures AsArray(parse(Clean(s))).None? ==>
      r == (if BracketSlice(Clean(s)).Some? then AsArray(parse(BracketSlice(Clean(s)).value)) else None)
  {
    var cleaned := Clean(s);
    var whole := AsArray(parse(cleaned));
    if whole.Some? then whole
    else
      var slice := BracketSlice(cleaned);
      if slice.Some? then AsArray(parse(slice.value)) else None
  }

  /** Without a "[" in the cleaned text, only a whole-text array is found. */
  lemma NoBracketNoFallback(s: string, parse: string -> Option<Json>)
    requires '[' !in Clean(s)
    ensures TryParseJsonArray(s, parse) == AsArray(parse(Clean(s)))
  {
  }

  /** Whatever is returned is an array some parse produced, from the cleaned
      text or from a bracketed stretch of it. */
  lemma ResultIsParsedArray(s: string, parse: string -> Option<Json>)
    requires TryParseJsonArray(s, parse).Some?
    ensures parse(Clean(s)) == Some(JArr(TryParseJsonArray(s, parse).value))
      || (BracketSlice(Clean(s)).Some? && parse(BracketSlice(Clean(s)).value) == Some(JArr(TryParseJsonArray(s, parse).value)))
  {
  }

  /** An event as the ingest API returns it. */
  datatype IngestedEvent = IngestedEvent(
    id: string,
    createdAt: string,
    eventType: string,
    lineId: string,
    timestamp: string,
    durationMin: Option<real>,
    qty: Option<real>,
    category: string,
    comment: Option<string>,
    operator: Option<string>,
    station: Option<string>,
    tags: Option<seq<string>>)

  /** `mapIngestToEngineeringEvent`, restricted to the fields the engine reads;
      the type and category are copied as they are. */
  function MapIngestToEngineeringEvent(e: IngestedEvent): (r: ProductionEvent)
    ensures r.id == e.id && r.timestamp == e.timestamp && r.comment == e.comment
    ensures r.eventType == e.eventType && r.category == e.category && r.durationMin == e.durationMin
  {
    ProductionEvent(e.id, e.timestamp, e.eventType, e.category, e.durationMin, e.comment)
  }

  function MapAll(es: seq<IngestedEvent>): (r: seq<ProductionEvent>)
    ensures |r| == |es|
    ensures forall i :: 0 <= i < |es| ==> r[i] == MapIngestToEngineeringEvent(es[i])
  {
    seq(|es|, i requires 0 <= i < |es| => MapIngestToEngineeringEvent(es[i]))
  }

  /** `activeEvents`: the ingested events when they are wanted and there are
      some, otherwise the demo events. */
  function ActiveEvents(useIngested: bool, ingested: seq<IngestedEvent>): (r: seq<ProductionEvent>)
    ensures useIngested && ingested != [] ==> r == MapAll(ingested)
    ensures !(useIngested && ingested != []) ==> r == DemoEvents
    ensures r != []
  {
    if useIngested && |ingested| > 0 then MapAll(ingested) else DemoEvents
  }

  /** The review's metrics: whatever the events, against the demo shift. */
  function ReviewMetrics(useIngested: bool, ingested: seq<IngestedEvent>): (m: DerivedMetrics)
    ensures MetricsOf(m, ActiveEvents(useIngested, ingested), DemoShift)
  {
    DerivedMetricsHold(ActiveEvents(useIngested, ingested), DemoShift);
    DeriveMetrics(ActiveEvents(useIngested, ingested), DemoShift)
  }

  function ReviewFindings(useIngested: bool, ingested: seq<IngestedEvent>): (fs: seq<Finding>)
    ensures HasFinding(fs, "f1") <==> |Filter(ActiveEvents(useIngested, ingested), IsMachineDowntime)| >= RepeatedDowntimeCount
    ensures HasFinding(fs, "f2") <==> MinutesWhere(ActiveEvents(useIngested, ingested), IsChangeover) >= ChangeoverLimitMin
    ensures HasFinding(fs, "f3") <==> DeriveMetrics(ActiveEvents(useIngested, ingested), DemoShift).oee < OeeThreshold
  {
    var events := ActiveEvents(useIngested, ingested);
    RunDeterministicFindings(events, DeriveMetrics(events, DemoShift))
  }

  /** Without ingested events the review is the demo review. */
  lemma EmptyIngestReviewsDemo(useIngested: bool)
    ensures ReviewMetrics(useIngested, []) == DeriveMetrics(DemoEvents, DemoShift)
  {
  }

  /** The lower-case types the ingest form writes. */
  predicate IsIngestType(t: string) {
    t == "downtime" || t == "changeover" || t == "scrap" || t == "quality" || t == "note"
  }

  /** Copied verbatim, lower-case ingest types never equal the engine's
      "Downtime" and "Changeover": ingested events count no downtime, the
      availability is 1 and neither the downtime nor the changeover finding
      can fire. */
  lemma IngestedTypesNeverMatch(ingested: seq<IngestedEvent>)
    requires ingested != []
    requires forall i :: 0 <= i < |ingested| ==> IsIngestType(ingested[i].eventType)
    ensures ReviewMetrics(true, ingested).downtimeMin == 0.0
    ensures ReviewMetrics(true, ingested).availability == 1.0
    ensures !HasFinding(ReviewFindings(true, ingested), "f1")
    ensures !HasFinding(ReviewFindings(true, ingested), "f2")
  {
    var es := MapAll(ingested);
    MinutesWhereNone(es, IsDowntimeOrChangeover);
    MinutesWhereNone(es, IsChangeover);
    NoneMatchFilterEmpty(es, IsMachineDowntime);
  }

  /** A filter that nothing passes is empty. */
  lemma NoneMatchFilterEmpty(es: seq<ProductionEvent>, p: ProductionEvent -> bool)
    requires forall i :: 0 <= i < |es| ==> !p(es[i])
    ensures Filter(es, p) == []
  {
  }

  /** The engine's spelling of an ingest type. The engine's type union has
      only "Downtime", "Changeover" and "Scrap"; every other type, "quality"
      and "note" included, is left as it is. */
  function EngineType(t: string): (u: string)
    ensures t == "downtime" ==> u == "Downtime"
    ensures t == "changeover" ==> u == "Changeover"
    ensures t == "scrap" ==> u == "Scrap"
    ensures t != "downtime" && t != "changeover" && t != "scrap" ==> u == t
  {
    if t == "downtime" then "Downtime"
    else if t == "changeover" then "Changeover"
    else if t == "scrap" then "Scrap"
    else t
  }

  /** The mapping with the type spelled as the engine expects. */
  function MapIngestWithEngineType(e: IngestedEvent): (r: ProductionEvent)
    ensures r == MapIngestToEngineeringEvent(e).(eventType := EngineType(e.eventType))
  {
    ProductionEvent(e.id, e.timestamp, EngineType(e.eventType), e.category, e.durationMin, e.comment)
  }

  /** The ingested list mapped with the engine's spelling of the type. */
  function MapAllWithEngineType(es: seq<IngestedEvent>): (r: seq<ProductionEvent>)
    ensures |r| == |es|
    ensures forall i :: 0 <= i < |es| ==> r[i] == MapIngestWithEngineType(es[i])
  {
    seq(|es|, i requires 0 <= i < |es| => MapIngestWithEngineType(es[i]))
  }

  predicate IsIngestedDowntimeOrChangeover(e: IngestedEvent) {
    e.eventType == "downtime" || e.eventType == "changeover"
  }

  predicate IsIngestedChangeover(e: IngestedEvent) {
    e.eventType == "changeover"
  }

  /** Downtime whose category is literally "Machine"; the form's own downtime
      categories ("sensor_fault", "jam", ...) never are. */
  predicate IsIngestedMachineDowntime(e: IngestedEvent) {
    e.eventType == "downtime" && e.category == "Machine"
  }

  /** Reference definition: the minutes of the ingested events passing `q`. */
  function IngestedMinutesWhere(es: seq<IngestedEvent>, q: IngestedEvent -> bool): real {
    if es == [] then 0.0
    else (if q(es[0]) then es[0].durationMin.GetOr(0.0) else 0.0) + IngestedMinutesWhere(es[1..], q)
  }

  /** Reference definition: how many ingested events pass `q`. */
  function IngestedCount(es: seq<IngestedEvent>, q: IngestedEvent -> bool): nat {
    if es == [] then 0
    else (if q(es[0]) then 1 else 0) + IngestedCount(es[1..], q)
  }

  lemma MapAllWithEngineTypeTail(es: seq<IngestedEvent>)
    requires es != []
    ensures MapAllWithEngineType(es)[1..] == MapAllWithEngineType(es[1..])
  {
  }

  /** When an engine test `p` agrees with an ingest test `q` through the
      respelling, the engine's minutes are the ingested minutes. */
  lemma {:induction false} MappedMinutesWhere(es: seq<IngestedEvent>, p: ProductionEvent -> bool, q: IngestedEvent -> bool)
    requires forall i :: 0 <= i < |es| ==> p(MapIngestWithEngineType(es[i])) == q(es[i])
    ensures MinutesWhere(MapAllWithEngineType(es), p) == IngestedMinutesWhere(es, q)
  {
    if es != [] {
      MapAllWithEngineTypeTail(es);
      assert forall i :: 0 <= i < |es[1..]| ==> p(MapIngestWithEngineType(es[1..][i])) == q(es[1..][i]) by {
        forall i | 0 <= i < |es[1..]|
          ensures p(MapIngestWithEngineType(es[1..][i])) == q(es[1..][i])
        {
          assert es[1..][i] == es[i + 1];
        }
      }
      MappedMinutesWhere(es[1..], p, q);
    }
  }

  /** Likewise the engine's filter keeps as many events as pass `q`. */
  lemma {:induction false} MappedCount(es: seq<IngestedEvent>, p: ProductionEvent -> bool, q: IngestedEvent -> bool)
    requires forall i :: 0 <= i < |es| ==> p(MapIngestWithEngineType(es[i])) == q(es[i])
    ensures |Filter(MapAllWithEngineType(es), p)| == IngestedCount(es, q)
  {
    if es != [] {
      MapAllWithEngineTypeTail(es);
      assert forall i :: 0 <= i < |es[1..]| ==> p(MapIngestWithEngineType(es[1..][i])) == q(es[1..][i]) by {
        forall i | 0 <= i < |es[1..]|
          ensures p(MapIngestWithEngineType(es[1..][i])) == q(es[1..][i])
        {
          assert es[1..][i] == es[i + 1];
        }
      }
      MappedCount(es[1..], p, q);
    }
  }

  /** With the engine's spelling, the engine counts exactly the minutes of the
      ingested downtime and changeover events. */
  lemma EngineTypeCountsDowntime(ingested: seq<IngestedEvent>)
    requires forall i :: 0 <= i < |ingested| ==> IsIngestType(ingested[i].eventType)
    ensures MinutesWhere(MapAllWithEngineType(ingested), IsDowntimeOrChangeover)
         == IngestedMinutesWhere(ingested, IsIngestedDowntimeOrChangeover)
  {
    MappedMinutesWhere(ingested, IsDowntimeOrChangeover, IsIngestedDowntimeOrChangeover);
  }

  /** On the form's types, the respelling yields "Downtime" or "Changeover"
      exactly for "downtime" or "changeover". */
  lemma EngineTypeMatches(t: string)
    requires IsIngestType(t)
    ensures EngineType(t) == "Downtime" <==> t == "downtime"
    ensures EngineType(t) == "Changeover" <==> t == "changeover"
  {
  }

  /** Through the respelling, the engine's changeover and machine-downtime
      tests agree with the ingest ones, event by event. */
  lemma RespellingAgrees(ingested: seq<IngestedEvent>)
    requires forall i :: 0 <= i < |ingested| ==> IsIngestType(ingested[i].eventType)
    ensures forall i :: 0 <= i < |ingested| ==>
      IsChangeover(MapIngestWithEngineType(ingested[i])) == IsIngestedChangeover(ingested[i])
    ensures forall i :: 0 <= i < |ingested| ==>
      IsMachineDowntime(MapIngestWithEngineType(ingested[i])) == IsIngestedMachineDowntime(ingested[i])
  {
    forall i | 0 <= i < |ingested|
      ensures IsChangeover(MapIngestWithEngineType(ingested[i])) == IsIngestedChangeover(ingested[i])
      ensures IsMachineDowntime(MapIngestWithEngineType(ingested[i])) == IsIngestedMachineDowntime(ingested[i])
    {
      EngineTypeMatches(ingested[i].eventType);
    }
  }

  /** With the engine's spelling, the changeover finding fires exactly when
      the ingested changeovers reach 15 minutes. */
  lemma EngineTypeRaisesChangeover(ingested: seq<IngestedEvent>, metrics: DerivedMetrics)
    requires forall i :: 0 <= i < |ingested| ==> IsIngestType(ingested[i].eventType)
    ensures HasFinding(RunDeterministicFindings(MapAllWithEngineType(ingested), metrics), "f2")
        <==> IngestedMinutesWhere(ingested, IsIngestedChangeover) >= ChangeoverLimitMin
  {
    RespellingAgrees(ingested);
    MappedMinutesWhere(ingested, IsChangeover, IsIngestedChangeover);
  }

  /** With the engine's spelling, the repeated-downtime finding fires exactly
      when two ingested downtimes have category "Machine". */
  lemma EngineTypeRaisesRepeatedDowntime(ingested: seq<IngestedEvent>, metrics: DerivedMetrics)
    requires forall i :: 0 <= i < |ingested| ==> IsIngestType(ingested[i].eventType)
    ensures HasFinding(RunDeterministicFindings(MapAllWithEngineType(ingested), metrics), "f1")
        <==> IngestedCount(ingested, IsIngestedMachineDowntime) >= RepeatedDowntimeCount
  {
    RespellingAgrees(ingested);
    MappedCount(ingested, IsMachineDowntime, IsIngestedMachineDowntime);
  }
}
