/** POST of app/api/ingest/shift/route.ts up to the insert: the session check,
    the `Number(...)` coercions, the ordered field checks and the row written
    for the demo organisation. */
module IngestShiftRoute {
  import opened Wrappers
  import opened Js

  const DemoOrgId := "demo-org"
  const DefaultShiftName := "A"

  const StartedAtRequired := "startedAt is required"
  const PlannedNotPositive := "plannedTimeMin must be > 0"
  const CycleNotPositive := "idealCycleSec must be > 0"
  const OutputNegative := "outputUnits must be >= 0"
  const ScrapNegative := "scrapUnits must be >= 0"

  /** The inserted shift header. `startedAt` is stored exactly as sent. */
  datatype ShiftRow = ShiftRow(
    orgId: string,
    shiftName: string,
    startedAt: Json,
    plannedTimeMin: real,
    idealCycleSec: Num,
    outputUnits: real,
    scrapUnits: real)

  /** 401, 400 with a message, the 500 a null body causes (reading a field
      of null throws and nothing catches it), or `Insert`: every check passed
      and this is the row the handler builds for the database. */
  datatype ShiftResponse = Unauthorized | Crash | BadRequest(error: string) | Insert(row: ShiftRow)

  /** `isPosInt` */
  predicate IsPosInt(n: Num) {
    IsInteger(n) && n.v > 0.0
  }

  /** The negation of `!Number.isInteger(n) || n < 0`. */
  predicate IsNonNegInt(n: Num) {
    IsInteger(n) && n.v >= 0.0
  }

  /** `requireSession()` found a non-empty session cookie. */
  predicate HasSession(session: Option<string>) {
    session.Some? && session.value != ""
  }

  /** The five number fields after `Number(...)`, in the order they are checked. */
  datatype Coerced = Coerced(planned: Num, cycle: Num, output: Num, scrap: Num)

  function Coerce(body: Json, parseNumeric: string -> Num): Coerced {
    Coerced(
      ToNumber(Member(body, "plannedTimeMin"), parseNumeric),
      ToNumber(Member(body, "idealCycleSec"), parseNumeric),
      ToNumber(Member(body, "outputUnits"), parseNumeric),
      ToNumber(Member(body, "scrapUnits"), parseNumeric))
  }

  /** `String(body.shiftName || "A")`; `toText` is `String` on a non-string value. */
  function ShiftName(v: Option<Json>, toText: Json -> string): (name: string)
    ensures !Truthy(v) ==> name == DefaultShiftName
    ensures Truthy(v) && v.value.JStr? ==> name == v.value.s
  {
    if !Truthy(v) then DefaultShiftName
    else if v.value.JStr? then v.value.s
    else toText(v.value)
  }

  /** Reference definition: every check the body fails, in handler order. */
  function ShiftFailures(body: Json, n: Coerced): seq<string> {
    (if !Truthy(Member(body, "startedAt")) then [StartedAtRequired] else [])
    + (if !IsPosInt(n.planned) then [PlannedNotPositive] else [])
    + (if !GreaterThan(n.cycle, 0.0) then [CycleNotPositive] else [])
    + (if !IsNonNegInt(n.output) then [OutputNegative] else [])
    + (if !IsNonNegInt(n.scrap) then [ScrapNegative] else [])
  }

  /** The POST handler up to the database call. */
  function PostShift(session: Option<string>, body: Json, parseNumeric: string -> Num, toText: Json -> string)
    : (r: ShiftResponse)
    ensures r.Unauthorized? <==> !HasSession(session)
    ensures r.Crash? <==> HasSession(session) && body == JNull
    ensures r.BadRequest? ==>
      ShiftFailures(body, Coerce(body, parseNumeric)) != [] && r.error == ShiftFailures(body, Coerce(body, parseNumeric))[0]
    ensures r.Insert? <==> HasSession(session) && body != JNull && ShiftFailures(body, Coerce(body, parseNumeric)) == []
    ensures r.Insert? ==>
      var n := Coerce(body, parseNumeric);
      && r.row.orgId == DemoOrgId
      && r.row.shiftName == ShiftName(Member(body, "shiftName"), toText)
      && Member(body, "startedAt") == Some(r.row.startedAt)
      && n.planned == Fin(r.row.plannedTimeMin) && r.row.plannedTimeMin >= 1.0
      && n.cycle == r.row.idealCycleSec
      && n.output == Fin(r.row.outputUnits) && r.row.outputUnits >= 0.0
      && n.scrap == Fin(r.row.scrapUnits) && r.row.scrapUnits >= 0.0
  {
    if !HasSession(session) then Unauthorized
    else if body == JNull then Crash
    else
      var startedAt := Member(body, "startedAt");
      var n := Coerce(body, parseNumeric);
      if !Truthy(startedAt) then BadRequest(StartedAtRequired)
      else if !IsPosInt(n.planned) then BadRequest(PlannedNotPositive)
      else if !GreaterThan(n.cycle, 0.0) then BadRequest(CycleNotPositive)
      else if !IsNonNegInt(n.output) then BadRequest(OutputNegative)
      else if !IsNonNegInt(n.scrap) then BadRequest(ScrapNegative)
      else Insert(ShiftRow(
        DemoOrgId,
        ShiftName(Member(body, "shiftName"), toText),
        startedAt.value,
        n.planned.v,
        n.cycle,
        n.output.v,
        n.scrap.v))
  }

  /** The ideal cycle time may be fractional, the planned time may not. */
  lemma FractionalCycleOnly(session: Option<string>, fields: map<string, Json>, parseNumeric: string -> Num,
                            toText: Json -> string)
    requires HasSession(session)
    requires "startedAt" in fields && fields["startedAt"] == JStr("2025-01-15T06:00:00Z")
    requires "outputUnits" in fields && fields["outputUnits"] == JNum(420.0)
    requires "scrapUnits" in fields && fields["scrapUnits"] == JNum(18.0)
    ensures PostShift(session, JObj(fields["plannedTimeMin" := JNum(480.0)]["idealCycleSec" := JNum(2.5)]),
      parseNumeric, toText).Insert?
    ensures PostShift(session, JObj(fields["plannedTimeMin" := JNum(2.5)]["idealCycleSec" := JNum(12.0)]),
      parseNumeric, toText) == BadRequest(PlannedNotPositive)
  {
    assert (2.5).Floor == 2;
    assert IsPosInt(Fin(480.0)) && IsNonNegInt(Fin(420.0)) && IsNonNegInt(Fin(18.0));
  }

  /** Nothing ties scrap to output: more scrap than output is stored. */
  lemma ScrapMayExceedOutput(session: Option<string>, body: Json, parseNumeric: string -> Num, toText: Json -> string)
    requires HasSession(session) && body != JNull
    requires Truthy(Member(body, "startedAt"))
    requires Member(body, "plannedTimeMin") == Some(JNum(480.0))
    requires Member(body, "idealCycleSec") == Some(JNum(12.0))
    requires Member(body, "outputUnits") == Some(JNum(0.0))
    requires Member(body, "scrapUnits") == Some(JNum(5.0))
    ensures var r := PostShift(session, body, parseNumeric, toText);
      r.Insert? && r.row.scrapUnits > r.row.outputUnits
  {
    assert IsPosInt(Fin(480.0)) && IsNonNegInt(Fin(0.0)) && IsNonNegInt(Fin(5.0));
  }

  /** A missing planned time is `Number(undefined)`, NaN, and fails its check;
      a null one is 0 and fails it too. */
  lemma MissingPlannedTimeRejected(session: Option<string>, fields: map<string, Json>, parseNumeric: string -> Num,
                                   toText: Json -> string)
    requires HasSession(session)
    requires "startedAt" in fields && Truthy(Some(fields["startedAt"]))
    ensures PostShift(session, JObj(fields - {"plannedTimeMin"}), parseNumeric, toText) == BadRequest(PlannedNotPositive)
    ensures PostShift(session, JObj(fields["plannedTimeMin" := JNull]), parseNumeric, toText) == BadRequest(PlannedNotPositive)
  {
    assert Member(JObj(fields - {"plannedTimeMin"}), "startedAt") == Some(fields["startedAt"]);
  }
}
