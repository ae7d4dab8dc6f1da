/** The event form of app/ingest/ingest-client.tsx: its category lists, the
    validation run before an event is sent, the normaliser applied when the
    event type changes, the submit guard and the body the form posts. Form
    numbers come from `Number(input.value)`: a cleared input gives 0, and any
    JavaScript number, NaN and fractions included, is admitted. */
module IngestClient {
  import opened Wrappers
  import opened Js

  /** The five event types the form offers, written in lower case on the wire. */
  datatype EventType = Downtime | Changeover | Scrap | Quality | Note {
    function Name(): string {
      match this
      case Downtime => "downtime"
      case Changeover => "changeover"
      case Scrap => "scrap"
      case Quality => "quality"
      case Note => "note"
    }
  }

  /** The form state. `None` is `undefined`. */
  datatype NewEvent = NewEvent(
    eventType: EventType,
    lineId: string,
    timestamp: string,
    durationMin: Option<Num>,
    qty: Option<Num>,
    category: string,
    comment: Option<string>,
    operator: Option<string>,
    station: Option<string>,
    tags: Option<seq<string>>)

  /** Downtime and changeover events carry a duration in minutes. */
  predicate NeedsDuration(t: EventType) {
    t == Downtime || t == Changeover
  }

  /** Scrap and quality events carry a part count. */
  predicate NeedsQty(t: EventType) {
    t == Scrap || t == Quality
  }

  const MaxDurationMin: real := 480.0
  const MaxQty: real := 100000.0

  const LineRequired := "Line is required."
  const TimestampRequired := "Timestamp is required."
  const CategoryRequired := "Category is required."
  const DurationNotPositiveInt := "Duration (min) must be a positive integer for downtime/changeover."
  const DurationTooLong := "Duration looks unrealistic (> 480 min). Check input."
  const DurationNotEmpty := "Duration should be empty for this event type."
  const QtyNotPositiveInt := "Qty must be a positive integer for scrap/quality."
  const QtyTooLarge := "Qty looks unrealistic. Check input."
  const QtyNotEmpty := "Qty should be empty for this event type."
  const ShiftRequired := "Save Shift Header first (shiftId required)."

  /** `CATEGORY_BY_TYPE`: the categories offered for each type, "other" last. */
  function CategoryByType(t: EventType): (cs: seq<string>)
    ensures |cs| >= 5 && cs[|cs| - 1] == "other"
  {
    match t
    case Downtime => ["sensor_fault", "jam", "maintenance", "no_material", "no_operator", "other"]
    case Changeover => ["tooling", "program", "material", "setup", "first_off_approval", "other"]
    case Scrap => ["warped_material", "dimension_oos", "surface_defect", "wrong_part", "other"]
    case Quality => ["audit_fail", "rework", "containment", "customer_return", "other"]
    case Note => ["shift_note", "handover", "safety", "5s", "other"]
  }

  /** `isPositiveInt`: an integer above zero; `undefined`, NaN and the
      infinities are not integers. */
  predicate IsPositiveInt(n: Option<Num>) {
    n.Some? && IsInteger(n.value) && n.value.v > 0.0
  }

  /** A positive integer no larger than `cap`. */
  predicate InRange(n: Option<Num>, cap: real) {
    IsPositiveInt(n) && n.value.v <= cap
  }

  /** Reference definition: every check the event fails, in the order the
      form runs them, each judged on its own. */
  function Failures(e: NewEvent): seq<string> {
    (if e.lineId == "" then [LineRequired] else [])
    + (if e.timestamp == "" then [TimestampRequired] else [])
    + (if e.category == "" then [CategoryRequired] else [])
    + (if NeedsDuration(e.eventType) && !IsPositiveInt(e.durationMin) then [DurationNotPositiveInt] else [])
    + (if NeedsDuration(e.eventType) && IsPositiveInt(e.durationMin) && e.durationMin.value.v > MaxDurationMin
       then [DurationTooLong] else [])
    + (if !NeedsDuration(e.eventType) && e.durationMin.Some? then [DurationNotEmpty] else [])
    + (if NeedsQty(e.eventType) && !IsPositiveInt(e.qty) then [QtyNotPositiveInt] else [])
    + (if NeedsQty(e.eventType) && IsPositiveInt(e.qty) && e.qty.value.v > MaxQty then [QtyTooLarge] else [])
    + (if !NeedsQty(e.eventType) && e.qty.Some? then [QtyNotEmpty] else [])
  }

  /** An event the form accepts: line, timestamp and category given, a
      duration of 1..480 whole minutes exactly for downtime and changeover, a
      count of 1..100000 exactly for scrap and quality. */
  predicate Acceptable(e: NewEvent) {
    && e.lineId != ""
    && e.timestamp != ""
    && e.category != ""
    && (if NeedsDuration(e.eventType) then InRange(e.durationMin, MaxDurationMin) else e.durationMin.None?)
    && (if NeedsQty(e.eventType) then InRange(e.qty, MaxQty) else e.qty.None?)
  }

  /** `validateEvent`: the first failing check's message, or None (null) when
      the event may be sent. */
  function ValidateEvent(e: NewEvent): (r: Option<string>)
    ensures r.None? <==> Failures(e) == []
    ensures r.Some? ==> r.value == Failures(e)[0]
  {
    if e.lineId == "" then Some(LineRequired)
    else if e.timestamp == "" then Some(TimestampRequired)
    else if e.category == "" then Some(CategoryRequired)
    else if NeedsDuration(e.eventType) && !IsPositiveInt(e.durationMin) then Some(DurationNotPositiveInt)
    else if NeedsDuration(e.eventType) && e.durationMin.value.v > MaxDurationMin then Some(DurationTooLong)
    else if !NeedsDuration(e.eventType) && e.durationMin.Some? then Some(DurationNotEmpty)
    else if NeedsQty(e.eventType) && !IsPositiveInt(e.qty) then Some(QtyNotPositiveInt)
    else if NeedsQty(e.eventType) && e.qty.value.v > MaxQty then Some(QtyTooLarge)
    else if !NeedsQty(e.eventType) && e.qty.Some? then Some(QtyNotEmpty)
    else None
  }

  /** Validation passes exactly on the acceptable events. */
  lemma ValidIffAcceptable(e: NewEvent)
    ensures ValidateEvent(e).None? <==> Acceptable(e)
  {
    if Acceptable(e) {
      assert Failures(e) == [];
    } else {
      assert Failures(e) != [];
    }
  }

  /** The common fields are checked before any type-specific one. */
  lemma CommonFieldsFirst(e: NewEvent)
    ensures e.lineId == "" ==> ValidateEvent(e) == Some(LineRequired)
    ensures e.lineId != "" && e.timestamp == "" ==> ValidateEvent(e) == Some(TimestampRequired)
    ensures e.lineId != "" && e.timestamp != "" && e.category == "" ==> ValidateEvent(e) == Some(CategoryRequired)
  {
  }

  /** Duration is checked before the count: a downtime event with a count and
      no duration reports the missing duration. */
  lemma DurationBeforeQty(e: NewEvent)
    requires e.lineId != "" && e.timestamp != "" && e.category != ""
    requires e.eventType == Downtime && e.durationMin.None? && e.qty.Some?
    ensures ValidateEvent(e) == Some(DurationNotPositiveInt)
  {
  }

  /** 480 minutes is accepted and 481 rejected; 100000 parts are accepted
      and 100001 rejected. */
  lemma Boundaries(e: NewEvent)
    requires e.lineId != "" && e.timestamp != "" && e.category != ""
    requires e.qty.None?
    ensures ValidateEvent(e.(eventType := Downtime, durationMin := Some(Fin(480.0)))).None?
    ensures ValidateEvent(e.(eventType := Downtime, durationMin := Some(Fin(481.0)))) == Some(DurationTooLong)
    ensures ValidateEvent(e.(eventType := Scrap, durationMin := None, qty := Some(Fin(100000.0)))).None?
    ensures ValidateEvent(e.(eventType := Scrap, durationMin := None, qty := Some(Fin(100001.0)))) == Some(QtyTooLarge)
  {
    assert IsInteger(Fin(480.0)) && IsInteger(Fin(481.0));
    assert IsInteger(Fin(100000.0)) && IsInteger(Fin(100001.0));
  }

  /** A duration of NaN (a non-numeric value) or a fractional one is not a
      positive integer. */
  lemma NonIntegralDurationRejected(e: NewEvent)
    requires e.lineId != "" && e.timestamp != "" && e.category != ""
    requires e.eventType == Changeover
    ensures ValidateEvent(e.(durationMin := Some(NaN))) == Some(DurationNotPositiveInt)
    ensures ValidateEvent(e.(durationMin := Some(Fin(2.5)))) == Some(DurationNotPositiveInt)
  {
    assert (2.5).Floor == 2;
  }

  /** The type-change normaliser: the first category of the new type, the
      duration kept (or 10) only where a duration is needed, the count kept
      (or 1) only where a count is needed. */
  function OnTypeChange(prev: NewEvent): (r: NewEvent)
    ensures r.category == CategoryByType(r.eventType)[0]
    ensures NeedsDuration(r.eventType) ==> r.durationMin == Some(prev.durationMin.GetOr(Fin(10.0)))
    ensures !NeedsDuration(r.eventType) ==> r.durationMin.None?
    ensures NeedsQty(r.eventType) ==> r.qty == Some(prev.qty.GetOr(Fin(1.0)))
    ensures !NeedsQty(r.eventType) ==> r.qty.None?
    ensures r == prev.(category := r.category, durationMin := r.durationMin, qty := r.qty)
  {
    var t := prev.eventType;
    var list := CategoryByType(t);
    prev.(
      category := if |list| > 0 then list[0] else "other",
      durationMin := if NeedsDuration(t) then Some(prev.durationMin.GetOr(Fin(10.0))) else None,
      qty := if NeedsQty(t) then Some(prev.qty.GetOr(Fin(1.0))) else None)
  }

  /** Normalising twice changes nothing more. */
  lemma OnTypeChangeIdempotent(e: NewEvent)
    ensures OnTypeChange(OnTypeChange(e)) == OnTypeChange(e)
  {
  }

  /** After normalising, the "should be empty" errors cannot occur, and the
      category is always present. */
  lemma NormalisedHasNoStrayFields(e: NewEvent)
    ensures ValidateEvent(OnTypeChange(e)) != Some(DurationNotEmpty)
    ensures ValidateEvent(OnTypeChange(e)) != Some(QtyNotEmpty)
    ensures ValidateEvent(OnTypeChange(e)) != Some(CategoryRequired)
  {
    var r := OnTypeChange(e);
    assert r.category != "";
  }

  /** Switching type on a form with a line and a timestamp and no numbers
      entered yields an event the form accepts: the defaults are valid. */
  lemma DefaultsAreAcceptable(e: NewEvent)
    requires e.lineId != "" && e.timestamp != ""
    requires e.durationMin.None? && e.qty.None?
    ensures Acceptable(OnTypeChange(e))
  {
    assert IsInteger(Fin(10.0)) && IsInteger(Fin(1.0));
  }

  /** What the submit button does before any request: refuse without a saved
      shift, refuse with the validation message, or post the body. */
  datatype SubmitOutcome = Refused(message: string) | Post(body: map<string, Json>)

  /** Spreading an optional field into an object literal: `undefined` adds no key. */
  function PutIfDefined(m: map<string, Json>, key: string, v: Option<Json>): map<string, Json> {
    if v.Some? then m[key := v.value] else m
  }

  function NumField(n: Option<Num>): Option<Json> {
    if n.Some? then Some(NumToJson(n.value)) else None
  }

  function StrField(s: Option<string>): Option<Json> {
    if s.Some? then Some(JStr(s.value)) else None
  }

  function TagsField(tags: Option<seq<string>>): Option<Json> {
    if tags.Some? then Some(JArr(seq(|tags.value|, i requires 0 <= i < |tags.value| => JStr(tags.value[i]))))
    else None
  }

  /** The JSON object `JSON.stringify({ ...form, shiftId })` sends, as the
      server parses it: undefined fields are dropped, non-finite numbers
      become null. */
  function ClientEventBody(form: NewEvent, shiftId: string): (b: map<string, Json>)
    ensures "type" in b && b["type"] == JStr(form.eventType.Name())
    ensures "shiftId" in b && b["shiftId"] == JStr(shiftId)
    ensures "durationMin" in b <==> form.durationMin.Some?
    ensures "qty" in b <==> form.qty.Some?
    ensures "durationMin" in b ==> b["durationMin"] == NumToJson(form.durationMin.value)
    ensures "qty" in b ==> b["qty"] == NumToJson(form.qty.value)
  {
    var optional := PutIfDefined(PutIfDefined(PutIfDefined(map[],
      "comment", StrField(form.comment)),
      "operator", StrField(form.operator)),
      "station", StrField(form.station));
    var numbers := PutIfDefined(PutIfDefined(PutIfDefined(optional,
      "tags", TagsField(form.tags)),
      "durationMin", NumField(form.durationMin)),
      "qty", NumField(form.qty));
    numbers[
      "type" := JStr(form.eventType.Name())][
      "lineId" := JStr(form.lineId)][
      "timestamp" := JStr(form.timestamp)][
      "category" := JStr(form.category)][
      "shiftId" := JStr(shiftId)]
  }

  /** `submitEvent` up to the request. `shiftId` is the loaded shift's id,
      None when no shift is loaded; an empty id counts as missing. */
  function SubmitEvent(shiftId: Option<string>, form: NewEvent): (r: SubmitOutcome)
    ensures r.Post? <==> shiftId.Some? && shiftId.value != "" && Acceptable(form)
    ensures (shiftId.None? || shiftId == Some("")) ==> r == Refused(ShiftRequired)
    ensures r.Post? ==> r.body == ClientEventBody(form, shiftId.value)
  {
    ValidIffAcceptable(form);
    if shiftId.None? || shiftId.value == "" then Refused(ShiftRequired)
    else match ValidateEvent(form)
      case Some(message) => Refused(message)
      case None => Post(ClientEventBody(form, shiftId.value))
  }

  /** A refusal for an invalid form carries the validation message. */
  lemma SubmitReportsValidation(shiftId: string, form: NewEvent)
    requires shiftId != "" && !Acceptable(form)
    ensures SubmitEvent(Some(shiftId), form) == Refused(ValidateEvent(form).value)
  {
    ValidIffAcceptable(form);
  }
}
