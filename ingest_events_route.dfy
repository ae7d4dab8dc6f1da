/** The insert row built by POST in app/api/ingest/events/route.ts. The type
    string is trusted as sent; it decides whether a duration or a quantity is
    kept. */
module IngestEventsRoute {
  import opened Wrappers
  import opened Js
  import IngestClient

  /** The row handed to the database. `None` is an `undefined` column. */
  datatype EventRow = EventRow(
    shiftId: Option<Json>,
    eventType: Option<Json>,
    durationMinutes: Json,
    quantity: Json,
    reason: Json)

  /** Reading a field of a null body throws; the handler answers 500. */
  datatype EventsResponse = InternalError | Insert(row: EventRow)

  predicate IsDurationType(t: Option<Json>) {
    t == Some(JStr("downtime")) || t == Some(JStr("changeover"))
  }

  predicate IsQuantityType(t: Option<Json>) {
    t == Some(JStr("scrap")) || t == Some(JStr("quality"))
  }

  /** A column that keeps `body[key] ?? null` only when `keep` holds. */
  function GatedColumn(body: Json, key: string, keep: bool): (c: Json)
    ensures c != JNull ==> keep && Member(body, key) == Some(c)
    ensures keep && Member(body, key).Some? ==> c == Member(body, key).value
  {
    if keep then OrNull(Member(body, key)) else JNull
  }

  /** The row for a parsed body, reading the duration from `durationKey` and
      the quantity from `quantityKey`. */
  function RowFrom(body: Json, durationKey: string, quantityKey: string): (r: EventsResponse)
    ensures r.InternalError? <==> body == JNull
    ensures r.Insert? ==> r.row.shiftId == Member(body, "shiftId") && r.row.eventType == Member(body, "type")
    ensures r.Insert? ==> r.row.reason == OrNull(Member(body, "reason"))
    ensures r.Insert? && r.row.durationMinutes != JNull ==>
      IsDurationType(Member(body, "type")) && Member(body, durationKey) == Some(r.row.durationMinutes)
    ensures r.Insert? && IsDurationType(Member(body, "type")) && Member(body, durationKey).Some? ==>
      r.row.durationMinutes == Member(body, durationKey).value
    ensures r.Insert? && r.row.quantity != JNull ==>
      IsQuantityType(Member(body, "type")) && Member(body, quantityKey) == Some(r.row.quantity)
    ensures r.Insert? && IsQuantityType(Member(body, "type")) && Member(body, quantityKey).Some? ==>
      r.row.quantity == Member(body, quantityKey).value
  {
    if body == JNull then InternalError
    else
      var t := Member(body, "type");
      Insert(EventRow(
        Member(body, "shiftId"),
        t,
        GatedColumn(body, durationKey, IsDurationType(t)),
        GatedColumn(body, quantityKey, IsQuantityType(t)),
        OrNull(Member(body, "reason"))))
  }

  /** POST as written: the duration is read from `durationMinutes` and the
      quantity from `quantity`. */
  function BuildEventRow(body: Json): (r: EventsResponse)
    ensures r.InternalError? <==> body == JNull
    ensures r.Insert? && r.row.durationMinutes != JNull ==> Member(body, "durationMinutes") == Some(r.row.durationMinutes)
    ensures r.Insert? && r.row.quantity != JNull ==> Member(body, "quantity") == Some(r.row.quantity)
  {
    RowFrom(body, "durationMinutes", "quantity")
  }

  /** The two type sets are disjoint, so a row never has both a duration and a quantity. */
  lemma NeverBothMeasures(body: Json)
    requires BuildEventRow(body).Insert?
    ensures BuildEventRow(body).row.durationMinutes == JNull || BuildEventRow(body).row.quantity == JNull
  {
  }

  /** Any type string is stored, including "note" and unknown ones, and such
      rows carry neither a duration nor a quantity. */
  lemma OtherTypesStoredBare(fields: map<string, Json>, t: string)
    requires t != "downtime" && t != "changeover" && t != "scrap" && t != "quality"
    ensures var r := BuildEventRow(JObj(fields["type" := JStr(t)]));
      r.Insert? && r.row.eventType == Some(JStr(t)) && r.row.durationMinutes == JNull && r.row.quantity == JNull
  {
  }

  /** The form's body has no `durationMinutes`, `quantity` or `reason` key. */
  lemma ClientBodyKeys(form: IngestClient.NewEvent, shiftId: string)
    ensures var b := IngestClient.ClientEventBody(form, shiftId);
      "durationMinutes" !in b && "quantity" !in b && "reason" !in b
  {
  }

  /** What the form sends is stored without its duration or quantity: the
      form names them `durationMin` and `qty`, the route reads other keys. */
  lemma ClientMeasuresDropped(form: IngestClient.NewEvent, shiftId: string)
    ensures var r := BuildEventRow(JObj(IngestClient.ClientEventBody(form, shiftId)));
      r.Insert? && r.row.durationMinutes == JNull && r.row.quantity == JNull && r.row.reason == JNull
  {
    ClientBodyKeys(form, shiftId);
  }

  /** POST reading the keys the form sends. */
  function BuildEventRowFromFormKeys(body: Json): (r: EventsResponse)
    ensures r.InternalError? <==> body == JNull
    ensures r.Insert? && r.row.durationMinutes != JNull ==> Member(body, "durationMin") == Some(r.row.durationMinutes)
    ensures r.Insert? && r.row.quantity != JNull ==> Member(body, "qty") == Some(r.row.quantity)
  {
    RowFrom(body, "durationMin", "qty")
  }

  /** Reading the form's keys, an accepted downtime or changeover event keeps
      its duration and an accepted scrap or quality event keeps its count. */
  lemma FormMeasuresKept(form: IngestClient.NewEvent, shiftId: string)
    requires IngestClient.Acceptable(form)
    ensures var r := BuildEventRowFromFormKeys(JObj(IngestClient.ClientEventBody(form, shiftId)));
      && r.Insert?
      && (IngestClient.NeedsDuration(form.eventType) ==> r.row.durationMinutes == JNum(form.durationMin.value.v))
      && (IngestClient.NeedsQty(form.eventType) ==> r.row.quantity == JNum(form.qty.value.v))
  {
    var b := IngestClient.ClientEventBody(form, shiftId);
    assert Member(JObj(b), "type") == Some(JStr(form.eventType.Name()));
  }
}
