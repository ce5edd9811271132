/** The decisions the HTTP handlers make around the store: which status each outcome is answered
    with, how a follow-up body's `scheduledDate` is turned into a Date before validation, the check
    on the metrics range parameters, and the CSV export's choice of collection.

    Validation (`schema.parse(body)`) is the parameter `parse`, which yields the typed payload or a
    ZodError; `new Date(x)` on a request value is the parameter `toDate`. Express itself — sending
    the JSON, setting headers — is not modelled. */
module Routes {
  import opened Wrappers
  import opened Js
  import opened Schema
  import opened Storage
  import opened Csv

  /** The statuses the handlers answer with, other than the 500 of an unexpected exception. */
  datatype Status = Ok | Created | NoContent | BadRequest | NotFound

  function Code(s: Status): (c: int)
    ensures c == 200 <==> s == Ok
    ensures c == 201 <==> s == Created
    ensures c == 204 <==> s == NoContent
    ensures c == 400 <==> s == BadRequest
    ensures c == 404 <==> s == NotFound
  {
    match s
    case Ok => 200
    case Created => 201
    case NoContent => 204
    case BadRequest => 400
    case NotFound => 404
  }

  /** The outcome of `schema.parse(body)`: the typed payload, or the ZodError it throws. */
  datatype Parsed<T> = Parsed(value: T) | ZodError(issues: seq<string>)

  // ---------------------------------------------------------------------------------------------
  // Status decisions

  /** `if (!record) return 404`, else the record is sent with 200. Every record is an object, and
      objects are truthy, so only an absent record answers 404. */
  function FoundStatus<T>(r: Option<T>): (s: Status)
    ensures s == NotFound <==> r.None?
    ensures s == Ok <==> r.Some?
    ensures Code(s) == 404 <==> r.None?
  {
    if r.None? then NotFound else Ok
  }

  /** `if (!deleted) return 404`, else 204 with no body. */
  function DeletedStatus(deleted: bool): (s: Status)
    ensures s == NoContent <==> deleted
    ensures s == NotFound <==> !deleted
    ensures Code(s) == 204 <==> deleted
  {
    if !deleted then NotFound else NoContent
  }

  /** A create answers 400 when validation throws, else 201 with the new record. */
  function CreateStatus<T>(p: Parsed<T>): (s: Status)
    ensures s == BadRequest <==> p.ZodError?
    ensures s == Created <==> p.Parsed?
    ensures Code(s) == 400 <==> p.ZodError?
  {
    if p.ZodError? then BadRequest else Created
  }

  // ---------------------------------------------------------------------------------------------
  // The follow-up bodies

  /** `{...req.body, scheduledDate: new Date(req.body.scheduledDate)}`: a POST body always gets a
      Date, made from whatever the body held (undefined too). */
  function PostFollowUpBody(body: Obj, toDate: Option<Value> -> JsDate): (r: Obj)
    ensures Get(r, "scheduledDate") == Some(Date(toDate(Get(body, "scheduledDate"))))
  {
    var date: Obj := [("scheduledDate", Date(toDate(Get(body, "scheduledDate"))))];
    GetSpread(body, date, "scheduledDate");
    Spread(body, date)
  }

  /** `{...req.body, ...(req.body.scheduledDate && {scheduledDate: new Date(req.body.scheduledDate)})}`:
      a PATCH body's date is converted only when it is truthy; spreading a falsy value adds
      nothing. */
  function PatchFollowUpBody(body: Obj, toDate: Option<Value> -> JsDate): (r: Obj)
    ensures Truthy(Get(body, "scheduledDate")) ==> Get(r, "scheduledDate") == Some(Date(toDate(Get(body, "scheduledDate"))))
    ensures !Truthy(Get(body, "scheduledDate")) ==> r == body
  {
    var raw := Get(body, "scheduledDate");
    if Truthy(raw) then
      var date: Obj := [("scheduledDate", Date(toDate(raw)))];
      GetSpread(body, date, "scheduledDate");
      Spread(body, date)
    else body
  }

  /** A POST body holds the converted date, and every other property as sent. */
  lemma PostFollowUpBodyProps(body: Obj, toDate: Option<Value> -> JsDate, k: string)
    ensures Get(PostFollowUpBody(body, toDate), k)
         == if k == "scheduledDate" then Some(Date(toDate(Get(body, "scheduledDate")))) else Get(body, k)
  {
    GetSpread(body, [("scheduledDate", Date(toDate(Get(body, "scheduledDate"))))], k);
  }

  /** A PATCH body holds the converted date when the one sent was truthy; otherwise every property
      is as sent, so a body without `scheduledDate` still has none. */
  lemma PatchFollowUpBodyProps(body: Obj, toDate: Option<Value> -> JsDate, k: string)
    ensures Get(PatchFollowUpBody(body, toDate), k)
         == if k == "scheduledDate" && Truthy(Get(body, k)) then Some(Date(toDate(Get(body, k))))
            else Get(body, k)
  {
    var raw := Get(body, "scheduledDate");
    if Truthy(raw) {
      GetSpread(body, [("scheduledDate", Date(toDate(raw)))], k);
    }
  }

  /** What zod's `.partial()` does with an absent key: the parsed patch has no `scheduledDate`
      either. */
  ghost predicate KeepsAbsentDate(parse: Obj -> Parsed<FollowUpPatch>) {
    forall o :: Get(o, "scheduledDate").None? && parse(o).Parsed? ==> parse(o).value.scheduledDate.None?
  }

  // ---------------------------------------------------------------------------------------------
  // Metrics range parameters

  /** A query parameter read as a value: absent, or a string. */
  function QueryValue(q: Option<string>): Option<Value> {
    if q.None? then None else Some(Str(q.value))
  }

  /** `!startDate || !endDate` on a query value: missing, or the empty string. */
  function Missing(q: Option<string>): (r: bool)
    ensures r <==> !Truthy(QueryValue(q))
  {
    q.None? || q.value == ""
  }

  /** GET /api/metrics/range: 400 when either bound is missing, and only otherwise a query with both
      bounds turned into Dates. */
  function MetricsRangeRoute(store: MemStorage, startDate: Option<string>, endDate: Option<string>,
                             toDate: string -> JsDate): (r: (Status, Option<seq<Metric>>))
    reads store
    requires store.Valid()
    ensures r.0 == BadRequest <==> Missing(startDate) || Missing(endDate)
    ensures r.0 == BadRequest ==> r.1.None?
    ensures r.0 != BadRequest ==>
              r.0 == Ok && r.1 == Some(store.GetMetricsByDateRange(toDate(startDate.value), toDate(endDate.value)))
  {
    if Missing(startDate) || Missing(endDate) then (BadRequest, None)
    else (Ok, Some(store.GetMetricsByDateRange(toDate(startDate.value), toDate(endDate.value))))
  }

  // ---------------------------------------------------------------------------------------------
  // Export

  datatype ExportType = ClientsExport | FollowUpsExport

  /** The `type` route parameter: "clients" or "follow-ups"; anything else is not an export. */
  function ExportTypeOf(t: string): (r: Option<ExportType>)
    ensures r == Some(ClientsExport) <==> t == "clients"
    ensures r == Some(FollowUpsExport) <==> t == "follow-ups"
    ensures r.None? <==> t != "clients" && t != "follow-ups"
  {
    if t == "clients" then Some(ClientsExport)
    else if t == "follow-ups" then Some(FollowUpsExport)
    else None
  }

  function ClientObjects(cs: seq<Client>): (r: seq<Obj>)
    ensures |r| == |cs|
    ensures forall i | 0 <= i < |cs| :: r[i] == ClientObject(cs[i])
    ensures forall i | 0 <= i < |cs| :: Get(r[i], "id") == Some(Str(cs[i].id))
  {
    seq(|cs|, i requires 0 <= i < |cs| => ClientObject(cs[i]))
  }

  function FollowUpObjects(fs: seq<FollowUp>): (r: seq<Obj>)
    ensures |r| == |fs|
    ensures forall i | 0 <= i < |fs| :: r[i] == FollowUpObject(fs[i])
    ensures forall i | 0 <= i < |fs| :: Get(r[i], "id") == Some(Str(fs[i].id))
  {
    seq(|fs|, i requires 0 <= i < |fs| => FollowUpObject(fs[i]))
  }

  /** The records an export of the given type serialises. */
  function ExportData(store: MemStorage, kind: ExportType): (r: seq<Obj>)
    reads store
    requires store.Valid()
    ensures kind == ClientsExport ==>
              |r| == |store.clients.order| && forall i | 0 <= i < |r| :: Get(r[i], "id") == Some(Str(store.clients.order[i]))
    ensures kind == FollowUpsExport ==>
              |r| == |store.followUps.order| && forall i | 0 <= i < |r| :: Get(r[i], "id") == Some(Str(store.followUps.order[i]))
  {
    if kind == ClientsExport then
      ClientExportIds(store);
      ClientObjects(store.GetClients())
    else
      FollowUpExportIds(store);
      FollowUpObjects(store.GetFollowUps())
  }

  /** The exported clients carry the stored ids, in insertion order. */
  lemma ClientExportIds(store: MemStorage)
    requires store.Valid()
    ensures |ClientObjects(store.GetClients())| == |store.clients.order|
    ensures forall i | 0 <= i < |store.clients.order| ::
              Get(ClientObjects(store.GetClients())[i], "id") == Some(Str(store.clients.order[i]))
  {
    var clients := store.GetClients();
    assert forall i | 0 <= i < |clients| :: clients[i].id == store.clients.order[i];
  }

  /** The exported follow-ups carry the stored ids, in insertion order. */
  lemma FollowUpExportIds(store: MemStorage)
    requires store.Valid()
    ensures |FollowUpObjects(store.GetFollowUps())| == |store.followUps.order|
    ensures forall i | 0 <= i < |store.followUps.order| ::
              Get(FollowUpObjects(store.GetFollowUps())[i], "id") == Some(Str(store.followUps.order[i]))
  {
    var followUps := store.GetFollowUps();
    assert forall i | 0 <= i < |followUps| :: followUps[i].id == store.followUps.order[i];
  }

  /** GET /api/export/:type: the CSV of all clients or of all follow-ups, or 400 for any other type. */
  function ExportRoute(store: MemStorage, t: string, dateText: JsDate -> string): (r: (Status, Option<string>))
    reads store
    requires store.Valid()
    ensures r.0 == BadRequest <==> ExportTypeOf(t).None?
    ensures r.0 == BadRequest ==> r.1.None?
    ensures t == "clients" ==> r == (Ok, Some(GenerateCsv(ClientObjects(store.GetClients()), dateText)))
    ensures t == "follow-ups" ==> r == (Ok, Some(GenerateCsv(FollowUpObjects(store.GetFollowUps()), dateText)))
  {
    match ExportTypeOf(t)
    case None => (BadRequest, None)
    case Some(kind) => (Ok, Some(GenerateCsv(ExportData(store, kind), dateText)))
  }

  /** Every column name of a client or a follow-up is written without quoting. */
  lemma ColumnsPlain()
    ensures forall k | k in ClientColumns :: Plain(k)
    ensures forall k | k in FollowUpColumns :: Plain(k)
  {
  }

  /** A client object's property names are column names, and `id` is always among them. */
  lemma ClientObjectKeys(c: Client)
    ensures Keys(ClientObject(c)) != []
    ensures forall k | k in Keys(ClientObject(c)) :: Plain(k)
  {
    var o := ClientObject(c);
    assert Get(o, "id").Some?;
    ColumnsPlain();
    forall k | k in Keys(o) ensures Plain(k) {
      if k !in ClientColumns {
        ClientPropOutside(c, k);
      }
    }
  }

  lemma FollowUpObjectKeys(f: FollowUp)
    ensures Keys(FollowUpObject(f)) != []
    ensures forall k | k in Keys(FollowUpObject(f)) :: Plain(k)
  {
    var o := FollowUpObject(f);
    assert Get(o, "id").Some?;
    ColumnsPlain();
    forall k | k in Keys(o) ensures Plain(k) {
      if k !in FollowUpColumns {
        FollowUpPropOutside(f, k);
      }
    }
  }

  /** An export reads back as its table: the first record's property names, then every record's
      values, one line each — as long as the text of a Date holds no comma, quote or line break. */
  lemma ExportRoundTrip(store: MemStorage, t: string, dateText: JsDate -> string)
    requires store.Valid()
    requires forall d :: Plain(dateText(d))
    requires ExportTypeOf(t).Some?
    ensures ParseCsv(ExportRoute(store, t, dateText).1.value)
         == Some(CsvTable(ExportData(store, ExportTypeOf(t).value), dateText))
  {
    var data := ExportData(store, ExportTypeOf(t).value);
    if data != [] {
      match ExportTypeOf(t).value
      case ClientsExport => ClientObjectKeys(store.GetClients()[0]);
      case FollowUpsExport => FollowUpObjectKeys(store.GetFollowUps()[0]);
    }
    ReadableWhen(data, dateText);
    CsvRoundTrip(data, dateText);
  }

  // ---------------------------------------------------------------------------------------------
  // Handlers

  /** GET /api/clients/:id. */
  function GetClientRoute(store: MemStorage, id: Id): (r: (Status, Option<Client>))
    reads store
    requires store.Valid()
    ensures r.0 == NotFound <==> id !in store.clients.rows
    ensures r.0 == Ok <==> id in store.clients.rows
    ensures r.0 == Ok ==> r.1 == Some(store.clients.rows[id])
  {
    var client := store.GetClient(id);
    (FoundStatus(client), client)
  }

  /** GET /api/metrics: the latest metric, or 404 when there is none. */
  function GetMetricsRoute(store: MemStorage): (r: (Status, Option<Metric>))
    reads store
    requires store.Valid()
    ensures r.0 == NotFound <==> store.AllMetrics() == []
    ensures r.0 == Ok <==> store.AllMetrics() != []
    ensures r.0 == Ok ==> r.1.Some? && r.1.value in store.AllMetrics()
    ensures r.0 == Ok ==> forall m | m in store.AllMetrics() :: m.date <= r.1.value.date
  {
    var latest := store.GetLatestMetrics();
    (FoundStatus(latest), latest)
  }

  /** POST /api/clients: 400 and no change when validation fails, else 201 and the stored client. */
  method PostClientRoute(store: MemStorage, body: Obj, parse: Obj -> Parsed<InsertClient>, id: Id, now: Time)
    returns (status: Status, client: Option<Client>)
    requires store.Valid()
    modifies store
    ensures store.Valid()
    ensures status == CreateStatus(parse(body))
    ensures parse(body).ZodError? ==> client.None? && store.clients == old(store.clients)
    ensures parse(body).Parsed? ==>
              && client == Some(NewClient(id, parse(body).value, now))
              && store.clients == old(store.clients).Set(id, client.value)
    ensures store.followUps == old(store.followUps) && store.metrics == old(store.metrics)
    ensures store.apiIntegrations == old(store.apiIntegrations)
  {
    var clientData := parse(body);
    if clientData.ZodError? {
      return BadRequest, None;
    }
    var created := store.CreateClient(id, clientData.value, now);
    return Created, Some(created);
  }

  /** PATCH /api/clients/:id: 400 when validation fails, 404 for an unknown id, else 200 and the
      merged client. */
  method PatchClientRoute(store: MemStorage, id: Id, body: Obj, parse: Obj -> Parsed<ClientPatch>, now: Time)
    returns (status: Status, client: Option<Client>)
    requires store.Valid()
    modifies store
    ensures store.Valid()
    ensures status == BadRequest <==> parse(body).ZodError?
    ensures status == NotFound <==> parse(body).Parsed? && id !in old(store.clients.rows)
    ensures status == Ok <==> parse(body).Parsed? && id in old(store.clients.rows)
    ensures status != Ok ==> client.None? && store.clients == old(store.clients)
    ensures status == Ok ==>
              && client == Some(MergeClient(old(store.clients.rows[id]), parse(body).value, now))
              && store.clients == old(store.clients).Set(id, client.value)
    ensures store.followUps == old(store.followUps) && store.metrics == old(store.metrics)
    ensures store.apiIntegrations == old(store.apiIntegrations)
  {
    var updateData := parse(body);
    if updateData.ZodError? {
      return BadRequest, None;
    }
    client := store.UpdateClient(id, updateData.value, now);
    status := FoundStatus(client);
  }

  /** DELETE /api/clients/:id: 204 when the client was removed, 404 when there was none. The
      client's follow-ups are kept. */
  method DeleteClientRoute(store: MemStorage, id: Id) returns (status: Status)
    requires store.Valid()
    modifies store
    ensures store.Valid()
    ensures status == (if id in old(store.clients.rows) then NoContent else NotFound)
    ensures id !in store.clients.rows
    ensures store.clients == old(store.clients).Delete(id).0
    ensures store.followUps == old(store.followUps) && store.metrics == old(store.metrics)
    ensures store.apiIntegrations == old(store.apiIntegrations)
  {
    var deleted := store.DeleteClient(id);
    status := DeletedStatus(deleted);
  }

  /** POST /api/follow-ups: the body's date is converted, then validated; 400 and no change when
      validation fails, else 201 and the stored follow-up. */
  method PostFollowUpRoute(store: MemStorage, body: Obj, toDate: Option<Value> -> JsDate,
                           parse: Obj -> Parsed<InsertFollowUp>, id: Id, now: Time)
    returns (status: Status, followUp: Option<FollowUp>)
    requires store.Valid()
    modifies store
    ensures store.Valid()
    ensures status == CreateStatus(parse(PostFollowUpBody(body, toDate)))
    ensures status == BadRequest ==> followUp.None? && store.followUps == old(store.followUps)
    ensures status == Created ==>
              && followUp == Some(NewFollowUp(id, parse(PostFollowUpBody(body, toDate)).value, now))
              && store.followUps == old(store.followUps).Set(id, followUp.value)
    ensures store.clients == old(store.clients) && store.metrics == old(store.metrics)
    ensures store.apiIntegrations == old(store.apiIntegrations)
  {
    var followUpData := parse(PostFollowUpBody(body, toDate));
    if followUpData.ZodError? {
      return BadRequest, None;
    }
    var created := store.CreateFollowUp(id, followUpData.value, now);
    return Created, Some(created);
  }

  /** PATCH /api/follow-ups/:id: the body's date is converted only when truthy, then validated; 400
      when validation fails, 404 for an unknown id, else 200 and the merged follow-up. A body
      without `scheduledDate` leaves the stored date as it was. */
  method PatchFollowUpRoute(store: MemStorage, id: Id, body: Obj, toDate: Option<Value> -> JsDate,
                            parse: Obj -> Parsed<FollowUpPatch>, now: Time)
    returns (status: Status, followUp: Option<FollowUp>)
    requires store.Valid()
    modifies store
    ensures store.Valid()
    ensures status == BadRequest <==> parse(PatchFollowUpBody(body, toDate)).ZodError?
    ensures status == NotFound <==> parse(PatchFollowUpBody(body, toDate)).Parsed? && id !in old(store.followUps.rows)
    ensures status == Ok <==> parse(PatchFollowUpBody(body, toDate)).Parsed? && id in old(store.followUps.rows)
    ensures status != Ok ==> followUp.None? && store.followUps == old(store.followUps)
    ensures status == Ok ==>
              && id in old(store.followUps.rows)
              && followUp == Some(MergeFollowUp(old(store.followUps.rows[id]), parse(PatchFollowUpBody(body, toDate)).value, now))
              && store.followUps == old(store.followUps).Set(id, followUp.value)
    ensures status == Ok && Get(body, "scheduledDate").None? && KeepsAbsentDate(parse) ==>
              followUp.value.scheduledDate == old(store.followUps.rows[id].scheduledDate)
    ensures store.clients == old(store.clients) && store.metrics == old(store.metrics)
    ensures store.apiIntegrations == old(store.apiIntegrations)
  {
    var normalized := PatchFollowUpBody(body, toDate);
    var updateData := parse(normalized);
    if updateData.ZodError? {
      return BadRequest, None;
    }
    PatchFollowUpBodyProps(body, toDate, "scheduledDate");
    followUp := store.UpdateFollowUp(id, updateData.value, now);
    status := FoundStatus(followUp);
  }

  /** DELETE /api/follow-ups/:id: 204 when the follow-up was removed, 404 when there was none. */
  method DeleteFollowUpRoute(store: MemStorage, id: Id) returns (status: Status)
    requires store.Valid()
    modifies store
    ensures store.Valid()
    ensures status == (if id in old(store.followUps.rows) then NoContent else NotFound)
    ensures id !in store.followUps.rows
    ensures store.followUps == old(store.followUps).Delete(id).0
    ensures store.clients == old(store.clients) && store.metrics == old(store.metrics)
    ensures store.apiIntegrations == old(store.apiIntegrations)
  {
    var deleted := store.DeleteFollowUp(id);
    status := DeletedStatus(deleted);
  }

  /** POST /api/integrations: 400 and no change when validation fails, else 201 and the stored
      integration. */
  method PostIntegrationRoute(store: MemStorage, body: Obj, parse: Obj -> Parsed<InsertApiIntegration>,
                              id: Id, now: Time)
    returns (status: Status, integration: Option<ApiIntegration>)
    requires store.Valid()
    modifies store
    ensures store.Valid()
    ensures status == CreateStatus(parse(body))
    ensures parse(body).ZodError? ==> integration.None? && store.apiIntegrations == old(store.apiIntegrations)
    ensures parse(body).Parsed? ==>
              && integration == Some(NewApiIntegration(id, parse(body).value, now))
              && store.apiIntegrations == old(store.apiIntegrations).Set(id, integration.value)
    ensures store.clients == old(store.clients) && store.followUps == old(store.followUps)
    ensures store.metrics == old(store.metrics)
  {
    var integrationData := parse(body);
    if integrationData.ZodError? {
      return BadRequest, None;
    }
    var created := store.CreateApiIntegration(id, integrationData.value, now);
    return Created, Some(created);
  }

  /** PATCH /api/integrations/:id: 400 when validation fails, 404 for an unknown id, else 200 and
      the merged integration. */
  method PatchIntegrationRoute(store: MemStorage, id: Id, body: Obj, parse: Obj -> Parsed<ApiIntegrationPatch>)
    returns (status: Status, integration: Option<ApiIntegration>)
    requires store.Valid()
    modifies store
    ensures store.Valid()
    ensures status == BadRequest <==> parse(body).ZodError?
    ensures status == NotFound <==> parse(body).Parsed? && id !in old(store.apiIntegrations.rows)
    ensures status == Ok <==> parse(body).Parsed? && id in old(store.apiIntegrations.rows)
    ensures status != Ok ==> integration.None? && store.apiIntegrations == old(store.apiIntegrations)
    ensures status == Ok ==>
              && id in old(store.apiIntegrations.rows)
              && integration == Some(MergeApiIntegration(old(store.apiIntegrations.rows[id]), parse(body).value))
              && store.apiIntegrations == old(store.apiIntegrations).Set(id, integration.value)
    ensures store.clients == old(store.clients) && store.followUps == old(store.followUps)
    ensures store.metrics == old(store.metrics)
  {
    var updateData := parse(body);
    if updateData.ZodError? {
      return BadRequest, None;
    }
    integration := store.UpdateApiIntegration(id, updateData.value);
    status := FoundStatus(integration);
  }
}
