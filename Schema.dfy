/** The four record kinds the store keeps (shared/schema.ts), the payloads that create them, the
    partial payloads that update them, and how the store builds a record from them with object
    spread. Validation happens before the store is reached and is not part of this module: a payload
    here is whatever the validator let through.

    Property states follow the JavaScript objects: a property the payload did not carry is absent
    (None); an optional nullable property may also be present and `null` (Some(Nil)). The store
    fills no defaults, so a record created without `status` has no `status` property. */
module Schema {
  import opened Wrappers
  import opened Js

  type Id = string

  // ---------------------------------------------------------------------------------------------
  // Property views shared by all record kinds

  function StrProp(s: string): Option<Value> { Some(Str(s)) }

  function TimeProp(t: Time): Option<Value> { Some(Date(Instant(t))) }

  function OptStrProp(o: Option<string>): Option<Value> {
    match o
    case None => None
    case Some(s) => Some(Str(s))
  }

  function NullableStrProp(o: Option<Nullable<string>>): Option<Value> {
    match o
    case None => None
    case Some(Nil) => Some(Null)
    case Some(NonNull(s)) => Some(Str(s))
  }

  function NullableTimeProp(o: Option<Nullable<Time>>): Option<Value> {
    match o
    case None => None
    case Some(Nil) => Some(Null)
    case Some(NonNull(t)) => Some(Date(Instant(t)))
  }

  /** One property of `{...record, ...patch}`: the patch's value when the patch carries it. */
  function Pick<T>(current: T, patch: Option<T>): T {
    if patch.Some? then patch.value else current
  }

  /** The same for a property the record itself may lack. */
  function PickOptional<T>(current: Option<T>, patch: Option<T>): Option<T> {
    if patch.Some? then patch else current
  }

  // ---------------------------------------------------------------------------------------------
  // Client

  datatype Client = Client(
    id: Id,
    name: string,
    email: string,
    phone: Option<Nullable<string>>,
    status: Option<string>,
    investmentType: string,
    portfolioValue: Option<Nullable<string>>,
    lastContact: Option<Nullable<Time>>,
    notes: Option<Nullable<string>>,
    createdAt: Time,
    updatedAt: Time)

  /** A validated create payload: the client without id and timestamps. */
  datatype InsertClient = InsertClient(
    name: string,
    email: string,
    phone: Option<Nullable<string>>,
    status: Option<string>,
    investmentType: string,
    portfolioValue: Option<Nullable<string>>,
    lastContact: Option<Nullable<Time>>,
    notes: Option<Nullable<string>>)

  /** A validated partial payload: every property optional. */
  datatype ClientPatch = ClientPatch(
    name: Option<string>,
    email: Option<string>,
    phone: Option<Nullable<string>>,
    status: Option<string>,
    investmentType: Option<string>,
    portfolioValue: Option<Nullable<string>>,
    lastContact: Option<Nullable<Time>>,
    notes: Option<Nullable<string>>)

  const EmptyClientPatch := ClientPatch(None, None, None, None, None, None, None, None)

  const ClientColumns: seq<string> :=
    ["id", "name", "email", "phone", "status", "investmentType", "portfolioValue", "lastContact",
     "notes", "createdAt", "updatedAt"]

  const InsertClientColumns: seq<string> :=
    ["name", "email", "phone", "status", "investmentType", "portfolioValue", "lastContact", "notes"]

  /** `client[k]`. */
  function ClientProp(c: Client, k: string): Option<Value> {
    match k
    case "id" => StrProp(c.id)
    case "name" => StrProp(c.name)
    case "email" => StrProp(c.email)
    case "phone" => NullableStrProp(c.phone)
    case "status" => OptStrProp(c.status)
    case "investmentType" => StrProp(c.investmentType)
    case "portfolioValue" => NullableStrProp(c.portfolioValue)
    case "lastContact" => NullableTimeProp(c.lastContact)
    case "notes" => NullableStrProp(c.notes)
    case "createdAt" => TimeProp(c.createdAt)
    case "updatedAt" => TimeProp(c.updatedAt)
    case _ => None
  }

  /** `payload[k]` for a create payload. */
  function InsertClientProp(p: InsertClient, k: string): Option<Value> {
    match k
    case "name" => StrProp(p.name)
    case "email" => StrProp(p.email)
    case "phone" => NullableStrProp(p.phone)
    case "status" => OptStrProp(p.status)
    case "investmentType" => StrProp(p.investmentType)
    case "portfolioValue" => NullableStrProp(p.portfolioValue)
    case "lastContact" => NullableTimeProp(p.lastContact)
    case "notes" => NullableStrProp(p.notes)
    case _ => None
  }

  /** `patch[k]` for a partial payload. */
  function ClientPatchProp(p: ClientPatch, k: string): Option<Value> {
    match k
    case "name" => OptStrProp(p.name)
    case "email" => OptStrProp(p.email)
    case "phone" => NullableStrProp(p.phone)
    case "status" => OptStrProp(p.status)
    case "investmentType" => OptStrProp(p.investmentType)
    case "portfolioValue" => NullableStrProp(p.portfolioValue)
    case "lastContact" => NullableTimeProp(p.lastContact)
    case "notes" => NullableStrProp(p.notes)
    case _ => None
  }

  lemma ClientPropOutside(c: Client, k: string)
    requires k !in ClientColumns
    ensures ClientProp(c, k).None?
  {
  }

  lemma InsertClientPropOutside(p: InsertClient, k: string)
    requires k !in InsertClientColumns
    ensures InsertClientProp(p, k).None?
  {
  }

  lemma ClientPatchPropOutside(p: ClientPatch, k: string)
    requires k !in InsertClientColumns
    ensures ClientPatchProp(p, k).None?
  {
  }

  /** The client as a JavaScript object: its defined properties in column order. */
  function ClientObject(c: Client): (o: Obj)
    ensures forall k :: Get(o, k) == ClientProp(c, k)
    ensures Get(o, "id") == Some(Str(c.id))
    ensures DistinctKeys(o)
  {
    var view := k => ClientProp(c, k);
    forall k ensures Get(Props(ClientColumns, view), k) == ClientProp(c, k) {
      if k !in ClientColumns { ClientPropOutside(c, k); }
      GetPropsView(ClientColumns, view, k);
    }
    PropsDistinct(ClientColumns, view);
    Props(ClientColumns, view)
  }

  /** The create payload as a JavaScript object. */
  function InsertClientObject(p: InsertClient): (o: Obj)
    ensures forall k :: Get(o, k) == InsertClientProp(p, k)
    ensures DistinctKeys(o)
  {
    var view := k => InsertClientProp(p, k);
    forall k ensures Get(Props(InsertClientColumns, view), k) == InsertClientProp(p, k) {
      if k !in InsertClientColumns { InsertClientPropOutside(p, k); }
      GetPropsView(InsertClientColumns, view, k);
    }
    PropsDistinct(InsertClientColumns, view);
    Props(InsertClientColumns, view)
  }

  /** The partial payload as a JavaScript object. */
  function ClientPatchObject(p: ClientPatch): (o: Obj)
    ensures forall k :: Get(o, k) == ClientPatchProp(p, k)
    ensures DistinctKeys(o)
  {
    var view := k => ClientPatchProp(p, k);
    forall k ensures Get(Props(InsertClientColumns, view), k) == ClientPatchProp(p, k) {
      if k !in InsertClientColumns { ClientPatchPropOutside(p, k); }
      GetPropsView(InsertClientColumns, view, k);
    }
    PropsDistinct(InsertClientColumns, view);
    Props(InsertClientColumns, view)
  }

  /** The record createClient stores: `{...insertClient, id, createdAt: now, updatedAt: now}`. */
  function NewClient(id: Id, p: InsertClient, now: Time): (c: Client)
    ensures c.id == id && c.createdAt == now && c.updatedAt == now
  {
    Client(id, p.name, p.email, p.phone, p.status, p.investmentType, p.portfolioValue,
           p.lastContact, p.notes, now, now)
  }

  /** The record updateClient stores: `{...client, ...updateData, updatedAt: now}`. */
  function MergeClient(c: Client, p: ClientPatch, now: Time): (r: Client)
    ensures r.id == c.id && r.createdAt == c.createdAt && r.updatedAt == now
  {
    Client(c.id, Pick(c.name, p.name), Pick(c.email, p.email), PickOptional(c.phone, p.phone),
           PickOptional(c.status, p.status), Pick(c.investmentType, p.investmentType),
           PickOptional(c.portfolioValue, p.portfolioValue), PickOptional(c.lastContact, p.lastContact),
           PickOptional(c.notes, p.notes), c.createdAt, now)
  }

  /** The properties a created client takes from the payload and from the stamp. */
  lemma NewClientProp(id: Id, p: InsertClient, now: Time, k: string)
    ensures ClientProp(NewClient(id, p, now), k)
         == if k == "id" then Some(Str(id))
            else if k == "createdAt" || k == "updatedAt" then Some(Date(Instant(now)))
            else InsertClientProp(p, k)
  {
  }

  /** The properties `{id, createdAt: now, updatedAt: now}` a create spreads over its payload. */
  function CreationStamp(id: Id, now: Time): Obj {
    [("id", Str(id)), ("createdAt", Date(Instant(now))), ("updatedAt", Date(Instant(now)))]
  }

  /** Reading the creation stamp: its three properties, and nothing else. */
  lemma CreationStampGet(id: Id, now: Time, k: string)
    ensures DistinctKeys(CreationStamp(id, now))
    ensures Get(CreationStamp(id, now), k)
         == if k == "id" then Some(Str(id))
            else if k == "createdAt" || k == "updatedAt" then Some(Date(Instant(now)))
            else None
  {
    var stamp := CreationStamp(id, now);
    assert stamp[1..] == [("createdAt", Date(Instant(now))), ("updatedAt", Date(Instant(now)))];
    assert stamp[1..][1..] == [("updatedAt", Date(Instant(now)))];
  }

  /** Every property of a created client is the property of the JavaScript object
      `{...insertClient, id, createdAt, updatedAt}`. */
  lemma NewClientIsSpread(id: Id, p: InsertClient, now: Time, k: string)
    ensures Get(ClientObject(NewClient(id, p, now)), k)
         == Get(Spread(InsertClientObject(p), CreationStamp(id, now)), k)
  {
    var payload := InsertClientObject(p);
    CreationStampGet(id, now, k);
    GetSpread(payload, CreationStamp(id, now), k);
    assert Get(payload, k) == InsertClientProp(p, k);
    NewClientProp(id, p, now, k);
  }

  /** The properties of an updated client: the stamp, else the patch's, else the old ones. */
  lemma MergeClientProp(c: Client, p: ClientPatch, now: Time, k: string)
    ensures ClientProp(MergeClient(c, p, now), k)
         == if k == "updatedAt" then Some(Date(Instant(now)))
            else if ClientPatchProp(p, k).Some? then ClientPatchProp(p, k)
            else ClientProp(c, k)
  {
  }

  /** Every property of an updated client is the property of the JavaScript object
      `{...client, ...updateData, updatedAt}`: a property the patch carries takes the patch's value,
      `updatedAt` takes the new time, and every other property keeps its old value (or stays
      absent). */
  lemma MergeClientIsSpread(c: Client, p: ClientPatch, now: Time, k: string)
    ensures Get(ClientObject(MergeClient(c, p, now)), k)
         == Get(Spread(Spread(ClientObject(c), ClientPatchObject(p)), [("updatedAt", Date(Instant(now)))]), k)
  {
    var stamp: Obj := [("updatedAt", Date(Instant(now)))];
    var old_ := ClientObject(c);
    var patch := ClientPatchObject(p);
    GetSpread(Spread(old_, patch), stamp, k);
    GetSpread(old_, patch, k);
    assert Get(old_, k) == ClientProp(c, k);
    assert Get(patch, k) == ClientPatchProp(p, k);
    MergeClientProp(c, p, now, k);
  }

  /** An empty patch changes nothing but `updatedAt`. */
  lemma MergeEmptyClientPatch(c: Client, now: Time)
    ensures MergeClient(c, EmptyClientPatch, now) == c.(updatedAt := now)
  {
  }

  /** `{...a, ...b}` on two patches. */
  function ThenClientPatch(a: ClientPatch, b: ClientPatch): ClientPatch {
    ClientPatch(PickOptional(a.name, b.name), PickOptional(a.email, b.email),
                PickOptional(a.phone, b.phone), PickOptional(a.status, b.status),
                PickOptional(a.investmentType, b.investmentType),
                PickOptional(a.portfolioValue, b.portfolioValue),
                PickOptional(a.lastContact, b.lastContact), PickOptional(a.notes, b.notes))
  }

  /** Two updates in a row amount to one update with the later patch spread over the earlier one;
      in particular, repeating an update changes only `updatedAt`. */
  lemma MergeClientTwice(c: Client, a: ClientPatch, b: ClientPatch, t1: Time, t2: Time)
    ensures MergeClient(MergeClient(c, a, t1), b, t2) == MergeClient(c, ThenClientPatch(a, b), t2)
    ensures MergeClient(MergeClient(c, a, t1), a, t2) == MergeClient(c, a, t2)
  {
  }

  // ---------------------------------------------------------------------------------------------
  // FollowUp

  /** `kind` is the `type` property. */
  datatype FollowUp = FollowUp(
    id: Id,
    clientId: Id,
    title: string,
    description: Option<Nullable<string>>,
    scheduledDate: JsDate,
    kind: string,
    status: Option<string>,
    priority: Option<string>,
    createdAt: Time,
    updatedAt: Time)

  datatype InsertFollowUp = InsertFollowUp(
    clientId: Id,
    title: string,
    description: Option<Nullable<string>>,
    scheduledDate: JsDate,
    kind: string,
    status: Option<string>,
    priority: Option<string>)

  datatype FollowUpPatch = FollowUpPatch(
    clientId: Option<Id>,
    title: Option<string>,
    description: Option<Nullable<string>>,
    scheduledDate: Option<JsDate>,
    kind: Option<string>,
    status: Option<string>,
    priority: Option<string>)

  const EmptyFollowUpPatch := FollowUpPatch(None, None, None, None, None, None, None)

  const FollowUpColumns: seq<string> :=
    ["id", "clientId", "title", "description", "scheduledDate", "type", "status", "priority",
     "createdAt", "updatedAt"]

  const InsertFollowUpColumns: seq<string> :=
    ["clientId", "title", "description", "scheduledDate", "type", "status", "priority"]

  function OptDateProp(o: Option<JsDate>): Option<Value> {
    match o
    case None => None
    case Some(d) => Some(Date(d))
  }

  function FollowUpProp(f: FollowUp, k: string): Option<Value> {
    match k
    case "id" => StrProp(f.id)
    case "clientId" => StrProp(f.clientId)
    case "title" => StrProp(f.title)
    case "description" => NullableStrProp(f.description)
    case "scheduledDate" => Some(Date(f.scheduledDate))
    case "type" => StrProp(f.kind)
    case "status" => OptStrProp(f.status)
    case "priority" => OptStrProp(f.priority)
    case "createdAt" => TimeProp(f.createdAt)
    case "updatedAt" => TimeProp(f.updatedAt)
    case _ => None
  }

  function InsertFollowUpProp(p: InsertFollowUp, k: string): Option<Value> {
    match k
    case "clientId" => StrProp(p.clientId)
    case "title" => StrProp(p.title)
    case "description" => NullableStrProp(p.description)
    case "scheduledDate" => Some(Date(p.scheduledDate))
    case "type" => StrProp(p.kind)
    case "status" => OptStrProp(p.status)
    case "priority" => OptStrProp(p.priority)
    case _ => None
  }

  function FollowUpPatchProp(p: FollowUpPatch, k: string): Option<Value> {
    match k
    case "clientId" => OptStrProp(p.clientId)
    case "title" => OptStrProp(p.title)
    case "description" => NullableStrProp(p.description)
    case "scheduledDate" => OptDateProp(p.scheduledDate)
    case "type" => OptStrProp(p.kind)
    case "status" => OptStrProp(p.status)
    case "priority" => OptStrProp(p.priority)
    case _ => None
  }

  lemma FollowUpPropOutside(f: FollowUp, k: string)
    requires k !in FollowUpColumns
    ensures FollowUpProp(f, k).None?
  {
  }

  lemma InsertFollowUpPropOutside(p: InsertFollowUp, k: string)
    requires k !in InsertFollowUpColumns
    ensures InsertFollowUpProp(p, k).None?
  {
  }

  lemma FollowUpPatchPropOutside(p: FollowUpPatch, k: string)
    requires k !in InsertFollowUpColumns
    ensures FollowUpPatchProp(p, k).None?
  {
  }

  /** The follow-up as a JavaScript object: its defined properties in column order. */
  function FollowUpObject(f: FollowUp): (o: Obj)
    ensures forall k :: Get(o, k) == FollowUpProp(f, k)
    ensures Get(o, "id") == Some(Str(f.id))
    ensures DistinctKeys(o)
  {
    var view := k => FollowUpProp(f, k);
    forall k ensures Get(Props(FollowUpColumns, view), k) == FollowUpProp(f, k) {
      if k !in FollowUpColumns { FollowUpPropOutside(f, k); }
      GetPropsView(FollowUpColumns, view, k);
    }
    PropsDistinct(FollowUpColumns, view);
    Props(FollowUpColumns, view)
  }

  function InsertFollowUpObject(p: InsertFollowUp): (o: Obj)
    ensures forall k :: Get(o, k) == InsertFollowUpProp(p, k)
    ensures DistinctKeys(o)
  {
    var view := k => InsertFollowUpProp(p, k);
    forall k ensures Get(Props(InsertFollowUpColumns, view), k) == InsertFollowUpProp(p, k) {
      if k !in InsertFollowUpColumns { InsertFollowUpPropOutside(p, k); }
      GetPropsView(InsertFollowUpColumns, view, k);
    }
    PropsDistinct(InsertFollowUpColumns, view);
    Props(InsertFollowUpColumns, view)
  }

  function FollowUpPatchObject(p: FollowUpPatch): (o: Obj)
    ensures forall k :: Get(o, k) == FollowUpPatchProp(p, k)
    ensures DistinctKeys(o)
  {
    var view := k => FollowUpPatchProp(p, k);
    forall k ensures Get(Props(InsertFollowUpColumns, view), k) == FollowUpPatchProp(p, k) {
      if k !in InsertFollowUpColumns { FollowUpPatchPropOutside(p, k); }
      GetPropsView(InsertFollowUpColumns, view, k);
    }
    PropsDistinct(InsertFollowUpColumns, view);
    Props(InsertFollowUpColumns, view)
  }

  /** The record createFollowUp stores: `{...insertFollowUp, id, createdAt: now, updatedAt: now}`. */
  function NewFollowUp(id: Id, p: InsertFollowUp, now: Time): (f: FollowUp)
    ensures f.id == id && f.createdAt == now && f.updatedAt == now
  {
    FollowUp(id, p.clientId, p.title, p.description, p.scheduledDate, p.kind, p.status, p.priority,
             now, now)
  }

  /** The record updateFollowUp stores: `{...followUp, ...updateData, updatedAt: now}`. */
  function MergeFollowUp(f: FollowUp, p: FollowUpPatch, now: Time): (r: FollowUp)
    ensures r.id == f.id && r.createdAt == f.createdAt && r.updatedAt == now
  {
    FollowUp(f.id, Pick(f.clientId, p.clientId), Pick(f.title, p.title),
             PickOptional(f.description, p.description), Pick(f.scheduledDate, p.scheduledDate),
             Pick(f.kind, p.kind), PickOptional(f.status, p.status),
             PickOptional(f.priority, p.priority), f.createdAt, now)
  }

  lemma NewFollowUpProp(id: Id, p: InsertFollowUp, now: Time, k: string)
    ensures FollowUpProp(NewFollowUp(id, p, now), k)
         == if k == "id" then Some(Str(id))
            else if k == "createdAt" || k == "updatedAt" then Some(Date(Instant(now)))
            else InsertFollowUpProp(p, k)
  {
  }

  /** Every property of a created follow-up is the property of the JavaScript object
      `{...insertFollowUp, id, createdAt, updatedAt}`. */
  lemma NewFollowUpIsSpread(id: Id, p: InsertFollowUp, now: Time, k: string)
    ensures Get(FollowUpObject(NewFollowUp(id, p, now)), k)
         == Get(Spread(InsertFollowUpObject(p), CreationStamp(id, now)), k)
  {
    var payload := InsertFollowUpObject(p);
    CreationStampGet(id, now, k);
    GetSpread(payload, CreationStamp(id, now), k);
    assert Get(payload, k) == InsertFollowUpProp(p, k);
    NewFollowUpProp(id, p, now, k);
  }

  lemma MergeFollowUpProp(f: FollowUp, p: FollowUpPatch, now: Time, k: string)
    ensures FollowUpProp(MergeFollowUp(f, p, now), k)
         == if k == "updatedAt" then Some(Date(Instant(now)))
            else if FollowUpPatchProp(p, k).Some? then FollowUpPatchProp(p, k)
            else FollowUpProp(f, k)
  {
  }

  /** Every property of an updated follow-up is the property of the JavaScript object
      `{...followUp, ...updateData, updatedAt}`. */
  lemma MergeFollowUpIsSpread(f: FollowUp, p: FollowUpPatch, now: Time, k: string)
    ensures Get(FollowUpObject(MergeFollowUp(f, p, now)), k)
         == Get(Spread(Spread(FollowUpObject(f), FollowUpPatchObject(p)), [("updatedAt", Date(Instant(now)))]), k)
  {
    var stamp: Obj := [("updatedAt", Date(Instant(now)))];
    var old_ := FollowUpObject(f);
    var patch := FollowUpPatchObject(p);
    GetSpread(Spread(old_, patch), stamp, k);
    GetSpread(old_, patch, k);
    assert Get(old_, k) == FollowUpProp(f, k);
    assert Get(patch, k) == FollowUpPatchProp(p, k);
    MergeFollowUpProp(f, p, now, k);
  }

  /** An empty patch changes nothing but `updatedAt`; in particular a patch without
      `scheduledDate` keeps the scheduled date. */
  lemma MergeFollowUpKeeps(f: FollowUp, p: FollowUpPatch, now: Time)
    ensures MergeFollowUp(f, EmptyFollowUpPatch, now) == f.(updatedAt := now)
    ensures p.scheduledDate.None? ==> MergeFollowUp(f, p, now).scheduledDate == f.scheduledDate
  {
  }

  // ---------------------------------------------------------------------------------------------
  // Metric

  /** The chart series of a metric snapshot (a JSON column; only this shape is modelled). */
  datatype MonthlyData = MonthlyData(revenue: seq<int>, clients: seq<int>)

  datatype Metric = Metric(
    id: Id,
    date: Time,
    totalRevenue: string,
    activeClients: int,
    conversionRate: string,
    portfolioGrowth: string,
    monthlyData: Option<Nullable<MonthlyData>>)

  datatype InsertMetric = InsertMetric(
    date: Time,
    totalRevenue: string,
    activeClients: int,
    conversionRate: string,
    portfolioGrowth: string,
    monthlyData: Option<Nullable<MonthlyData>>)

  /** The payload a metric was built from: the metric without its id. */
  function MetricPayload(m: Metric): InsertMetric {
    InsertMetric(m.date, m.totalRevenue, m.activeClients, m.conversionRate, m.portfolioGrowth, m.monthlyData)
  }

  /** The record createMetric stores: `{...insertMetric, id}`, with no timestamps. */
  function NewMetric(id: Id, p: InsertMetric): (m: Metric)
    ensures m.id == id && MetricPayload(m) == p
  {
    Metric(id, p.date, p.totalRevenue, p.activeClients, p.conversionRate, p.portfolioGrowth, p.monthlyData)
  }

  // ---------------------------------------------------------------------------------------------
  // ApiIntegration

  /** `kind` is the `type` property; `configuration` is a JSON object of strings. */
  datatype ApiIntegration = ApiIntegration(
    id: Id,
    name: string,
    kind: string,
    status: Option<string>,
    description: Option<Nullable<string>>,
    configuration: Option<Nullable<map<string, string>>>,
    lastSync: Option<Nullable<Time>>,
    createdAt: Time)

  datatype InsertApiIntegration = InsertApiIntegration(
    name: string,
    kind: string,
    status: Option<string>,
    description: Option<Nullable<string>>,
    configuration: Option<Nullable<map<string, string>>>,
    lastSync: Option<Nullable<Time>>)

  datatype ApiIntegrationPatch = ApiIntegrationPatch(
    name: Option<string>,
    kind: Option<string>,
    status: Option<string>,
    description: Option<Nullable<string>>,
    configuration: Option<Nullable<map<string, string>>>,
    lastSync: Option<Nullable<Time>>)

  const EmptyApiIntegrationPatch := ApiIntegrationPatch(None, None, None, None, None, None)

  const ApiIntegrationColumns: seq<string> :=
    ["id", "name", "type", "status", "description", "configuration", "lastSync", "createdAt"]

  const InsertApiIntegrationColumns: seq<string> :=
    ["name", "type", "status", "description", "configuration", "lastSync"]

  function NullableDictProp(o: Option<Nullable<map<string, string>>>): Option<Value> {
    match o
    case None => None
    case Some(Nil) => Some(Null)
    case Some(NonNull(m)) => Some(Dict(m))
  }

  function ApiIntegrationProp(a: ApiIntegration, k: string): Option<Value> {
    match k
    case "id" => StrProp(a.id)
    case "name" => StrProp(a.name)
    case "type" => StrProp(a.kind)
    case "status" => OptStrProp(a.status)
    case "description" => NullableStrProp(a.description)
    case "configuration" => NullableDictProp(a.configuration)
    case "lastSync" => NullableTimeProp(a.lastSync)
    case "createdAt" => TimeProp(a.createdAt)
    case _ => None
  }

  function InsertApiIntegrationProp(p: InsertApiIntegration, k: string): Option<Value> {
    match k
    case "name" => StrProp(p.name)
    case "type" => StrProp(p.kind)
    case "status" => OptStrProp(p.status)
    case "description" => NullableStrProp(p.description)
    case "configuration" => NullableDictProp(p.configuration)
    case "lastSync" => NullableTimeProp(p.lastSync)
    case _ => None
  }

  function ApiIntegrationPatchProp(p: ApiIntegrationPatch, k: string): Option<Value> {
    match k
    case "name" => OptStrProp(p.name)
    case "type" => OptStrProp(p.kind)
    case "status" => OptStrProp(p.status)
    case "description" => NullableStrProp(p.description)
    case "configuration" => NullableDictProp(p.configuration)
    case "lastSync" => NullableTimeProp(p.lastSync)
    case _ => None
  }

  lemma ApiIntegrationPropOutside(a: ApiIntegration, k: string)
    requires k !in ApiIntegrationColumns
    ensures ApiIntegrationProp(a, k).None?
  {
  }

  lemma InsertApiIntegrationPropOutside(p: InsertApiIntegration, k: string)
    requires k !in InsertApiIntegrationColumns
    ensures InsertApiIntegrationProp(p, k).None?
  {
  }

  lemma ApiIntegrationPatchPropOutside(p: ApiIntegrationPatch, k: string)
    requires k !in InsertApiIntegrationColumns
    ensures ApiIntegrationPatchProp(p, k).None?
  {
  }

  function ApiIntegrationObject(a: ApiIntegration): (o: Obj)
    ensures forall k :: Get(o, k) == ApiIntegrationProp(a, k)
    ensures DistinctKeys(o)
  {
    var view := k => ApiIntegrationProp(a, k);
    forall k ensures Get(Props(ApiIntegrationColumns, view), k) == ApiIntegrationProp(a, k) {
      if k !in ApiIntegrationColumns { ApiIntegrationPropOutside(a, k); }
      GetPropsView(ApiIntegrationColumns, view, k);
    }
    PropsDistinct(ApiIntegrationColumns, view);
    Props(ApiIntegrationColumns, view)
  }

  function InsertApiIntegrationObject(p: InsertApiIntegration): (o: Obj)
    ensures forall k :: Get(o, k) == InsertApiIntegrationProp(p, k)
    ensures DistinctKeys(o)
  {
    var view := k => InsertApiIntegrationProp(p, k);
    forall k ensures Get(Props(InsertApiIntegrationColumns, view), k) == InsertApiIntegrationProp(p, k) {
      if k !in InsertApiIntegrationColumns { InsertApiIntegrationPropOutside(p, k); }
      GetPropsView(InsertApiIntegrationColumns, view, k);
    }
    PropsDistinct(InsertApiIntegrationColumns, view);
    Props(InsertApiIntegrationColumns, view)
  }

  function ApiIntegrationPatchObject(p: ApiIntegrationPatch): (o: Obj)
    ensures forall k :: Get(o, k) == ApiIntegrationPatchProp(p, k)
    ensures DistinctKeys(o)
  {
    var view := k => ApiIntegrationPatchProp(p, k);
    forall k ensures Get(Props(InsertApiIntegrationColumns, view), k) == ApiIntegrationPatchProp(p, k) {
      if k !in InsertApiIntegrationColumns { ApiIntegrationPatchPropOutside(p, k); }
      GetPropsView(InsertApiIntegrationColumns, view, k);
    }
    PropsDistinct(InsertApiIntegrationColumns, view);
    Props(InsertApiIntegrationColumns, view)
  }

  /** The record createApiIntegration stores: `{...insertIntegration, id, createdAt: now}`. */
  function NewApiIntegration(id: Id, p: InsertApiIntegration, now: Time): (a: ApiIntegration)
    ensures a.id == id && a.createdAt == now
  {
    ApiIntegration(id, p.name, p.kind, p.status, p.description, p.configuration, p.lastSync, now)
  }

  /** The record updateApiIntegration stores: `{...integration, ...updateData}`; no timestamp is
      touched. */
  function MergeApiIntegration(a: ApiIntegration, p: ApiIntegrationPatch): (r: ApiIntegration)
    ensures r.id == a.id && r.createdAt == a.createdAt
  {
    ApiIntegration(a.id, Pick(a.name, p.name), Pick(a.kind, p.kind), PickOptional(a.status, p.status),
                   PickOptional(a.description, p.description),
                   PickOptional(a.configuration, p.configuration), PickOptional(a.lastSync, p.lastSync),
                   a.createdAt)
  }

  lemma NewApiIntegrationProp(id: Id, p: InsertApiIntegration, now: Time, k: string)
    ensures ApiIntegrationProp(NewApiIntegration(id, p, now), k)
         == if k == "id" then Some(Str(id))
            else if k == "createdAt" then Some(Date(Instant(now)))
            else InsertApiIntegrationProp(p, k)
  {
  }

  /** Reading the properties `{id, createdAt: now}`. */
  lemma IdAndCreatedGet(id: Id, now: Time, k: string)
    ensures Get([("id", Str(id)), ("createdAt", Date(Instant(now)))], k)
         == if k == "id" then Some(Str(id))
            else if k == "createdAt" then Some(Date(Instant(now)))
            else None
  {
    var stamp: Obj := [("id", Str(id)), ("createdAt", Date(Instant(now)))];
    assert stamp[1..] == [("createdAt", Date(Instant(now)))];
  }

  /** Every property of a created integration is the property of the JavaScript object
      `{...insertIntegration, id, createdAt}`. */
  lemma NewApiIntegrationIsSpread(id: Id, p: InsertApiIntegration, now: Time, k: string)
    ensures Get(ApiIntegrationObject(NewApiIntegration(id, p, now)), k)
         == Get(Spread(InsertApiIntegrationObject(p), [("id", Str(id)), ("createdAt", Date(Instant(now)))]), k)
  {
    var stamp: Obj := [("id", Str(id)), ("createdAt", Date(Instant(now)))];
    var payload := InsertApiIntegrationObject(p);
    assert Keys(stamp) == ["id", "createdAt"];
    GetSpread(payload, stamp, k);
    assert Get(payload, k) == InsertApiIntegrationProp(p, k);
    IdAndCreatedGet(id, now, k);
    NewApiIntegrationProp(id, p, now, k);
  }

  lemma MergeApiIntegrationProp(a: ApiIntegration, p: ApiIntegrationPatch, k: string)
    ensures ApiIntegrationProp(MergeApiIntegration(a, p), k)
         == if ApiIntegrationPatchProp(p, k).Some? then ApiIntegrationPatchProp(p, k)
            else ApiIntegrationProp(a, k)
  {
  }

  /** Every property of an updated integration is the property of the JavaScript object
      `{...integration, ...updateData}`: the patch's value where it has one, the old value
      otherwise; no timestamp changes. */
  lemma MergeApiIntegrationIsSpread(a: ApiIntegration, p: ApiIntegrationPatch, k: string)
    ensures Get(ApiIntegrationObject(MergeApiIntegration(a, p)), k)
         == Get(Spread(ApiIntegrationObject(a), ApiIntegrationPatchObject(p)), k)
  {
    var old_ := ApiIntegrationObject(a);
    var patch := ApiIntegrationPatchObject(p);
    GetSpread(old_, patch, k);
    assert Get(old_, k) == ApiIntegrationProp(a, k);
    assert Get(patch, k) == ApiIntegrationPatchProp(p, k);
    MergeApiIntegrationProp(a, p, k);
  }

  /** An empty patch leaves an integration exactly as it was. */
  lemma MergeEmptyApiIntegrationPatch(a: ApiIntegration)
    ensures MergeApiIntegration(a, EmptyApiIntegrationPatch) == a
  {
  }
}
