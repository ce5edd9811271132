/** The in-memory store behind the CRM dashboard's API: four insertion-ordered Maps from id to record
    (clients, follow-ups, metric snapshots, API integrations), with create / read / partial update /
    delete by id and the three derived follow-up and metric queries.

    `randomUUID()` is the `id` parameter of every create, and the wall clock `new Date()` is the
    `now` parameter of every operation that reads it. */
module Storage {
  import opened Wrappers
  import opened Js
  import opened JsMap
  import opened Sequences
  import opened Schema

  // ---------------------------------------------------------------------------------------------
  // Loading sample records: `records.forEach(r => map.set(r.id, r))`

  function ClientKey(c: Client): Key { c.id }
  function FollowUpKey(f: FollowUp): Key { f.id }
  function MetricKey(m: Metric): Key { m.id }
  function ApiIntegrationKey(a: ApiIntegration): Key { a.id }

  /** Every entry is filed under its own id. */
  ghost predicate KeyedBy<V>(t: Table<V>, key: V -> Key) {
    forall k | k in t.rows :: key(t.rows[k]) == k
  }

  /** The Map after setting each record of rs under its key, in order. */
  function LoadAll<V>(t: Table<V>, rs: seq<V>, key: V -> Key): (r: Table<V>)
    requires t.Valid()
    ensures r.Valid()
    ensures KeyedBy(t, key) ==> KeyedBy(r, key)
    decreases |rs|
  {
    if rs == [] then t
    else LoadAll(t, rs[..|rs| - 1], key).Set(key(rs[|rs| - 1]), rs[|rs| - 1])
  }

  /** The keys after loading are the keys before and the keys of the records. */
  lemma {:induction false} LoadAllKeys<V>(t: Table<V>, rs: seq<V>, key: V -> Key, k: Key)
    requires t.Valid()
    ensures k in LoadAll(t, rs, key).rows <==> k in t.rows || exists i | 0 <= i < |rs| :: key(rs[i]) == k
    decreases |rs|
  {
    if rs != [] {
      var prefix := rs[..|rs| - 1];
      LoadAllKeys(t, prefix, key, k);
      if exists i | 0 <= i < |rs| :: key(rs[i]) == k {
        var i :| 0 <= i < |rs| && key(rs[i]) == k;
        if i < |prefix| {
          assert key(prefix[i]) == k;
        }
      }
      if exists i | 0 <= i < |prefix| :: key(prefix[i]) == k {
        var i :| 0 <= i < |prefix| && key(prefix[i]) == k;
        assert key(rs[i]) == k;
      }
    }
  }

  /** Loading records with distinct ids into an empty Map lists exactly those records, in order. */
  lemma {:induction false} LoadAllDistinct<V>(rs: seq<V>, key: V -> Key)
    requires forall i, j | 0 <= i < j < |rs| :: key(rs[i]) != key(rs[j])
    ensures LoadAll(EmptyTable(), rs, key).Values() == rs
  {
    if rs != [] {
      var last := rs[|rs| - 1];
      var prefix := rs[..|rs| - 1];
      LoadAllDistinct(prefix, key);
      var before := LoadAll(EmptyTable(), prefix, key);
      forall i | 0 <= i < |prefix| ensures key(prefix[i]) != key(last) {
        assert prefix[i] == rs[i];
      }
      LoadAllKeys(EmptyTable(), prefix, key, key(last));
      assert key(last) !in before.rows;
      assert LoadAll(EmptyTable(), rs, key) == before.Set(key(last), last);
      assert before.Set(key(last), last).Values() == prefix + [last];
      assert prefix + [last] == rs;
    }
  }

  /** `records.forEach(r => map.set(key(r), r))` on a new Map. */
  method Load<V>(records: seq<V>, key: V -> Key) returns (t: Table<V>)
    ensures t == LoadAll(EmptyTable(), records, key)
  {
    t := EmptyTable();
    for i := 0 to |records|
      invariant t == LoadAll(EmptyTable(), records[..i], key)
    {
      assert records[..i + 1][..i] == records[..i];
      t := t.Set(key(records[i]), records[i]);
    }
    assert records[..|records|] == records;
  }

  // ---------------------------------------------------------------------------------------------
  // The filter predicates and sort keys of the queries

  /** `followUp.scheduledDate > now && followUp.status === "pending"`. */
  function IsUpcoming(f: FollowUp, now: Time): (r: bool)
    ensures r <==> f.scheduledDate.Instant? && ScheduledMs(f) > now && f.status == Some("pending")
    ensures f.scheduledDate.InvalidDate? ==> !r
  {
    After(f.scheduledDate, Instant(now)) && f.status == Some("pending")
  }

  /** `scheduledDate.getTime()`; only ever applied to upcoming follow-ups, whose date is valid. */
  function ScheduledMs(f: FollowUp): (ms: int)
    ensures f.scheduledDate.Instant? ==> ms == f.scheduledDate.ms
  {
    if f.scheduledDate.Instant? then f.scheduledDate.ms else 0
  }

  /** `followUp => followUp.clientId === clientId`. */
  function OfClient(clientId: Id): FollowUp -> bool {
    (f: FollowUp) => f.clientId == clientId
  }

  /** Filtering follow-ups by client keeps exactly that client's follow-ups, each as often as given,
      in their given order. */
  lemma OfClientFilter(all: seq<FollowUp>, clientId: Id)
    ensures forall f | f in Filter(all, OfClient(clientId)) :: f.clientId == clientId
    ensures forall f :: multiset(Filter(all, OfClient(clientId)))[f] == if f.clientId == clientId then multiset(all)[f] else 0
    ensures forall i, j | 0 <= i < j < |Filter(all, OfClient(clientId))| ::
              exists a, b | 0 <= a < b < |all| :: all[a] == Filter(all, OfClient(clientId))[i]
                                                && all[b] == Filter(all, OfClient(clientId))[j]
  {
    var r := Filter(all, OfClient(clientId));
    var idx := FilterPositions(all, OfClient(clientId));
    forall i, j | 0 <= i < j < |r| ensures exists a, b | 0 <= a < b < |all| :: all[a] == r[i] && all[b] == r[j] {
      assert all[idx[i]] == r[i] && all[idx[j]] == r[j];
    }
    forall f ensures multiset(Filter(all, OfClient(clientId)))[f] == if f.clientId == clientId then multiset(all)[f] else 0 {
      FilterCount(all, OfClient(clientId), f);
    }
  }

  /** `metric => metric.date >= startDate && metric.date <= endDate`. */
  function Within(startDate: JsDate, endDate: JsDate): Metric -> bool {
    (m: Metric) => InRange(m, startDate, endDate)
  }

  /** Filtering metrics by a date range keeps exactly those in range, each as often as given, in
      their given order. */
  lemma WithinFilter(all: seq<Metric>, startDate: JsDate, endDate: JsDate)
    ensures forall m | m in Filter(all, Within(startDate, endDate)) :: InRange(m, startDate, endDate)
    ensures forall m :: multiset(Filter(all, Within(startDate, endDate)))[m]
                     == if InRange(m, startDate, endDate) then multiset(all)[m] else 0
    ensures forall i, j | 0 <= i < j < |Filter(all, Within(startDate, endDate))| ::
              exists a, b | 0 <= a < b < |all| :: all[a] == Filter(all, Within(startDate, endDate))[i]
                                                && all[b] == Filter(all, Within(startDate, endDate))[j]
  {
    var r := Filter(all, Within(startDate, endDate));
    var idx := FilterPositions(all, Within(startDate, endDate));
    forall i, j | 0 <= i < j < |r| ensures exists a, b | 0 <= a < b < |all| :: all[a] == r[i] && all[b] == r[j] {
      assert all[idx[i]] == r[i] && all[idx[j]] == r[j];
    }
    forall m ensures multiset(r)[m] == if InRange(m, startDate, endDate) then multiset(all)[m] else 0 {
      FilterCount(all, Within(startDate, endDate), m);
    }
  }

  /** Two upcoming follow-ups in a sequence sorted by scheduled time have valid dates in order. */
  lemma UpcomingPairInOrder(sorted: seq<FollowUp>, now: Time, i: int, j: int)
    requires 0 <= i < j < |sorted|
    requires forall f | f in sorted :: IsUpcoming(f, now)
    requires SortedBy(sorted, ScheduledMs)
    ensures sorted[i].scheduledDate.Instant? && sorted[j].scheduledDate.Instant?
            && sorted[i].scheduledDate.ms <= sorted[j].scheduledDate.ms
  {
    assert sorted[i] in sorted && sorted[j] in sorted;
    assert ScheduledMs(sorted[i]) <= ScheduledMs(sorted[j]);
  }

  /** A sort of upcoming follow-ups orders them by their (valid) scheduled dates. */
  lemma SortedUpcoming(kept: seq<FollowUp>, sorted: seq<FollowUp>, now: Time)
    requires forall f | f in kept :: IsUpcoming(f, now)
    requires multiset(sorted) == multiset(kept) && SortedBy(sorted, ScheduledMs)
    ensures forall f | f in sorted :: IsUpcoming(f, now)
    ensures forall i, j | 0 <= i < j < |sorted| ::
              sorted[i].scheduledDate.Instant? && sorted[j].scheduledDate.Instant?
              && sorted[i].scheduledDate.ms <= sorted[j].scheduledDate.ms
  {
    assert forall f | f in sorted :: IsUpcoming(f, now) by {
      forall f | f in sorted ensures IsUpcoming(f, now) {
        assert f in multiset(kept);
        assert f in kept;
      }
    }
    forall i, j | 0 <= i < j < |sorted|
      ensures sorted[i].scheduledDate.Instant? && sorted[j].scheduledDate.Instant?
              && sorted[i].scheduledDate.ms <= sorted[j].scheduledDate.ms
    {
      UpcomingPairInOrder(sorted, now, i, j);
    }
  }

  /** The key of `(a, b) => b.date.getTime() - a.date.getTime()`: newest first. */
  function NewestFirst(m: Metric): int { -m.date }

  /** `metric.date >= startDate && metric.date <= endDate`. */
  function InRange(m: Metric, startDate: JsDate, endDate: JsDate): (r: bool)
    ensures r <==> startDate.Instant? && endDate.Instant? && startDate.ms <= m.date <= endDate.ms
    ensures startDate.InvalidDate? || endDate.InvalidDate? ==> !r
  {
    AtOrAfter(Instant(m.date), startDate) && AtOrBefore(Instant(m.date), endDate)
  }

  /** The stable sort's head is the earliest-stored metric among those with the latest date. */
  lemma LatestIsEarliestNewest(ms: seq<Metric>)
    requires ms != []
    ensures forall m | m in ms :: m.date <= SortBy(ms, NewestFirst)[0].date
    ensures exists i | 0 <= i < |ms| :: ms[i] == SortBy(ms, NewestFirst)[0]
                                       && forall j | 0 <= j < i :: ms[j].date < ms[i].date
  {
    var i := SortByHead(ms, NewestFirst);
    forall m | m in ms ensures m.date <= ms[i].date {
      var j :| 0 <= j < |ms| && ms[j] == m;
      assert NewestFirst(ms[i]) <= NewestFirst(ms[j]);
    }
    forall j | 0 <= j < i ensures ms[j].date < ms[i].date {
      assert NewestFirst(ms[j]) > NewestFirst(ms[i]);
    }
  }

  // ---------------------------------------------------------------------------------------------
  // The store

  class MemStorage {
    var clients: Table<Client>
    var followUps: Table<FollowUp>
    var metrics: Table<Metric>
    var apiIntegrations: Table<ApiIntegration>

    /** Each Map is well formed and files every record under its own id. */
    ghost predicate Valid()
      reads this
    {
      && clients.Valid() && KeyedBy(clients, ClientKey)
      && followUps.Valid() && KeyedBy(followUps, FollowUpKey)
      && metrics.Valid() && KeyedBy(metrics, MetricKey)
      && apiIntegrations.Valid() && KeyedBy(apiIntegrations, ApiIntegrationKey)
    }

    /** `new MemStorage()`: four empty Maps, then `initializeData` sets each sample record under its
        id, collection by collection. The sample records are parameters. */
    constructor(sampleClients: seq<Client>, sampleFollowUps: seq<FollowUp>,
                sampleMetrics: seq<Metric>, sampleIntegrations: seq<ApiIntegration>)
      ensures Valid()
      ensures clients == LoadAll(EmptyTable(), sampleClients, ClientKey)
      ensures followUps == LoadAll(EmptyTable(), sampleFollowUps, FollowUpKey)
      ensures metrics == LoadAll(EmptyTable(), sampleMetrics, MetricKey)
      ensures apiIntegrations == LoadAll(EmptyTable(), sampleIntegrations, ApiIntegrationKey)
    {
      var cs := Load(sampleClients, ClientKey);
      var fs := Load(sampleFollowUps, FollowUpKey);
      var ms := Load(sampleMetrics, MetricKey);
      var ints := Load(sampleIntegrations, ApiIntegrationKey);
      clients, followUps, metrics, apiIntegrations := cs, fs, ms, ints;
    }

    // -------------------------------------------------------------------------------------------
    // Clients

    /** `getClients()`: every stored client, in insertion order, each under its own id. */
    function GetClients(): (r: seq<Client>)
      reads this
      requires Valid()
      ensures |r| == |clients.order|
      ensures forall i | 0 <= i < |r| :: clients.order[i] in clients.rows && r[i].id == clients.order[i]
      ensures forall c :: c in r <==> exists k :: k in clients.rows && clients.rows[k] == c
    {
      ValuesAreEntries(clients);
      clients.Values()
    }

    /** `getClient(id)`: the client stored under id, or absent (not an error) when there is none. */
    function GetClient(id: Id): (r: Option<Client>)
      reads this
      requires Valid()
      ensures r.None? <==> id !in clients.rows
      ensures r.Some? ==> r.value == clients.rows[id] && r.value.id == id
    {
      clients.Get(id)
    }

    /** `createClient(insertClient)`: stores the payload under the new id with both timestamps set to
        now and returns it; every other id keeps its client. */
    method CreateClient(id: Id, insertClient: InsertClient, now: Time) returns (client: Client)
      requires Valid()
      modifies this
      ensures Valid()
      ensures client == NewClient(id, insertClient, now)
      ensures clients == old(clients).Set(id, client)
      ensures GetClient(id) == Some(client)
      ensures forall k | k != id :: GetClient(k) == old(GetClient(k))
      ensures id !in old(clients.rows) ==> GetClients() == old(GetClients()) + [client]
      ensures followUps == old(followUps) && metrics == old(metrics) && apiIntegrations == old(apiIntegrations)
    {
      client := NewClient(id, insertClient, now);
      clients := clients.Set(id, client);
    }

    /** `updateClient(id, updateData)`: absent and no change for an unknown id; otherwise the client
        with the patch merged over it and `updatedAt` reset, stored in place of the old one. */
    method UpdateClient(id: Id, updateData: ClientPatch, now: Time) returns (r: Option<Client>)
      requires Valid()
      modifies this
      ensures Valid()
      ensures id !in old(clients.rows) ==> r.None? && clients == old(clients)
      ensures id in old(clients.rows) ==>
                && r == Some(MergeClient(old(clients.rows[id]), updateData, now))
                && clients == old(clients).Set(id, r.value)
                && clients.order == old(clients.order)
                && GetClient(id) == r
      ensures forall k | k != id :: GetClient(k) == old(GetClient(k))
      ensures followUps == old(followUps) && metrics == old(metrics) && apiIntegrations == old(apiIntegrations)
    {
      var client := clients.Get(id);
      if client.None? {
        return None;
      }
      var updatedClient := MergeClient(client.value, updateData, now);
      clients := clients.Set(id, updatedClient);
      r := Some(updatedClient);
    }

    /** `deleteClient(id)`: true exactly when id was stored; afterwards it is not. */
    method DeleteClient(id: Id) returns (deleted: bool)
      requires Valid()
      modifies this
      ensures Valid()
      ensures deleted == (id in old(clients.rows))
      ensures clients == old(clients).Delete(id).0
      ensures GetClient(id).None?
      ensures forall k | k != id :: GetClient(k) == old(GetClient(k))
      ensures followUps == old(followUps) && metrics == old(metrics) && apiIntegrations == old(apiIntegrations)
    {
      var (t, present) := clients.Delete(id);
      clients := t;
      deleted := present;
    }

    // -------------------------------------------------------------------------------------------
    // Follow-ups

    /** `getFollowUps()`: every stored follow-up, in insertion order. */
    function GetFollowUps(): (r: seq<FollowUp>)
      reads this
      requires Valid()
      ensures |r| == |followUps.order|
      ensures forall i | 0 <= i < |r| :: followUps.order[i] in followUps.rows && r[i].id == followUps.order[i]
      ensures forall f :: f in r <==> exists k :: k in followUps.rows && followUps.rows[k] == f
    {
      ValuesAreEntries(followUps);
      followUps.Values()
    }

    /** `getFollowUp`-by-id is not part of the API; the store's Map lookup. */
    function FollowUpAt(id: Id): (r: Option<FollowUp>)
      reads this
      requires Valid()
      ensures r.None? <==> id !in followUps.rows
      ensures r.Some? ==> r.value == followUps.rows[id] && r.value.id == id
    {
      followUps.Get(id)
    }

    /** `getFollowUpsByClient(clientId)`: exactly the follow-ups of that client, each as often as it
        is stored, in insertion order. */
    function GetFollowUpsByClient(clientId: Id): (r: seq<FollowUp>)
      reads this
      requires Valid()
      ensures forall f | f in r :: f.clientId == clientId
      ensures forall f :: multiset(r)[f] == if f.clientId == clientId then multiset(GetFollowUps())[f] else 0
      ensures forall i, j | 0 <= i < j < |r| ::
                exists a, b | 0 <= a < b < |GetFollowUps()| :: GetFollowUps()[a] == r[i] && GetFollowUps()[b] == r[j]
    {
      OfClientFilter(GetFollowUps(), clientId);
      Filter(GetFollowUps(), OfClient(clientId))
    }

    /** `getUpcomingFollowUps()`: exactly the pending follow-ups scheduled after now, each as often
        as it is stored, in non-decreasing order of scheduled date. */
    function GetUpcomingFollowUps(now: Time): (r: seq<FollowUp>)
      reads this
      requires Valid()
      ensures forall f | f in r :: IsUpcoming(f, now)
      ensures forall f :: multiset(r)[f] == if IsUpcoming(f, now) then multiset(GetFollowUps())[f] else 0
      ensures forall i, j | 0 <= i < j < |r| ::
                r[i].scheduledDate.Instant? && r[j].scheduledDate.Instant?
                && r[i].scheduledDate.ms <= r[j].scheduledDate.ms
    {
      var upcoming := (f: FollowUp) => IsUpcoming(f, now);
      var kept := Filter(GetFollowUps(), upcoming);
      var sorted := SortBy(kept, ScheduledMs);
      forall f ensures multiset(sorted)[f] == if IsUpcoming(f, now) then multiset(GetFollowUps())[f] else 0 {
        FilterCount(GetFollowUps(), upcoming, f);
      }
      SortedUpcoming(kept, sorted, now);
      sorted
    }

    /** `createFollowUp(insertFollowUp)`: stores the payload under the new id with both timestamps
        set to now. */
    method CreateFollowUp(id: Id, insertFollowUp: InsertFollowUp, now: Time) returns (followUp: FollowUp)
      requires Valid()
      modifies this
      ensures Valid()
      ensures followUp == NewFollowUp(id, insertFollowUp, now)
      ensures followUps == old(followUps).Set(id, followUp)
      ensures FollowUpAt(id) == Some(followUp)
      ensures forall k | k != id :: FollowUpAt(k) == old(FollowUpAt(k))
      ensures id !in old(followUps.rows) ==> GetFollowUps() == old(GetFollowUps()) + [followUp]
      ensures clients == old(clients) && metrics == old(metrics) && apiIntegrations == old(apiIntegrations)
    {
      followUp := NewFollowUp(id, insertFollowUp, now);
      followUps := followUps.Set(id, followUp);
    }

    /** `updateFollowUp(id, updateData)`: absent and no change for an unknown id; otherwise the
        merged follow-up with `updatedAt` reset, stored in place of the old one. */
    method UpdateFollowUp(id: Id, updateData: FollowUpPatch, now: Time) returns (r: Option<FollowUp>)
      requires Valid()
      modifies this
      ensures Valid()
      ensures id !in old(followUps.rows) ==> r.None? && followUps == old(followUps)
      ensures id in old(followUps.rows) ==>
                && r == Some(MergeFollowUp(old(followUps.rows[id]), updateData, now))
                && followUps == old(followUps).Set(id, r.value)
                && followUps.order == old(followUps.order)
                && FollowUpAt(id) == r
      ensures forall k | k != id :: FollowUpAt(k) == old(FollowUpAt(k))
      ensures clients == old(clients) && metrics == old(metrics) && apiIntegrations == old(apiIntegrations)
    {
      var followUp := followUps.Get(id);
      if followUp.None? {
        return None;
      }
      var updatedFollowUp := MergeFollowUp(followUp.value, updateData, now);
      followUps := followUps.Set(id, updatedFollowUp);
      r := Some(updatedFollowUp);
    }

    /** `deleteFollowUp(id)`: true exactly when id was stored; afterwards it is not. */
    method DeleteFollowUp(id: Id) returns (deleted: bool)
      requires Valid()
      modifies this
      ensures Valid()
      ensures deleted == (id in old(followUps.rows))
      ensures followUps == old(followUps).Delete(id).0
      ensures FollowUpAt(id).None?
      ensures forall k | k != id :: FollowUpAt(k) == old(FollowUpAt(k))
      ensures clients == old(clients) && metrics == old(metrics) && apiIntegrations == old(apiIntegrations)
    {
      var (t, present) := followUps.Delete(id);
      followUps := t;
      deleted := present;
    }

    // -------------------------------------------------------------------------------------------
    // Metrics

    /** `Array.from(metrics.values())`. */
    function AllMetrics(): (r: seq<Metric>)
      reads this
      requires Valid()
      ensures |r| == |metrics.order|
      ensures forall i | 0 <= i < |r| :: metrics.order[i] in metrics.rows && r[i].id == metrics.order[i]
      ensures forall m :: m in r <==> exists k :: k in metrics.rows && metrics.rows[k] == m
    {
      ValuesAreEntries(metrics);
      metrics.Values()
    }

    /** `getLatestMetrics()`: absent exactly when no metric is stored; otherwise a stored metric whose
        date is no earlier than any other's, the first stored among those with that date. */
    function GetLatestMetrics(): (r: Option<Metric>)
      reads this
      requires Valid()
      ensures r.None? <==> AllMetrics() == []
      ensures r.Some? ==> r.value in AllMetrics()
      ensures r.Some? ==> forall m | m in AllMetrics() :: m.date <= r.value.date
      ensures r.Some? ==> exists i | 0 <= i < |AllMetrics()| ::
                            AllMetrics()[i] == r.value && forall j | 0 <= j < i :: AllMetrics()[j].date < r.value.date
    {
      var allMetrics := AllMetrics();
      if allMetrics == [] then None
      else
        LatestIsEarliestNewest(allMetrics);
        var sorted := SortBy(allMetrics, NewestFirst);
        assert sorted[0] in multiset(allMetrics);
        Some(sorted[0])
    }

    /** `getMetricsByDateRange(startDate, endDate)`: exactly the metrics dated within both bounds,
        inclusive, in insertion order; nothing when either bound is an Invalid Date. */
    function GetMetricsByDateRange(startDate: JsDate, endDate: JsDate): (r: seq<Metric>)
      reads this
      requires Valid()
      ensures forall m | m in r :: startDate.Instant? && endDate.Instant? && startDate.ms <= m.date <= endDate.ms
      ensures forall m :: multiset(r)[m] == if InRange(m, startDate, endDate) then multiset(AllMetrics())[m] else 0
      ensures forall i, j | 0 <= i < j < |r| ::
                exists a, b | 0 <= a < b < |AllMetrics()| :: AllMetrics()[a] == r[i] && AllMetrics()[b] == r[j]
    {
      WithinFilter(AllMetrics(), startDate, endDate);
      Filter(AllMetrics(), Within(startDate, endDate))
    }

    /** `createMetric(insertMetric)`: stores the payload under the new id; no timestamp is added. */
    method CreateMetric(id: Id, insertMetric: InsertMetric) returns (metric: Metric)
      requires Valid()
      modifies this
      ensures Valid()
      ensures metric == NewMetric(id, insertMetric)
      ensures metrics == old(metrics).Set(id, metric)
      ensures metrics.Get(id) == Some(metric)
      ensures forall k | k != id :: metrics.Get(k) == old(metrics.Get(k))
      ensures id !in old(metrics.rows) ==> AllMetrics() == old(AllMetrics()) + [metric]
      ensures clients == old(clients) && followUps == old(followUps) && apiIntegrations == old(apiIntegrations)
    {
      metric := NewMetric(id, insertMetric);
      metrics := metrics.Set(id, metric);
    }

    // -------------------------------------------------------------------------------------------
    // API integrations

    /** `getApiIntegrations()`: every stored integration, in insertion order. */
    function GetApiIntegrations(): (r: seq<ApiIntegration>)
      reads this
      requires Valid()
      ensures |r| == |apiIntegrations.order|
      ensures forall i | 0 <= i < |r| :: apiIntegrations.order[i] in apiIntegrations.rows && r[i].id == apiIntegrations.order[i]
      ensures forall a :: a in r <==> exists k :: k in apiIntegrations.rows && apiIntegrations.rows[k] == a
    {
      ValuesAreEntries(apiIntegrations);
      apiIntegrations.Values()
    }

    /** `createApiIntegration(insertIntegration)`: stores the payload under the new id with
        `createdAt` set to now. */
    method CreateApiIntegration(id: Id, insertIntegration: InsertApiIntegration, now: Time)
      returns (integration: ApiIntegration)
      requires Valid()
      modifies this
      ensures Valid()
      ensures integration == NewApiIntegration(id, insertIntegration, now)
      ensures apiIntegrations == old(apiIntegrations).Set(id, integration)
      ensures apiIntegrations.Get(id) == Some(integration)
      ensures forall k | k != id :: apiIntegrations.Get(k) == old(apiIntegrations.Get(k))
      ensures id !in old(apiIntegrations.rows) ==> GetApiIntegrations() == old(GetApiIntegrations()) + [integration]
      ensures clients == old(clients) && followUps == old(followUps) && metrics == old(metrics)
    {
      integration := NewApiIntegration(id, insertIntegration, now);
      apiIntegrations := apiIntegrations.Set(id, integration);
    }

    /** `updateApiIntegration(id, updateData)`: absent and no change for an unknown id; otherwise the
        patch merged over the integration, with no timestamp touched. */
    method UpdateApiIntegration(id: Id, updateData: ApiIntegrationPatch) returns (r: Option<ApiIntegration>)
      requires Valid()
      modifies this
      ensures Valid()
      ensures id !in old(apiIntegrations.rows) ==> r.None? && apiIntegrations == old(apiIntegrations)
      ensures id in old(apiIntegrations.rows) ==>
                && r == Some(MergeApiIntegration(old(apiIntegrations.rows[id]), updateData))
                && apiIntegrations == old(apiIntegrations).Set(id, r.value)
                && apiIntegrations.order == old(apiIntegrations.order)
                && apiIntegrations.Get(id) == r
      ensures forall k | k != id :: apiIntegrations.Get(k) == old(apiIntegrations.Get(k))
      ensures clients == old(clients) && followUps == old(followUps) && metrics == old(metrics)
    {
      var integration := apiIntegrations.Get(id);
      if integration.None? {
        return None;
      }
      var updatedIntegration := MergeApiIntegration(integration.value, updateData);
      apiIntegrations := apiIntegrations.Set(id, updatedIntegration);
      r := Some(updatedIntegration);
    }
  }

  // ---------------------------------------------------------------------------------------------
  // Worked examples

  /** Of a pending follow-up an hour ahead, a pending one an hour past and a completed one two hours
      ahead, only the first is upcoming. */
  lemma UpcomingExample(store: MemStorage, now: Time, ahead: FollowUp, past: FollowUp, done: FollowUp)
    requires store.Valid() && store.GetFollowUps() == [ahead, past, done]
    requires ahead.scheduledDate == Instant(now + 3_600_000) && ahead.status == Some("pending")
    requires past.scheduledDate == Instant(now - 3_600_000) && past.status == Some("pending")
    requires done.scheduledDate == Instant(now + 7_200_000) && done.status == Some("completed")
    ensures store.GetUpcomingFollowUps(now) == [ahead]
  {
    var r := store.GetUpcomingFollowUps(now);
    assert IsUpcoming(ahead, now) && !IsUpcoming(past, now) && !IsUpcoming(done, now);
    assert multiset(store.GetFollowUps())[ahead] == 1;
    assert multiset(r)[ahead] == 1;
    forall f | f in r ensures f == ahead {
      assert multiset(r)[f] > 0;
      assert f in multiset(store.GetFollowUps());
    }
    OnlyElement(r, ahead);
  }

  /** A sequence that holds x once and nothing else is [x]. */
  lemma OnlyElement<T>(r: seq<T>, x: T)
    requires multiset(r)[x] == 1
    requires forall y | y in r :: y == x
    ensures r == [x]
  {
    forall y ensures multiset(r)[y] == multiset{x}[y] {
      if y != x {
        assert y !in r;
      }
    }
    assert multiset(r) == multiset{x};
    assert |r| == |multiset(r)|;
    assert r[0] in r;
  }

  /** With two metrics, the one with the later date is the latest. */
  lemma LatestExample(store: MemStorage, older: Metric, newer: Metric)
    requires store.Valid() && store.AllMetrics() == [older, newer]
    requires older.date < newer.date
    ensures store.GetLatestMetrics() == Some(newer)
  {
    var r := store.GetLatestMetrics();
    assert newer in store.AllMetrics();
  }
}
