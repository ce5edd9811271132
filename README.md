# CRM dashboard store and API decisions, in Dafny

The backend of a financial-advisor CRM dashboard keeps four collections in memory: clients, their
follow-ups, metric snapshots, and API integrations. Each is an ECMAScript `Map` from a generated
id to a record. `MemStorage` offers create, read, partial update by spread-merge, and delete, plus
three derived queries:
- the follow-ups of one client;
- the upcoming follow-ups, meaning pending ones scheduled after now, sorted by date;
- the latest metric snapshot, and the snapshots within a date range.

The HTTP layer validates request bodies and answers with a status:
- 201 for a create;
- 200 for a read or an update;
- 204 for a delete;
- 400 for a validation error, a missing range bound or an unknown export type;
- 404 for an unknown id.

It also exports clients or follow-ups as CSV.

The model has these modules:

- `Wrappers`: `Option`, and `Nullable` for JSON `null`.
- `Js`: the JavaScript semantics the code relies on:
  - Dates that may be Invalid, compared the way JavaScript compares them;
  - plain objects as ordered property lists, with object spread `{...a, ...b}`;
  - truthiness.
- `JsMap`: the `Map` as `Table(order, rows)`. `values()` follows insertion order. `set` on a known key replaces in place. `delete` reports whether the key was there.
- `Sequences`: `Array.prototype.filter`, and `Array.prototype.sort` with an integer-key comparator. The sort is modelled as a stable insertion sort, as the ECMAScript specification requires of `sort` since ES2019.
- `Schema`: the four record types, their insert payloads and partial patches. It also holds the records that a create and an update build, each proved equal, property by property, to the JavaScript spread the source writes.
- `Storage`: the class `MemStorage`, with its four Map fields updated in place by its methods.
- `Csv`: `generateCSV`, a reader for the same format, and the proof that reading a generated document gives back the header and every cell.
- `Routes`: the status decisions and the follow-up date normalisation. It also covers the metrics-range parameter check, the export dispatch, and one handler method per mutating route.

Some parts of the outside world are parameters:
- `randomUUID()` is the `id` parameter of every create;
- `new Date()` is the `now` parameter;
- `new Date(x)` applied to request text is a `toDate` function;
- `Date.prototype.toString`, which depends on the time zone, is a `dateText` function;
- the zod `schema.parse` is a `parse` function returning the payload or a `ZodError`.

The schema declarations and their column comments suggest more than the store code does. The model follows the store code:

- The store fills in no defaults. A created client has no `status` unless the payload has one, and a follow-up has no `status` or `priority`. The defaults live in the database column declarations, which the in-memory store never uses. The record types therefore have these fields optional.
- No field is checked against an enumeration. `status`, `type` and `priority` are plain text columns, so validation accepts any string there.
- Deleting a client leaves its follow-ups in place. The column declaration asks for a cascade, but `MemStorage` does not perform one: `DeleteClient` and `DeleteClientRoute` promise that `followUps` is unchanged.
- `updatedAt` is set to the current clock reading. Nothing makes it strictly later than the previous value.
- Client emails need not be distinct. The column declaration marks `email` unique (shared/schema.ts:9), but that is a database constraint: neither the validation schema nor `createClient` checks it, so the model accepts a second client with the same email.

## Model

| member | source | states |
|---|---|---|
| Js.After | server/storage.ts:252 | `a > b` on Dates holds only when both are valid, and then `a >= b` holds and `a <= b` does not |
| Js.AtOrAfter | server/storage.ts:293 | `a >= b` holds exactly when `b <= a` |
| Js.AtOrBefore | server/storage.ts:293 | `a <= b` holds only when both Dates are valid |
| Js.InvalidDateComparesFalse | server/storage.ts:291-295 | every `<`, `>`, `<=` or `>=` comparison involving an Invalid Date is false |
| Js.Keys | server/routes.ts:247 | `Object.keys` lists one name per property, in property order |
| Js.Get | server/routes.ts:252 | `row[header]` is undefined exactly when the object has no such property, and otherwise one of its property values under that name |
| Js.Assign | server/storage.ts:225-229 | after assigning k, reading k gives the new value and every other property reads as before |
| Js.Spread | server/storage.ts:211-216 | `{...a, ...b}` has exactly the property names of a and of b |
| Js.Truthy | server/routes.ts:119 | `undefined` and `null` are falsy; Dates and objects are truthy |
| Js.GetSpread | server/storage.ts:225-229 | a property of `{...a, ...b}` is b's when b has it, otherwise a's |
| Js.GetProps | shared/schema.ts:6-18 | an object literal built from a list of column names has exactly the present properties among those names |
| Js.GetAppend | server/storage.ts:211-216 | reading a property from two property lists laid end to end finds the first list's value first |
| JsMap.Table.Get | server/storage.ts:205-207 | `map.get(k)` is present exactly when k is a key, and then holds that key's entry |
| JsMap.Table.Values | server/storage.ts:201-203 | `Array.from(map.values())` lists the entry of each key, in insertion order |
| JsMap.Table.Set | server/storage.ts:217 | `map.set` keeps the map well formed and updates the entry; a new key is appended to `values()`, and a known key is replaced at its position |
| JsMap.Table.Delete | server/storage.ts:234-236 | `map.delete(k)` returns whether k was present, and removes exactly k from the entries and from the key order |
| JsMap.Without | server/storage.ts:235 | the key order after a delete holds every other key, still without repeats |
| JsMap.WithoutIsFilter | server/storage.ts:235 | a delete filters the key out of the key order, so the remaining keys keep their relative order |
| JsMap.EmptyTable | server/storage.ts:38-41 | a new Map is well formed and has no entries and no values |
| JsMap.ValuesAreEntries | server/storage.ts:201-203 | a value is listed by `values()` exactly when it is the entry of some key |
| JsMap.GetAfterSet | server/storage.ts:217 | after `set(k, v)`, `get(k)` is v and every other key reads as before |
| JsMap.DeleteTwice | server/storage.ts:234-236 | a second delete of the same id returns false and changes nothing |
| Sequences.Filter | server/storage.ts:244-246 | filter keeps only elements of the input that satisfy the predicate |
| Sequences.FilterCount | server/storage.ts:244-246 | filter keeps every element that satisfies the predicate, as many times as it occurs, and no other element |
| Sequences.FilterMembership | server/storage.ts:292-294 | an element is in the result exactly when it is in the input and satisfies the predicate |
| Sequences.FilterAppend | server/storage.ts:292-294 | filter distributes over concatenation, so it keeps the input order |
| Sequences.FilterPositions | server/storage.ts:244-246 | each kept element sits at a position of the input, and the positions increase |
| Sequences.FilterKeepsOrder | server/storage.ts:244-246 | two kept elements appear in the input in the same order |
| Sequences.Insert | server/storage.ts:253 | inserting into a sorted sequence gives a sorted permutation with one more element |
| Sequences.SortBy | server/storage.ts:253 | `sort((a, b) => key(a) - key(b))` gives a sequence sorted by key that is a permutation of the input |
| Sequences.SortByHead | server/storage.ts:288 | the first element after the stable sort is the earliest element with the least key |
| Schema.ClientObject | shared/schema.ts:6-18 | the client's properties as a JavaScript object: each column present in the record, and no duplicated name |
| Schema.InsertClientObject | shared/schema.ts:54-62 | the insert payload's properties: the columns other than id and the timestamps |
| Schema.ClientPatchObject | server/storage.ts:221 | the partial payload's properties: exactly the fields it carries |
| Schema.NewClient | server/storage.ts:209-219 | a created client has the new id, and both timestamps are now |
| Schema.NewClientIsSpread | server/storage.ts:211-216 | every property of the created client equals that property of `{...insertClient, id, createdAt, updatedAt}` |
| Schema.MergeClient | server/storage.ts:225-229 | an update keeps id and createdAt, and sets updatedAt to now |
| Schema.MergeClientIsSpread | server/storage.ts:225-229 | every property of the updated client equals that property of `{...client, ...updateData, updatedAt}` |
| Schema.MergeClientProp | server/storage.ts:225-229 | the patch's properties win, updatedAt is now, and every other property keeps its old value |
| Schema.MergeEmptyClientPatch | server/storage.ts:221-232 | an empty patch changes only updatedAt |
| Schema.MergeClientTwice | server/storage.ts:221-232 | two updates in a row equal one update with the composed patch, and repeating an update is idempotent apart from updatedAt |
| Schema.FollowUpObject | shared/schema.ts:20-31 | the follow-up's properties as a JavaScript object, with no duplicated name |
| Schema.InsertFollowUpObject | shared/schema.ts:64-73 | the follow-up insert payload's properties |
| Schema.FollowUpPatchObject | server/storage.ts:268 | the follow-up patch's properties: exactly the fields it carries |
| Schema.NewFollowUp | server/storage.ts:256-266 | a created follow-up has the new id, and both timestamps are now |
| Schema.NewFollowUpIsSpread | server/storage.ts:258-263 | every property equals that of `{...insertFollowUp, id, createdAt, updatedAt}` |
| Schema.MergeFollowUp | server/storage.ts:272-276 | an update keeps id and createdAt, and sets updatedAt to now |
| Schema.MergeFollowUpIsSpread | server/storage.ts:272-276 | every property equals that of `{...followUp, ...updateData, updatedAt}` |
| Schema.MergeFollowUpKeeps | server/storage.ts:268-279 | an empty patch changes only updatedAt, and a patch without scheduledDate keeps the scheduled date |
| Schema.NewMetric | server/storage.ts:297-305 | a created metric has the new id, and its other fields are exactly the payload's (no timestamp is added) |
| Schema.ApiIntegrationObject | shared/schema.ts:43-52 | the integration's properties as a JavaScript object, with no duplicated name |
| Schema.InsertApiIntegrationObject | shared/schema.ts:79-84 | the integration insert payload's properties |
| Schema.ApiIntegrationPatchObject | server/storage.ts:323 | the integration patch's properties: exactly the fields it carries |
| Schema.NewApiIntegration | server/storage.ts:312-321 | a created integration has the new id and createdAt now, and has no updatedAt |
| Schema.NewApiIntegrationIsSpread | server/storage.ts:314-318 | every property equals that of `{...insertIntegration, id, createdAt}` |
| Schema.MergeApiIntegration | server/storage.ts:327-330 | an update keeps id and createdAt, and touches no timestamp |
| Schema.MergeApiIntegrationIsSpread | server/storage.ts:327-330 | every property equals that of `{...integration, ...updateData}` |
| Schema.MergeEmptyApiIntegrationPatch | server/storage.ts:323-333 | an empty patch leaves the integration exactly as it was |
| Storage.LoadAll | server/storage.ts:91 | setting records one by one keeps the Map well formed and each record filed under its own id |
| Storage.LoadAllKeys | server/storage.ts:91 | after loading, the keys are the old keys plus the records' ids |
| Storage.LoadAllDistinct | server/storage.ts:145 | loading records with distinct ids into a new Map lists exactly those records, in order |
| Storage.Load | server/storage.ts:197 | the `forEach(r => map.set(r.id, r))` loop builds the Map that setting the records one by one gives |
| Storage.MemStorage.constructor | server/storage.ts:37-45 | the store starts with each collection loaded from its sample records |
| Storage.MemStorage.GetClients | server/storage.ts:201-203 | every stored client, once per id, in insertion order, and nothing else |
| Storage.MemStorage.GetClient | server/storage.ts:205-207 | the client stored under the id, or absent when there is none |
| Storage.MemStorage.CreateClient | server/storage.ts:209-219 | the new client is stored under the new id and returned; a fresh id is appended to the list; other ids and other collections are unchanged |
| Storage.MemStorage.UpdateClient | server/storage.ts:221-232 | an unknown id gives absent and no change; a known one gives the merged client, stored in place with the list order unchanged |
| Storage.MemStorage.DeleteClient | server/storage.ts:234-236 | returns whether the id was stored; afterwards it is not, and everything else is unchanged (follow-ups included) |
| Storage.MemStorage.GetFollowUps | server/storage.ts:239-241 | every stored follow-up, once per id, in insertion order |
| Storage.MemStorage.FollowUpAt | server/storage.ts:269 | the follow-up stored under the id, or absent |
| Storage.OfClientFilter | server/storage.ts:244-246 | filtering by clientId keeps exactly that client's follow-ups, as often as given, in their given order |
| Storage.MemStorage.GetFollowUpsByClient | server/storage.ts:243-247 | exactly the stored follow-ups with that clientId, each as often as stored, in insertion order |
| Storage.IsUpcoming | server/storage.ts:252 | a follow-up is upcoming exactly when it is pending and has a valid date strictly after now; an Invalid Date is never upcoming |
| Storage.ScheduledMs | server/storage.ts:253 | `getTime()` of a valid scheduled date is its time value |
| Storage.MemStorage.GetUpcomingFollowUps | server/storage.ts:249-254 | exactly the pending follow-ups scheduled strictly after now, each as often as stored, in non-decreasing order of valid scheduled dates |
| Storage.UpcomingPairInOrder | server/storage.ts:253 | in the sorted result, two upcoming follow-ups have valid dates in order |
| Storage.SortedUpcoming | server/storage.ts:251-253 | sorting the filtered follow-ups keeps them upcoming and orders them by date |
| Storage.UpcomingExample | server/storage.ts:249-254 | of a pending follow-up one hour ahead, a pending one an hour past and a completed one two hours ahead, only the first is upcoming |
| Storage.MemStorage.CreateFollowUp | server/storage.ts:256-266 | the new follow-up is stored under the new id and returned; everything else is unchanged |
| Storage.MemStorage.UpdateFollowUp | server/storage.ts:268-279 | an unknown id gives absent and no change; a known one gives the merged follow-up, stored in place |
| Storage.MemStorage.DeleteFollowUp | server/storage.ts:281-283 | returns whether the id was stored; afterwards it is not, and everything else is unchanged |
| Storage.MemStorage.AllMetrics | server/storage.ts:287 | every stored metric, once per id, in insertion order |
| Storage.MemStorage.GetLatestMetrics | server/storage.ts:286-289 | absent exactly when no metric is stored; otherwise a stored metric with the greatest date, the first stored among ties |
| Storage.LatestIsEarliestNewest | server/storage.ts:288 | the head of the stable sort by the newest-first key `NewestFirst` has the greatest date and is the first stored with it |
| Storage.LatestExample | server/storage.ts:286-289 | of two metrics, the one with the later date is the latest |
| Storage.InRange | server/storage.ts:293 | a metric is in range exactly when both bounds are valid and its date lies between them, inclusive; nothing is in range of an Invalid Date |
| Storage.WithinFilter | server/storage.ts:292-294 | filtering by the range keeps exactly the metrics in range, as often as given, in their given order |
| Storage.MemStorage.GetMetricsByDateRange | server/storage.ts:291-295 | exactly the metrics dated between both bounds, inclusive, each as often as stored, in insertion order; nothing when a bound is an Invalid Date |
| Storage.MemStorage.CreateMetric | server/storage.ts:297-305 | the new metric is stored under the new id; everything else is unchanged |
| Storage.MemStorage.GetApiIntegrations | server/storage.ts:308-310 | every stored integration, once per id, in insertion order |
| Storage.MemStorage.CreateApiIntegration | server/storage.ts:312-321 | the new integration is stored under the new id and returned; everything else is unchanged |
| Storage.MemStorage.UpdateApiIntegration | server/storage.ts:323-333 | an unknown id gives absent and no change; a known one gives the merged integration, stored in place |
| Csv.Join | server/routes.ts:248 | joining no parts gives "", and joining one part gives that part |
| Csv.Escape | server/routes.ts:254 | escaping never shortens a string; the round trip below is its inverse |
| Csv.IntText | server/routes.ts:256 | a number is written as an optional minus sign and digits, whose decimal value is the number |
| Csv.NatText | server/routes.ts:256 | a natural number is written as a non-empty string of digits whose decimal value is the number |
| Csv.ValueText | server/routes.ts:252-257 | what `join` writes for a cell value: nothing for undefined and null, the decimal text of a number, a string's own text |
| Csv.CellText | server/routes.ts:253-256 | a string cell is wrapped in quotes; any other cell is written as `join` writes its value |
| Csv.CellTextReadsBack | server/routes.ts:254 | reading the text after the opening quote of a string cell gives back the string and nothing left over |
| Csv.CellTexts | server/routes.ts:251-257 | one cell per header, each being that header's value of the row, written as `join` would write it |
| Csv.RowLines | server/routes.ts:250-258 | one line per record, holding its cells joined by commas |
| Csv.GenerateCsv | server/routes.ts:244-261 | the document is empty exactly when there are no records |
| Csv.HeaderLine | server/routes.ts:247-260 | the document is the first record's property names joined by commas, a line break, then the data lines |
| Csv.CellField | server/routes.ts:253-256 | a cell is quoted exactly when its value is a string, and it then carries that string |
| Csv.ReadQuoted | server/routes.ts:254 | the reader of a quoted field leaves a strictly shorter rest |
| Csv.ReadQuotedSuffix | server/routes.ts:254 | the rest left by the reader of a quoted field is a suffix of its input |
| Csv.ReadBare | server/routes.ts:256 | the reader of a bare field splits its input into the field and the rest |
| Csv.ReadQuotedEscape | server/routes.ts:254 | reading an escaped string and its closing quote gives back the string |
| Csv.ReadBarePlain | server/routes.ts:256 | reading a plain text gives back the text |
| Csv.ReadRecordRender | server/routes.ts:257 | reading a written line gives back its fields |
| Csv.ReadRecordsRender | server/routes.ts:260 | reading written lines gives back every line's fields |
| Csv.ReadableWhen | server/routes.ts:247-256 | a document is readable when its header names need no quoting and the text of a Date never does |
| Csv.CsvRoundTrip | server/routes.ts:244-261 | reading a generated document gives back the header and, for each record, every header's value (strings exactly) |
| Csv.CsvShape | server/routes.ts:244-261 | a generated document has a header line plus one line per record, each with as many cells as the header has names |
| Csv.QuotedRowExample | server/routes.ts:250-258 | a record with name `Ann "A"` and age 42 becomes `"Ann ""A""",42` |
| Csv.EscapeExample | server/routes.ts:254 | every quote inside the string is doubled |
| Csv.NameCellExample | server/routes.ts:253-255 | the string `Ann "A"` becomes the cell `"Ann ""A"""` |
| Csv.AgeCellExample | server/routes.ts:256 | the number 42 becomes the cell `42` |
| Routes.Code | server/routes.ts:22 | OK is 200, Created 201, No Content 204, Bad Request 400 and Not Found 404, and no two statuses share a code |
| Routes.FoundStatus | server/routes.ts:20-24 | status code 404 exactly when the record is absent, otherwise 200 |
| Routes.DeletedStatus | server/routes.ts:61-65 | status code 204 exactly when something was deleted, otherwise 404 |
| Routes.CreateStatus | server/routes.ts:30-40 | status code 400 exactly when validation throws, otherwise 201 |
| Routes.PostFollowUpBody | server/routes.ts:101-104 | the POST body's scheduledDate is the Date made from the scheduledDate sent |
| Routes.PatchFollowUpBody | server/routes.ts:117-120 | the PATCH body's scheduledDate is the converted date when the one sent is truthy; otherwise the body is exactly as sent |
| Routes.PostFollowUpBodyProps | server/routes.ts:101-104 | the POST body always holds a converted scheduledDate; every other property is as sent |
| Routes.PatchFollowUpBodyProps | server/routes.ts:117-120 | the PATCH body's scheduledDate is converted only when truthy; otherwise every property is as sent, so an absent date stays absent |
| Routes.Missing | server/routes.ts:162 | a query bound is missing exactly when its value is falsy |
| Routes.MetricsRangeRoute | server/routes.ts:159-174 | 400 exactly when a bound is missing or empty, otherwise 200 with the store's range query on both converted bounds |
| Routes.ExportTypeOf | server/routes.ts:220-234 | "clients" and "follow-ups" are the only export types |
| Routes.ClientObjects | server/routes.ts:221-222 | the clients handed to the CSV generator, one object each, in order, each with its own id |
| Routes.FollowUpObjects | server/routes.ts:227-228 | the follow-ups handed to the CSV generator, one object each, in order, each with its own id |
| Routes.ExportData | server/routes.ts:220-231 | the records exported for a type: one object per stored client or follow-up, carrying the ids in insertion order |
| Routes.ClientExportIds | server/routes.ts:221-222 | the listed clients carry the stored ids in insertion order |
| Routes.FollowUpExportIds | server/routes.ts:227-228 | the listed follow-ups carry the stored ids in insertion order |
| Routes.ExportRoute | server/routes.ts:216-238 | 400 exactly for an unknown type; otherwise 200 with the CSV of all clients or of all follow-ups |
| Routes.ClientObjectKeys | server/routes.ts:247 | a client's property names are non-empty and need no quoting |
| Routes.FollowUpObjectKeys | server/routes.ts:247 | a follow-up's property names are non-empty and need no quoting |
| Routes.ExportRoundTrip | server/routes.ts:216-261 | an export reads back as the header plus every record's values, provided the text of a Date has no comma, quote or line break |
| Routes.GetClientRoute | server/routes.ts:18-28 | 404 exactly for an unknown id, 200 exactly for a known one, with the stored client |
| Routes.GetMetricsRoute | server/routes.ts:147-157 | 404 exactly when no metric is stored, 200 exactly when one is, with a stored metric of the greatest date |
| Routes.PostClientRoute | server/routes.ts:30-41 | a validation error gives 400 and no change; otherwise 201, and the new client is stored |
| Routes.PatchClientRoute | server/routes.ts:43-57 | 400 on a validation error, 404 for an unknown id, else 200 with the merged client stored; the store changes only in the 200 case |
| Routes.DeleteClientRoute | server/routes.ts:59-69 | 204 when the client existed, 404 when not; afterwards it does not exist, and its follow-ups remain |
| Routes.PostFollowUpRoute | server/routes.ts:99-113 | validation of the date-converted body decides between 400 (no change) and 201 (new follow-up stored) |
| Routes.PatchFollowUpRoute | server/routes.ts:115-132 | 400 on a validation error, 404 for an unknown id, 200 exactly when the body validates and the id is known; a body without scheduledDate leaves the stored date as it was |
| Routes.DeleteFollowUpRoute | server/routes.ts:134-144 | 204 when the follow-up existed, 404 when not; afterwards it does not exist |
| Routes.PostIntegrationRoute | server/routes.ts:186-197 | a validation error gives 400 and no change; otherwise 201, and the new integration is stored |
| Routes.PatchIntegrationRoute | server/routes.ts:199-213 | 400 on a validation error, 404 for an unknown id, 200 exactly when the body validates and the id is known, with the merged integration stored; the store changes only in the 200 case |

## Left out

- The 500 answers for unexpected exceptions, response headers, JSON serialisation, and the Express and HTTP plumbing. The store never throws in the model.
- The plain list routes (GET clients, follow-ups, upcoming follow-ups, follow-ups by client, integrations) are not handler members. They always answer 200 with the store query, and the store queries are modelled.
- `async`/`await`: every store operation completes at once. Concurrent requests are not modelled.
- Uniqueness of `randomUUID()`: the id is a parameter. A repeated id overwrites, as `Map.set` would.
- Zod validation itself (required fields, string types, the date transform) is the `parse` parameter. The PATCH follow-up property relies on the hypothesis `KeepsAbsentDate` about it.
- Numbers are integers. The decimal columns are strings, as in the source. The floating-point text of a non-integer number in a CSV cell is not modelled.
- Csv.IntText: every digit is written. JavaScript writes an integer of magnitude 10^21 or more in exponent form (`1e+21`), and integers above 2^53 are not exact. No client or follow-up has a numeric property, so exports are unaffected.
- Csv.ValueText: writes a number through `IntText`, so the same limit applies to numeric cells.
- `Date.prototype.toString` is the `dateText` parameter, and `new Date(text)` is the `toDate` parameter.
- Routes.ExportRoundTrip: holds only when `dateText` yields text with no comma, quote or line break.
- Csv.CsvRoundTrip: holds only for documents that meet three conditions:
  - the first record has at least one property;
  - its property names need no quoting, since header names are written unquoted;
  - every non-string cell, such as the text of a Date, needs no quoting, since such cells are written unquoted.
- Property order: a record created through the API has `id` after the payload's properties. The model lists properties in column order. This only changes the column order of a CSV export whose first record was created through the API.
- The two `new Date()` readings in a create are one instant in the model.
- The contents of the sample records are constructor parameters. The source loads a single metric snapshot; the model takes a sequence.
- The `monthlyData` JSON column is modelled only in its revenue/clients shape. `configuration` is a string-to-string object.
- Arrays or objects as query parameter values of the metrics range route: only strings, absent or not, are modelled.
- `updatedAt` increasing strictly: not promised by the code, whose clock may repeat a reading.
