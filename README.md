# Telemetry ingestion: event normalisation and persist decision

This project models the two ingestion handlers of a small telemetry
back end and proves what they promise their callers.

- **Synchronous handler** (`ingest`, `POST /ingest`). A JSON body holds one
  reading or a list of readings. A falsy body is answered 400: one for which
  `request.json` is `None` (a JSON `null`), or `false`, `0`, `""`, `[]` or `{}`. Any other body is taken as a list: a list
  as it is, anything else as a one-element list. For each item in order, the
  handler reads `source` and `device_id`, each defaulting to `"unknown"` when
  the key is missing, and inserts one `sensor_data` row. All inserts share one
  connection, and one commit follows the last of them. The answer is 200 with
  `count` equal to the number of items. Any exception answers 500 and commits
  nothing. That includes an item that is not a dict, an unreachable store and
  a rejected insert.
- **Asynchronous handler** (`process_sensor_data`, a queue subscriber). It
  decodes the message's `data`, wraps a lone value into a list and reads the
  clock once. It builds one row per item: that timestamp, a `source_type`
  (`source`, else `type`, else `"unknown"`) and the item's JSON text. If
  there is at least one row, it submits all rows in one bulk insert. It
  returns normally only when there are no rows or the insert reports an
  empty error list. Every other outcome raises, so the transport redelivers the whole message.

Modules:

- `Wrappers` (wrappers.dfy): `Option` and `Result`.
- `Json` (json.dfy): the decoded JSON value, Python truthiness, list wrapping and `dict.get`.
- `Ingest` (ingest.dfy): the synchronous handler. `Handle` is its specification: the response
  and the rows it leaves committed. `Inserts` gives the rows the loop issues, or the first fault.
  Two classes model the relational store. `Database` holds the committed table. `Connection`
  holds the rows of the open transaction. The method `Ingest.Ingest` runs the source's loop
  against them and is proved to match `Handle`.
- `IngestProperties` (ingest_properties.dfy): the synchronous handler's promises, proved over `Handle`.
- `Pipeline` (pipeline.dfy): the asynchronous handler. `Rows` and `Process` are its
  specification. `BuildRows` (the loop) and `ProcessSensorData` are the methods proved to match them.
- `PipelineProperties` (pipeline_properties.dfy): the asynchronous handler's promises, proved over `Process`.

Outside collaborators become parameters:

- the store's reachability and the rows it accepts (`Database.online`, `Database.accepts`);
- Python's `str(item)` rendering of the payload (`repr`);
- base64/UTF-8/JSON decoding (`decode`);
- `json.dumps` (`dumps`);
- the clock reading (`now`);
- the bulk insert (`insert`), which returns the error list, or `None` when the call itself raises.

The model follows the code as written; in particular:

- `{}` and `[]` are falsy, so the synchronous handler answers them with 400.
  It does not store a record classified "unknown".
- A truthy body that is neither a list nor a dict, such as the string `"hello"`, is
  wrapped into a list. It then fails at `.get`, so the answer is 500, not 400.
- Items are never checked to be dicts up front. A non-dict item raises at `.get`:
  500 on the synchronous path, a raise on the asynchronous path.
- The classification reads `source` and then `type`. `device_type` is mentioned in a
  comment but never read.
- A key that is present wins even when its value is `null`.

## Model

| member | source | states |
|---|---|---|
| `Json.AsList` | backend_source/main.py:63 | a list is used as-is, anything else becomes a one-element list; only `[]` yields no items; a truthy body yields at least one item |
| `Ingest.Status` | backend_source/main.py:59-84 | every response is 200, 400 or 500, and 200 exactly for success |
| `Ingest.Inserts` | backend_source/main.py:65-77 | the loop gets through iff every item is a dict whose row the store accepts; then one row per item, row k built from item k; otherwise the fault names the first failing item, all items before it are clean, and the fault says whether it failed at `.get` or at the insert |
| `Ingest.Database.Connect` | backend_source/main.py:65 | a fresh connection with an empty transaction exactly when the store is reachable |
| `Ingest.Connection.Execute` | backend_source/main.py:71-77 | the insert succeeds exactly when the store accepts the row; only then is the row appended to the transaction |
| `Ingest.Connection.Commit` | backend_source/main.py:78 | the transaction's rows are appended to the table in order and the transaction is emptied |
| `Ingest.Connection.Close` | backend_source/main.py:65 | leaving the `with` block discards whatever was not committed |
| `Ingest.Ingest` | backend_source/main.py:56-84 | the answer is `Handle`'s, and the table grows by exactly the rows `Handle` commits |
| `IngestProperties.FalsyBodyRejected` | backend_source/main.py:58-60 | 400 exactly when the body is falsy, and then nothing is committed |
| `IngestProperties.FalsyBodies` | backend_source/main.py:59 | `request.json` being `None`, and null, false, 0, "", [] and {}, are falsy; "hello" and a non-empty list are not |
| `IngestProperties.RowDefaults` | backend_source/main.py:67-75 | `source` and `device_id` come from the item when the key is present (even if null), "unknown" otherwise; the payload is the item's rendering |
| `IngestProperties.SuccessCommitsEveryItemInOrder` | backend_source/main.py:63-80 | on 200 the count is the number of items and exactly one row per item is committed, in item order |
| `IngestProperties.FailureCommitsNothing` | backend_source/main.py:65-84 | a request that does not answer 200 commits no row |
| `IngestProperties.SuccessIff` | backend_source/main.py:57-84 | 200 exactly when the body is truthy, the store is reachable and every item is a dict whose row is accepted |
| `IngestProperties.NonObjectItemFails` | backend_source/main.py:66-84 | one non-dict item anywhere in the list gives 500 and commits nothing |
| `IngestProperties.TruthyScalarIsServerError` | backend_source/main.py:59-84 | a truthy body that is neither list nor dict gives 500, never 400 |
| `IngestProperties.RejectedInsertFailsWholeBatch` | backend_source/main.py:71-84 | when every item before k gets through and item k is a dict whose row the store refuses, the answer names item k and no row of the batch is committed, not even the earlier ones |
| `IngestProperties.NovaSingleObject` | simulate_complex.py:28 | the simulator's "nova" reading is committed as one row ("nova", "nova-001") with count 1 |
| `IngestProperties.VirgoBatch` | simulate_complex.py:34-38 | the simulator's three "virgo" readings (with their humidity and battery fields) are committed as three rows in list order with count 3 |
| `IngestProperties.HelloAndEmptyDict` | backend_source/main.py:59-67 | the body "hello" gives 500 (failing at `.get` on item 0); the body {} gives 400 |
| `Pipeline.Rows` | function_code/main.py:22-37 | every item is a dict iff rows are built; then one row per item, row k from item k; otherwise the index of the first non-dict item |
| `Pipeline.BuildRows` | function_code/main.py:22-37 | the loop yields `Rows`, and every row carries the one timestamp read before the loop |
| `Pipeline.ProcessSensorData` | function_code/main.py:11-51 | the handler's outcome and the inserts it submits are `Process`'s |
| `PipelineProperties.SourceTypeFallback` | function_code/main.py:29 | `source_type` is `source` if present, else `type` if present, else "unknown" |
| `PipelineProperties.SourceTypeReadsOnlySourceAndType` | function_code/main.py:27-29 | items that agree on `source` and `type` are classified alike, whatever else they hold |
| `PipelineProperties.DeviceTypeNeverConsulted` | function_code/main.py:27-29 | an item holding only `device_type` is classified "unknown" |
| `PipelineProperties.ReturnsIff` | function_code/main.py:11-51 | the handler returns exactly when `data` is present and decodes, every item is a dict, and either there are no items or the insert reports an empty error list |
| `PipelineProperties.OneBatchPerMessage` | function_code/main.py:22-41 | exactly one insert is submitted when `data` decodes to a non-empty list of dicts (or a lone dict), and none otherwise; it holds the rows built from the items, one per item in order, all sharing the timestamp, each classified from and carrying the JSON text of its own item |
| `PipelineProperties.AnyRowErrorRaises` | function_code/main.py:41-46 | any non-empty error list raises for the whole message, carrying that list |
| `PipelineProperties.EmptyListSkipsInsert` | function_code/main.py:40 | an empty list submits no insert and returns normally |
| `PipelineProperties.LoneValueWrapped` | function_code/main.py:20 | a payload that is not a list is processed as a list of itself: a dict gives exactly one row, anything else raises at item 0 |
| `PipelineProperties.DecodeFailuresRaise` | function_code/main.py:12-51 | a missing `data` key or a decode failure is raised, not swallowed, and submits nothing |
| `PipelineProperties.NovaMessage` | simulate_complex.py:28 | the simulator's "nova" reading becomes one row classified "nova" and the message is consumed |
| `PipelineProperties.EmptyDictMessage` | function_code/main.py:29 | the payload {} becomes one row classified "unknown" |
| `PipelineProperties.VirgoBatchOneRowFails` | simulate_complex.py:34-38 | the simulator's three "virgo" readings (with their humidity and battery fields) give three rows that share one timestamp, and one row error among them raises for the whole message |
| `PipelineProperties.HelloMessage` | function_code/main.py:20-29 | the payload "hello" raises at item 0 and submits nothing |

## Left out

- Store bootstrap (connection settings, engine construction, `CREATE TABLE` at start-up): configuration and I/O, not ingestion logic.
- Web routing, the health route and the server start-up: framework plumbing. The request body is an `Option` of a JSON value, where `None` stands for `request.json` evaluating to `None` (a JSON `null` body).
- A missing, non-JSON or malformed request body: on current Flask `request.json` raises for these inside the `try`, so the handler answers 500. The model starts from the decoded value and does not cover that raise.
- The payload renderings `str(item).replace(...)` and `json.dumps(item)`: Python library behaviour, kept as the opaque parameters `repr` and `dumps`.
- Base64, UTF-8 and JSON decoding of the queue message: library calls, kept as the partial function `decode`.
- The clock reading and the store's `created_at` default: clocks, so `now` is a parameter and `created_at` is not part of a row.
- Transient store failures: `online` is fixed for a `Database` and `accepts` is a fixed function of the row, so store failures are deterministic per row. A connection dropped in the middle of the loop, or a row refused only on a second attempt, cannot be expressed.
- Why the store refuses a row (for example a `source` or `device_id` longer than the 50-character columns): store behaviour. It is kept as the `accepts` predicate.
- Ingest.Connection.Commit: a failing commit is not modelled. The commit always succeeds once every insert did.
- The bulk-insert client's construction and table name: configuration. The insert is the function `insert`.
- Logging: no effect on the outcome.
- Concurrency across requests, and redelivery or duplicate delivery by the transport: these belong to the transport, not to the handlers.
- Floating-point numbers: a number is a real, and only whether it is zero matters. Rounding is not modelled.
- The order of keys in a dict: a dict is a `map`, so key order, which only affects the opaque renderings, is not modelled.
- The simulator script: a publisher with sleeps and network I/O. Its readings appear only as the concrete inputs of the scenario lemmas.
