# tap-sumologic in Dafny

This project models the core of `tap-sumologic`, a Singer tap that runs queries against the Sumo Logic API and emits the results as records. The model covers four pieces of that core.

- **Schema derivation** (`tap_sumologic/tap.py`). `get_schema_for_table` builds the one-row probe query. It maps the field descriptors the API reports (name, fieldType, keyField) to an object schema: a properties map and an ordered `key_properties` list. `discover_streams` chooses where the schema comes from, validates `query_type` and picks the primary keys.
- **Job polling** (`sumologic_sdk.py`, `streams.py`). The probe loop makes at most two status fetches. The extraction loop waits without any bound for `DONE GATHERING RESULTS` or `CANCELLED`.
- **Pagination and record shaping** (`streams.py`). Result pages are fetched at advancing offsets with a limit of 10000. Every row's `map` is merged with the metadata columns, and the metadata wins on a clash.
- **Request and endpoint shaping** (`sumologic_sdk.py`). This covers:
  - the metrics request body, which drops unset optional keys;
  - the ISO time suffix;
  - the versioned endpoint;
  - the trailing-slash check;
  - cleaning the redirect URL;
  - the metrics error check.

Every network exchange is replaced by an `Api.Server` value. It holds three things:
- the URL the endpoint-discovery request was redirected to;
- a function from a submitted search job to its `SearchJob`: the finite sequence of answers to successive status fetches, and the page returned for each (query type, limit, offset);
- a function from a metrics request body to the metrics response.

`time.sleep` becomes a counter in `Api.Poll`. Each exception the code raises is an `Api.Error` value inside a `Wrappers.Result`.

Files:
- `wrappers.dfy` holds `Option` and `Result`.
- `json.dfy` holds JSON values.
- `api.dfy` holds the wire values, the server and the errors.
- `sdk.dfy` models `sumologic_sdk.py`.
- `streams.dfy` models `streams.py`.
- `tap.dfy` models `tap.py`.

Each loop of the source is a Dafny `method` with its loop invariants. Its `ensures` ties the result to a specification function:
- `PollProbe` to `ProbePolicy`;
- `PollExtraction` to `ExtractionPolicy`;
- `Paginate` to `Paginated`;
- `GetRecords` to `Extraction`;
- `BuildSearchSchema` to `SearchSchema`;
- `DiscoverStreams` to `DiscoverFrom`.

The properties are proved about those functions, as lemmas and as their own `ensures`.

Four behaviours of the code worth knowing, all kept by the model:
- The configuration describes `primary_keys` as "Additional fields to include in the primary keys" (`tap_sumologic/tap.py:97`), which reads like a union. The code takes `primary_keys or schema["key_properties"]` instead: the configured keys alone when non-empty, otherwise the schema's (`Tap.PrimaryKeys`).
- For messages, `_messagetime` and `_messageid` are added to `key_properties` but not to `properties` (`Tap.SearchSchemaKeys`, `Tap.MessagesHostScenario`).
- `get_records` builds the whole record list before it yields the first record. An error raised during pagination therefore leaves nothing yielded (`Streams.GetRecords`).
- The metrics path of `get_records` has no error check. Only the schema probe checks `errors.errors` (`Streams.MetricsErrorsNotChecked`).

## Model

| member | source | states |
|---|---|---|
| Sdk.RemoveAllKeepsClearPrefix | tap_sumologic/sumologic_sdk.py:61-63 | `str.replace` deletes nothing from a prefix that contains no occurrence of the pattern |
| Sdk.RemoveAllIdentity | tap_sumologic/sumologic_sdk.py:61-63 | a URL without `/v1/collectors` comes back unchanged |
| Sdk.DiscoveredEndpointStripsCollectors | tap_sumologic/sumologic_sdk.py:57-65 | a redirect to `<base>/v1/collectors`, where `base` holds no `/v1/collectors`, resolves to exactly `<base>` |
| Sdk.UnredirectedDiscoveryKeepsGlobalEndpoint | tap_sumologic/sumologic_sdk.py:57-63 | without a redirect, the discovered endpoint is `https://api.sumologic.com/api` |
| Sdk.DiscoveredEndpoint | tap_sumologic/sumologic_sdk.py:57-65 | the discovered endpoint is never longer than the redirect URL and uses only its characters |
| Sdk.ResolvedEndpoint | tap_sumologic/sumologic_sdk.py:34-37 | the configured endpoint is used when given; otherwise the discovered one |
| Sdk.SumoLogic.constructor | tap_sumologic/sumologic_sdk.py:25-37 | a client holds an endpoint without a trailing slash and default version `v1` |
| Sdk.SumoLogic.Connect | tap_sumologic/sumologic_sdk.py:34-39 | construction fails, with the slash error, iff the resolved endpoint's last character is `/` (so the empty endpoint is accepted); otherwise the fresh client holds the resolved endpoint |
| Sdk.SumoLogic.VersionedEndpoint | tap_sumologic/sumologic_sdk.py:67-69 | the versioned URL reads back as the endpoint, one `/`, then the version |
| Sdk.SumoLogic.RequestVersion | tap_sumologic/sumologic_sdk.py:73 | an absent or empty version means `v1`; any other version is kept |
| Sdk.SumoLogic.VersionedEndpointSingleSlash | tap_sumologic/sumologic_sdk.py:67-69 | with a valid client there is never a `//` where the endpoint meets the version |
| Sdk.IsoTime | tap_sumologic/sumologic_sdk.py:150-155 | an ISO boundary is the configured time followed by `.00+00:00` |
| Sdk.TimeRange | tap_sumologic/sumologic_sdk.py:145-157 | the time range is `BeginBoundedTimeRange`, and its `from`/`to` are ISO boundaries of the two times |
| Sdk.QueryEntry | tap_sumologic/sumologic_sdk.py:136-164 | `rowId` "A" and `query` are always present; each of quantization, rollup and timeshift is a key iff it is set, with its value; there are no other keys |
| Sdk.BuildMetricsQuery | tap_sumologic/sumologic_sdk.py:125-164 | building every key and then deleting the unset ones gives exactly the metrics body, with one query whose optional keys are present iff set |
| Sdk.ProbePolicy | tap_sumologic/sumologic_sdk.py:235-243 | at most two fetches and two sleeps; the final status is the last one fetched, and every earlier one is neither done nor cancelled; a done or cancelled first status stops the loop at once, with success after one fetch and no sleep; any other first status leads to a second fetch, whose status is the final one, after one sleep if it is done or cancelled and two otherwise; a feed of two statuses always suffices |
| Sdk.PollProbe | tap_sumologic/sumologic_sdk.py:235-243 | the probe loop computes `ProbePolicy` of the status feed |
| Sdk.SearchJobFieldsSpec | tap_sumologic/sumologic_sdk.py:227-252 | the probe returns the `fields` of the limit-1 page at offset 0 iff it ends done or gathering, and an empty list otherwise |
| Sdk.SearchJobFields | tap_sumologic/sumologic_sdk.py:216-252 | submitting the job, polling and reading the page computes `SearchJobFieldsSpec` |
| Sdk.MetricsQueryFields | tap_sumologic/sumologic_sdk.py:273-277 | raises the request error, with the response's errors, iff `errors.errors` is non-empty; otherwise returns the first query result's time series unchanged (an IndexError when there is none) |
| Sdk.SumologicFieldsSpec | tap_sumologic/sumologic_sdk.py:196-214 | records/messages take the search-job path and metrics the metrics path, each with that path's result or error; any other type gives no fields |
| Sdk.SumologicFields | tap_sumologic/sumologic_sdk.py:168-214 | the dispatch method computes `SumologicFieldsSpec` |
| Streams.CustomColumns | tap_sumologic/streams.py:73-81 | the metadata block has exactly the six columns: the window from config, `_SDC_EXTRACTED_AT` equal to `_SDC_BATCHED_AT` (the one timestamp), and `_SDC_DELETED_AT` null |
| Streams.Merge | tap_sumologic/streams.py:124 | the merged record has every key of the row and of the metadata; the metadata value wins on a clash |
| Streams.ShapeRows | tap_sumologic/streams.py:123-124 | one merged record per row of a page, in row order |
| Streams.ExtractionFrom | tap_sumologic/streams.py:95-104 | success only at a done or cancelled status, after one sleep per earlier status, all earlier ones non-terminal; every status fetched in the loop must carry `histogramBuckets` (KeyError otherwise); exhausting the feed means no status was terminal |
| Streams.ExtractionKeyErrorNeedsMissingHistogram | tap_sumologic/streams.py:95-104 | the `histogramBuckets` KeyError is raised only when some status fetched inside the loop, after only non-terminal ones, lacks the histogram |
| Streams.ExtractionPolicyExits | tap_sumologic/streams.py:95-101 | extraction polling exits only at the first done or cancelled status, and has no bound of its own |
| Streams.ExtractionReachesFirstTerminal | tap_sumologic/streams.py:95-104 | a feed that reaches a terminal status, with histograms on the statuses fetched in the loop, ends exactly at the first terminal status |
| Streams.PollExtraction | tap_sumologic/streams.py:95-106 | the polling loop computes `ExtractionPolicy` of the status feed |
| Streams.CountKey | tap_sumologic/streams.py:109 | the count key is the query type without its last character, followed by `Count` |
| Streams.CountKeysOfSearchTypes | tap_sumologic/streams.py:109 | records reads `recordCount` and messages reads `messageCount` |
| Streams.PaginationRequests | tap_sumologic/streams.py:110-129 | no request when the total is not above the offset; the first request is at the starting offset; each later offset is the previous one plus the rows it returned; every offset is below the total; every page but the last is non-empty; the last page is empty or reaches the total |
| Streams.RequestShapeCons | tap_sumologic/streams.py:116-129 | a non-empty page below the total, followed by well-shaped requests from the next offset, gives well-shaped requests from its own offset |
| Streams.PaginationOffsetsIncrease | tap_sumologic/streams.py:126-129 | starting at offset 0, offsets strictly increase from request to request |
| Streams.PaginationRecordsFollowPages | tap_sumologic/streams.py:116-124 | the records are the shaped rows of the requested pages, in page then row order |
| Streams.ShapedPagesLength | tap_sumologic/streams.py:121-124 | the number of records is the sum of the page sizes |
| Streams.ShapedPagesCarryMetadata | tap_sumologic/streams.py:123-124 | every record carries every metadata column with its metadata value |
| Streams.AppendShaped | tap_sumologic/streams.py:123-124 | the row loop appends exactly one merged record per row, in order |
| Streams.PaginationStep | tap_sumologic/streams.py:116-129 | one iteration of the page loop keeps the records and offsets so far a prefix of the whole walk |
| Streams.Paginate | tap_sumologic/streams.py:110-129 | the pagination loop, with its two exits, produces exactly the records and request offsets of `Paginated` |
| Streams.GetRecords | tap_sumologic/streams.py:61-143 | the whole extraction computes `Extraction`: poll, check the count key, paginate, or take the metrics series; records are yielded only after the list is complete |
| Streams.CancelledJobYieldsNothing | tap_sumologic/streams.py:96-108 | a cancelled job yields no record, requests no page and raises nothing |
| Streams.PagesOnlyWhenDone | tap_sumologic/streams.py:108 | a page is requested only for a search query whose job ended done |
| Streams.SearchRecordsAreShapedPages | tap_sumologic/streams.py:108-129 | a search extraction's records are the requested pages' rows merged with the metadata, in page then row order; the first request is at offset 0; the record count is the sum of page sizes; every record carries the metadata |
| Streams.MetricsYieldTimeSeriesVerbatim | tap_sumologic/streams.py:131-140 | metrics yield the first query result's time series unchanged, without metadata; an IndexError when there is no result |
| Streams.MetricsErrorsNotChecked | tap_sumologic/streams.py:131-140 | extraction yields the series of a metrics response that reports errors, which the schema probe would reject |
| Streams.UnsupportedQueryTypeYieldsNothing | tap_sumologic/streams.py:83-143 | any other query type yields nothing and raises nothing |
| Streams.GatheringThenCancelledScenario | tap_sumologic/streams.py:95-108 | statuses gathering, gathering, cancelled: no record and no error |
| Streams.SinglePageScenario | tap_sumologic/streams.py:108-129 | a done job with `recordCount` 15 and a first page of 15 rows: one request at offset 0 and 15 records |
| Tap.ProbeQuery | tap_sumologic/tap.py:221-223 | the probe query starts with the configured query; records/messages append the one-row `limit 1` clause; metrics keep it unchanged |
| Tap.InferredType | tap_sumologic/tap.py:254-266 | every type starts with `null`, `string`; `int`/`long` iff `integer` is appended; `double` iff `number` is appended; every other type, boolean included, is exactly `["null","string"]` |
| Tap.FieldPropsKeys | tap_sumologic/tap.py:249-254 | the properties built by the field loop are named exactly by the reported fields |
| Tap.FieldPropsLastWins | tap_sumologic/tap.py:249-261 | each property has the type inferred from the last descriptor of that name |
| Tap.KeyFieldNamesConcat | tap_sumologic/tap.py:268-269 | key names keep input order: those of concatenated lists are concatenated |
| Tap.KeyFieldNamesMembers | tap_sumologic/tap.py:268-269 | a name is a key name iff some descriptor of that name is marked key |
| Tap.BuildSearchSchema | tap_sumologic/tap.py:247-283 | the field loop, with the additions after it, computes `SearchSchema` |
| Tap.SearchSchemaProperties | tap_sumologic/tap.py:249-274 | properties are exactly the field names plus `start_date`, `end_date`, `time_zone`; those three are `["null","string"]` whatever a field of that name reported; every other property has the type of its last descriptor; every type admits null and string |
| Tap.SearchSchemaKeys | tap_sumologic/tap.py:248-277 | `key_properties` is the key fields in input order, then the window columns, then for messages only `_messagetime`, `_messageid`; those two are properties only if a field has that name |
| Tap.MetricsSchema | tap_sumologic/tap.py:285-293 | the metrics schema has exactly `metricDefinition` and `points`, both `["object","null"]`, and both as keys |
| Tap.SchemaForTableCases | tap_sumologic/tap.py:220-295 | a trailing slash on the root URL fails; search types give `SearchSchema` of the probe fields iff the probe succeeds; metrics give the metrics schema iff the error check passes; any other type gives `{}` |
| Tap.SchemaForTableErrors | tap_sumologic/tap.py:230-245 | schema inference raises only the slash error, a status feed too short for the probe, or the metrics errors; never the query-type error |
| Tap.GetSchemaForTable | tap_sumologic/tap.py:210-295 | connecting, probing and building the schema computes `SchemaForTable` |
| Tap.SchemaSourceOf | tap_sumologic/tap.py:167-181 | a string setting is a schema file path, an object goes to the schema builder, anything else is inferred |
| Tap.ResolveSchema | tap_sumologic/tap.py:166-181 | a string setting gives the loaded file's schema, or the file error when it cannot be read; an object gives the builder's schema of it; anything else gives the inferred schema of the table |
| Tap.PrimaryKeys | tap_sumologic/tap.py:194 | non-empty configured keys win; otherwise the schema's `key_properties`, with a KeyError when the schema has none |
| Tap.ReplicationKey | tap_sumologic/tap.py:195-197 | the table's replication key when it sets one, else the configuration's, else the empty string |
| Tap.StreamFor | tap_sumologic/tap.py:166-206 | a table gives a stream iff its schema resolves, its query type is valid, its primary keys can be chosen and the resolved endpoint does not end in `/`; a schema error is passed on unchanged |
| Tap.StreamForFields | tap_sumologic/tap.py:189-206 | a discovered stream carries its table's name, query type, query and options, the resolved schema, the chosen primary keys and the replication key |
| Tap.QueryTypeValidation | tap_sumologic/tap.py:183-187 | the ValueError is raised iff the schema resolved and the query type is not records, messages or metrics; a valid type never raises it |
| Tap.StreamPrimaryKeys | tap_sumologic/tap.py:189-205 | a discovered stream has the resolved schema, a valid query type, and the configured primary keys if non-empty, else the schema's keys |
| Tap.DiscoverFromTables | tap_sumologic/tap.py:165-208 | on success, one stream per table, in table order, each the stream of its table; on failure, the error of the first failing table, all earlier ones having succeeded |
| Tap.DiscoverStreams | tap_sumologic/tap.py:163-208 | the discovery loop computes `DiscoverFrom` from the first table |
| Tap.RecordsFixtureScenario | tap_sumologic/tests/test_core.py:27-33 | the fixture fields give `_sourcecategory` a string type, `_count` an integer type, and keys `_sourcecategory` then the window columns |
| Tap.MessagesHostScenario | tap_sumologic/tap.py:247-283 | a messages probe reporting key field `host` gives properties `host` and the window columns only; the keys add `_messagetime`, `_messageid` |

## Left out

- HTTP transport is not modelled: sessions, basic auth, the cookie jar, the CA bundle, headers, and raise-for-status in `get`/`post`. Responses are values of `Api.Server`, and HTTP errors are not represented.
- JSON (de)serialisation is not modelled. Requests and responses are structured values.
- `time.sleep`, logging and the endpoint `print` are not modelled. Sleeps appear only as the `sleeps` counter of `Api.Poll`.
- `datetime.utcnow()` is not called: the extraction timestamp is the input `now`, an opaque string.
- Reading a schema file and genson's `SchemaBuilder` are foreign I/O and a foreign library. They are the parameters `loadFile` and `buildSchema` of discovery, and only the choice of source is modelled.
- The config JSON-schema declaration and the singer_sdk `Tap`/`Stream` base classes are declarative wiring. Missing required configuration keys are not represented.
- Extraction polling has no bound. A job that never becomes done or cancelled makes the source poll forever. The model's status feed is finite, so running past its end gives `StatusFeedExhausted` in place of that non-termination. The probe loop needs at most two statuses, so it gives that error only for a feed shorter than two.
- Streams.GetRecords: records are returned as one list rather than yielded lazily. The source yields only after the whole list has been built, so the yielded sequence is the same.
- A stream's `SumoLogic` connection (`tap_sumologic/client.py:14-16`) is modelled only through its trailing-slash check on the resolved endpoint: the configured `root_url`, or the endpoint discovered from the redirect when `root_url` is null. That check is the one way building it can fail in the model, because the discovery request itself is a value of `Api.Server`.
- Status and page contents are reduced to what the core reads: the state, the numeric counters, whether `histogramBuckets` is present, and each row's `map`. A page that lacks the query-type key or `fields` (a KeyError in the source) is not represented.
- The `"type": "object"` member of an inferred schema is not stored. Every inferred schema is an object schema, so the `Streams.ObjectSchema` constructor implies it.
