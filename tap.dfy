/** The tap: schema inference from the API's field descriptors, and discovery
    of one stream per configured table. */
module Tap {
  import opened Wrappers
  import opened Json
  import opened Api
  import opened Streams
  import Sdk

  const LIMIT_CLAUSE: string := " | limit 1"
  /** Every inferred property type starts from this. */
  const BASE_TYPE: TypeList := ["null", "string"]
  const OBJECT_TYPE: TypeList := ["object", "null"]
  const WINDOW_KEYS: seq<string> := [START_DATE, END_DATE, TIME_ZONE]
  const MESSAGE_KEYS: seq<string> := ["_messagetime", "_messageid"]
  const KEY_PROPERTIES: string := "key_properties"

  /** One entry of the `tables` configuration. `schema` is the raw `schema`
      setting, absent when not configured. */
  datatype TableConfig = TableConfig(
    query: string,
    tableName: string,
    queryType: string,
    primaryKeys: seq<string>,
    byReceiptTime: bool,
    autoParsingMode: string,
    quantization: Option<int>,
    rollup: Option<string>,
    timeshift: Option<int>,
    schema: Option<JValue>,
    replicationKey: Option<string>)

  /** The tap configuration the core reads. `rootUrl` is None when `root_url`
      is set to null, in which case every client discovers its endpoint. */
  datatype TapConfig = TapConfig(
    rootUrl: Option<string>,
    window: Window,
    replicationKey: Option<string>,
    tables: seq<TableConfig>)

  // ---------------------------------------------------------------------------
  // Schema of a search table

  /** The probe query: search queries are limited to one row, metrics queries are sent as configured. */
  function ProbeQuery(query: string, queryType: string): (q: string)
    ensures |query| <= |q| && q[..|query|] == query
    ensures IsSearchType(queryType) ==> q[|query|..] == LIMIT_CLAUSE
    ensures !IsSearchType(queryType) ==> q == query
  {
    if IsSearchType(queryType) then query + LIMIT_CLAUSE else query
  }

  /** Schema type of a reported field type. Booleans stay strings on purpose:
      the API misreports their values. */
  function InferredType(fieldType: string): (t: TypeList)
    ensures |t| >= 2 && t[..2] == BASE_TYPE
    ensures (fieldType == "int" || fieldType == "long") <==> t == BASE_TYPE + ["integer"]
    ensures fieldType == "double" <==> t == BASE_TYPE + ["number"]
    ensures (fieldType != "int" && fieldType != "long" && fieldType != "double") <==> t == BASE_TYPE
    ensures "boolean" !in t
  {
    if fieldType == "int" || fieldType == "long" then BASE_TYPE + ["integer"]
    else if fieldType == "double" then BASE_TYPE + ["number"]
    else BASE_TYPE
  }

  /** Names of the reported fields. */
  function Names(fields: seq<FieldDescriptor>): set<string> {
    set f | f in fields :: f.name
  }

  /** The property map the field loop builds: a later descriptor with the same name replaces an earlier one. */
  function FieldProps(fields: seq<FieldDescriptor>): map<string, TypeList>
    decreases |fields|
  {
    if fields == [] then map[]
    else
      var last := fields[|fields| - 1];
      FieldProps(fields[..|fields| - 1])[last.name := InferredType(last.fieldType)]
  }

  /** Names of the fields marked as keys, in input order. */
  function KeyFieldNames(fields: seq<FieldDescriptor>): seq<string>
    decreases |fields|
  {
    if fields == [] then []
    else
      var last := fields[|fields| - 1];
      KeyFieldNames(fields[..|fields| - 1]) + (if last.keyField then [last.name] else [])
  }

  /** The key list of a search table: key fields, the window columns, and for
      messages the message time and id. */
  function SearchKeys(queryType: string, fields: seq<FieldDescriptor>): seq<string> {
    KeyFieldNames(fields) + WINDOW_KEYS + (if queryType == MESSAGES then MESSAGE_KEYS else [])
  }

  /** The window columns always typed as nullable strings, over any field of the same name. */
  function WithWindowColumns(props: map<string, TypeList>): map<string, TypeList> {
    props[START_DATE := BASE_TYPE][END_DATE := BASE_TYPE][TIME_ZONE := BASE_TYPE]
  }

  /** The schema inferred for a records or messages table. */
  function SearchSchema(queryType: string, fields: seq<FieldDescriptor>): Schema {
    ObjectSchema(WithWindowColumns(FieldProps(fields)), Some(SearchKeys(queryType, fields)))
  }

  /** The field loop and the additions after it, as the tap builds them. */
  method BuildSearchSchema(queryType: string, fields: seq<FieldDescriptor>) returns (schema: Schema)
    ensures schema == SearchSchema(queryType, fields)
  {
    var props: map<string, TypeList> := map[];
    var keys: seq<string> := [];
    var i := 0;
    while i < |fields|
      invariant 0 <= i <= |fields|
      invariant props == FieldProps(fields[..i])
      invariant keys == KeyFieldNames(fields[..i])
    {
      var field := fields[i];
      props := props[field.name := BASE_TYPE];
      if field.fieldType == "int" {
        props := props[field.name := props[field.name] + ["integer"]];
      } else if field.fieldType == "long" {
        props := props[field.name := props[field.name] + ["integer"]];
      } else if field.fieldType == "double" {
        props := props[field.name := props[field.name] + ["number"]];
      }
      if field.keyField {
        keys := keys + [field.name];
      }
      assert fields[..i + 1][..i] == fields[..i];
      i := i + 1;
    }
    assert fields[..|fields|] == fields;
    props := props[START_DATE := BASE_TYPE];
    props := props[END_DATE := BASE_TYPE];
    props := props[TIME_ZONE := BASE_TYPE];
    keys := keys + WINDOW_KEYS;
    if queryType == MESSAGES {
      keys := keys + MESSAGE_KEYS;
    } else {
      assert keys + [] == keys;
    }
    schema := ObjectSchema(props, Some(keys));
  }

  lemma {:induction false} NamesOfSnoc(fields: seq<FieldDescriptor>)
    requires fields != []
    ensures Names(fields) == Names(fields[..|fields| - 1]) + {fields[|fields| - 1].name}
  {
    var init := fields[..|fields| - 1];
    assert fields == init + [fields[|fields| - 1]];
    forall n | n in Names(fields)
      ensures n in Names(init) + {fields[|fields| - 1].name}
    {
      var f :| f in fields && f.name == n;
      var i :| 0 <= i < |fields| && fields[i] == f;
      if i < |fields| - 1 {
        assert init[i] == f;
      }
    }
    forall n | n in Names(init)
      ensures n in Names(fields)
    {
      var f :| f in init && f.name == n;
      assert f in fields;
    }
  }

  /** The properties built from the fields are named exactly by the fields. */
  lemma {:induction false} FieldPropsKeys(fields: seq<FieldDescriptor>)
    ensures FieldProps(fields).Keys == Names(fields)
    decreases |fields|
  {
    if fields != [] {
      FieldPropsKeys(fields[..|fields| - 1]);
      NamesOfSnoc(fields);
    }
  }

  /** `fields[j]` is the last descriptor named `n`. */
  predicate LastOfName(fields: seq<FieldDescriptor>, j: int, n: string) {
    0 <= j < |fields| && fields[j].name == n && forall k :: j < k < |fields| ==> fields[k].name != n
  }

  /** Each property has the type inferred from the last descriptor of that name. */
  lemma {:induction false} FieldPropsLastWins(fields: seq<FieldDescriptor>, n: string)
    requires n in FieldProps(fields)
    ensures exists j :: LastOfName(fields, j, n) && FieldProps(fields)[n] == InferredType(fields[j].fieldType)
    decreases |fields|
  {
    var last := fields[|fields| - 1];
    var init := fields[..|fields| - 1];
    assert FieldProps(fields) == FieldProps(init)[last.name := InferredType(last.fieldType)];
    if last.name == n {
      assert LastOfName(fields, |fields| - 1, n) && FieldProps(fields)[n] == InferredType(fields[|fields| - 1].fieldType);
    } else {
      FieldPropsLastWins(init, n);
      var j :| LastOfName(init, j, n) && FieldProps(init)[n] == InferredType(init[j].fieldType);
      assert init + [last] == fields;
      LastOfNameExtends(init, last, j, n);
      assert LastOfName(fields, j, n) && FieldProps(fields)[n] == InferredType(fields[j].fieldType);
    }
  }

  lemma LastOfNameExtends(init: seq<FieldDescriptor>, last: FieldDescriptor, j: int, n: string)
    requires LastOfName(init, j, n) && last.name != n
    ensures LastOfName(init + [last], j, n) && (init + [last])[j] == init[j]
  {
  }

  /** Key names of concatenated descriptor lists are concatenated: input order is kept. */
  lemma {:induction false} KeyFieldNamesConcat(a: seq<FieldDescriptor>, b: seq<FieldDescriptor>)
    ensures KeyFieldNames(a + b) == KeyFieldNames(a) + KeyFieldNames(b)
    decreases |b|
  {
    if b == [] {
      assert a + b == a;
    } else {
      var init := b[..|b| - 1];
      KeyFieldNamesConcat(a, init);
      assert (a + b)[..|a + b| - 1] == a + init;
      assert (a + b)[|a + b| - 1] == b[|b| - 1];
    }
  }

  /** A name is a key name exactly when some descriptor of that name is marked key. */
  lemma {:induction false} KeyFieldNamesMembers(fields: seq<FieldDescriptor>, n: string)
    ensures n in KeyFieldNames(fields) <==> exists i :: 0 <= i < |fields| && fields[i].keyField && fields[i].name == n
    decreases |fields|
  {
    if fields != [] {
      var init := fields[..|fields| - 1];
      KeyFieldNamesMembers(init, n);
      if exists i :: 0 <= i < |fields| && fields[i].keyField && fields[i].name == n {
        var i :| 0 <= i < |fields| && fields[i].keyField && fields[i].name == n;
        if i < |init| {
          assert init[i] == fields[i];
        }
      }
      if exists i :: 0 <= i < |init| && init[i].keyField && init[i].name == n {
        var i :| 0 <= i < |init| && init[i].keyField && init[i].name == n;
        assert fields[i] == init[i];
      }
    }
  }

  /** The properties of a search table's schema: exactly the reported names and
      the three window columns; the window columns are nullable strings whatever
      a field of that name reported; every other property has the type of the
      last descriptor of its name; every type admits null and string. */
  lemma SearchSchemaProperties(queryType: string, fields: seq<FieldDescriptor>)
    ensures var props := SearchSchema(queryType, fields).properties;
      && props.Keys == Names(fields) + {START_DATE, END_DATE, TIME_ZONE}
      && props[START_DATE] == BASE_TYPE && props[END_DATE] == BASE_TYPE && props[TIME_ZONE] == BASE_TYPE
      && (forall n :: n in props && n !in {START_DATE, END_DATE, TIME_ZONE} ==>
            exists j :: LastOfName(fields, j, n) && props[n] == InferredType(fields[j].fieldType))
      && (forall n :: n in props ==> props[n][0] == "null" && props[n][1] == "string")
  {
    var props := SearchSchema(queryType, fields).properties;
    FieldPropsKeys(fields);
    forall n | n in props && n !in {START_DATE, END_DATE, TIME_ZONE}
      ensures exists j :: LastOfName(fields, j, n) && props[n] == InferredType(fields[j].fieldType)
    {
      FieldPropsLastWins(fields, n);
    }
    forall n | n in props
      ensures props[n][0] == "null" && props[n][1] == "string"
    {
      if n !in {START_DATE, END_DATE, TIME_ZONE} {
        FieldPropsLastWins(fields, n);
        var j :| LastOfName(fields, j, n) && props[n] == InferredType(fields[j].fieldType);
        assert props[n][..2] == BASE_TYPE;
      }
    }
  }

  /** The key list of a search table, in order: key fields as reported, the
      window columns, then for messages `_messagetime` and `_messageid`; the
      latter two are not properties unless the probe reported such a field. */
  lemma SearchSchemaKeys(queryType: string, fields: seq<FieldDescriptor>)
    ensures var s := SearchSchema(queryType, fields);
      && s.keyProperties == Some(KeyFieldNames(fields) + WINDOW_KEYS + (if queryType == MESSAGES then MESSAGE_KEYS else []))
      && (queryType == MESSAGES ==>
            forall n :: n in MESSAGE_KEYS ==> n in s.keyProperties.value && (n in s.properties <==> n in Names(fields)))
  {
    FieldPropsKeys(fields);
  }

  /** The schema of a metrics table: two nullable objects, both keys. */
  function MetricsSchema(): (s: Schema)
    ensures s.ObjectSchema? && s.properties.Keys == {"metricDefinition", "points"}
    ensures forall k :: k in s.properties ==> s.properties[k] == OBJECT_TYPE
    ensures s.keyProperties == Some(["metricDefinition", "points"])
  {
    ObjectSchema(map["metricDefinition" := OBJECT_TYPE, "points" := OBJECT_TYPE], Some(["metricDefinition", "points"]))
  }

  // ---------------------------------------------------------------------------
  // Schema of a table

  /** Schema inference for one table. */
  function SchemaForTable(config: TapConfig, table: TableConfig, server: Server): Result<Schema, Error> {
    var q := ProbeQuery(table.query, table.queryType);
    if Sdk.EndsWithSlash(Sdk.ResolvedEndpoint(config.rootUrl, server.redirectUrl)) then
      Failure(EndpointEndsWithSlash)
    else
      match Sdk.SumologicFieldsSpec(server, q, config.window.startDate, config.window.endDate, config.window.timeZone,
                                    table.byReceiptTime, table.autoParsingMode, table.queryType,
                                    table.quantization, table.rollup, table.timeshift)
      case Failure(e) => Failure(e)
      case Success(probed) =>
        if IsSearchType(table.queryType) then Success(SearchSchema(table.queryType, probed.fields))
        else if table.queryType == METRICS then Success(MetricsSchema())
        else Success(EmptySchema)
  }

  /** The probe job a search table submits: the limited query over the configured window. */
  function ProbeRequest(config: TapConfig, table: TableConfig): SearchJobRequest {
    SearchJobRequest(ProbeQuery(table.query, table.queryType), config.window.startDate, config.window.endDate,
                     config.window.timeZone, table.byReceiptTime, table.autoParsingMode)
  }

  /** What schema inference yields for each query type. */
  lemma SchemaForTableCases(config: TapConfig, table: TableConfig, server: Server)
    ensures var r := SchemaForTable(config, table, server);
      && (Sdk.EndsWithSlash(Sdk.ResolvedEndpoint(config.rootUrl, server.redirectUrl)) ==> r == Failure(EndpointEndsWithSlash))
      && (!Sdk.EndsWithSlash(Sdk.ResolvedEndpoint(config.rootUrl, server.redirectUrl)) && IsSearchType(table.queryType) ==>
            var fields := Sdk.SearchJobFieldsSpec(server, ProbeRequest(config, table), table.queryType);
            && (r.Success? <==> fields.Success?)
            && (r.Success? ==> r.value == SearchSchema(table.queryType, fields.value)))
      && (!Sdk.EndsWithSlash(Sdk.ResolvedEndpoint(config.rootUrl, server.redirectUrl)) && table.queryType == METRICS ==>
            var series := Sdk.MetricsQueryFields(server.metrics(Sdk.MetricsRequest(
                            table.query, config.window.startDate, config.window.endDate,
                            table.quantization, table.rollup, table.timeshift)));
            && (r.Success? <==> series.Success?)
            && (r.Success? ==> r.value == MetricsSchema()))
      && (!Sdk.EndsWithSlash(Sdk.ResolvedEndpoint(config.rootUrl, server.redirectUrl)) && !IsQueryType(table.queryType) ==> r == Success(EmptySchema))
  {
  }

  /** Schema inference raises only the slash error, a status feed too short for
      the probe, or the metrics errors; never the query-type error itself. */
  lemma SchemaForTableErrors(config: TapConfig, table: TableConfig, server: Server)
    ensures var r := SchemaForTable(config, table, server);
      r.Failure? ==> (r.error == EndpointEndsWithSlash || r.error == StatusFeedExhausted
                      || r.error.MetricsQueryError? || r.error == MissingQueryResult)
  {
  }

  /** `get_schema_for_table`: connect, probe the fields, build the schema. */
  method GetSchemaForTable(config: TapConfig, table: TableConfig, server: Server) returns (r: Result<Schema, Error>)
    ensures r == SchemaForTable(config, table, server)
  {
    var q := table.query;
    if table.queryType in [RECORDS, MESSAGES] {
      q := q + LIMIT_CLAUSE;
    }
    var sumo :- Sdk.SumoLogic.Connect(config.rootUrl, server.redirectUrl);
    var probed :- Sdk.SumologicFields(server, q, config.window.startDate, config.window.endDate, config.window.timeZone,
                                      table.byReceiptTime, table.autoParsingMode, table.queryType,
                                      table.quantization, table.rollup, table.timeshift);
    if table.queryType in [RECORDS, MESSAGES] {
      var schema := BuildSearchSchema(table.queryType, probed.fields);
      return Success(schema);
    } else if table.queryType == METRICS {
      return Success(MetricsSchema());
    }
    return Success(EmptySchema);
  }

  // ---------------------------------------------------------------------------
  // Stream discovery

  /** Where a table's schema comes from: a path names a schema file, an inline
      object goes through the schema builder, anything else is inferred. */
  datatype SchemaSource = FromFile(path: string) | FromBuilder(schema: Record) | Inferred

  function SchemaSourceOf(setting: Option<JValue>): (s: SchemaSource)
    ensures s.FromFile? <==> setting.Some? && setting.value.JStr?
    ensures s.FromBuilder? <==> setting.Some? && setting.value.JObj?
    ensures s.FromFile? ==> s.path == setting.value.s
    ensures s.FromBuilder? ==> s.schema == setting.value.members
  {
    match setting
    case Some(JStr(path)) => FromFile(path)
    case Some(JObj(members)) => FromBuilder(members)
    case _ => Inferred
  }

  /** The schema a table ends up with. `loadFile` stands for reading a schema
      file (None when it cannot be read) and `buildSchema` for the schema builder. */
  function ResolveSchema(config: TapConfig, table: TableConfig, server: Server,
                         loadFile: string -> Option<Schema>, buildSchema: Record -> Schema): (r: Result<Schema, Error>)
    ensures table.schema.Some? && table.schema.value.JStr? ==>
      var path := table.schema.value.s;
      r == if loadFile(path).Some? then Success(loadFile(path).value) else Failure(SchemaFileError(path))
    ensures table.schema.Some? && table.schema.value.JObj? ==> r == Success(buildSchema(table.schema.value.members))
    ensures (table.schema.None? || !(table.schema.value.JStr? || table.schema.value.JObj?)) ==>
      r == SchemaForTable(config, table, server)
  {
    match SchemaSourceOf(table.schema)
    case FromFile(path) => if loadFile(path).Some? then Success(loadFile(path).value) else Failure(SchemaFileError(path))
    case FromBuilder(members) => Success(buildSchema(members))
    case Inferred => SchemaForTable(config, table, server)
  }

  /** `primary_keys or schema["key_properties"]`: the configured keys when there
      are any, otherwise the schema's key list (a KeyError when it has none). */
  function PrimaryKeys(table: TableConfig, schema: Schema): (r: Result<seq<string>, Error>)
    ensures |table.primaryKeys| > 0 ==> r == Success(table.primaryKeys)
    ensures |table.primaryKeys| == 0 ==>
      (r.Success? <==> schema.ObjectSchema? && schema.keyProperties.Some?)
      && (r.Success? ==> r.value == schema.keyProperties.value)
      && (r.Failure? ==> r.error == MissingKey(KEY_PROPERTIES))
  {
    if |table.primaryKeys| > 0 then Success(table.primaryKeys)
    else if schema.ObjectSchema? && schema.keyProperties.Some? then Success(schema.keyProperties.value)
    else Failure(MissingKey(KEY_PROPERTIES))
  }

  /** The table's replication key, else the tap's, else the empty string. */
  function ReplicationKey(config: TapConfig, table: TableConfig): (k: string)
    ensures table.replicationKey.Some? ==> k == table.replicationKey.value
    ensures table.replicationKey.None? && config.replicationKey.Some? ==> k == config.replicationKey.value
    ensures table.replicationKey.None? && config.replicationKey.None? ==> k == ""
  {
    table.replicationKey.GetOr(config.replicationKey.GetOr(""))
  }

  /** The stream discovered for one table. Building it also builds a client on
      the configured root URL (or the discovered endpoint when it is null),
      which refuses a trailing slash. */
  function StreamFor(config: TapConfig, table: TableConfig, server: Server,
                     loadFile: string -> Option<Schema>, buildSchema: Record -> Schema): (r: Result<Stream, Error>)
    ensures var schema := ResolveSchema(config, table, server, loadFile, buildSchema);
      r.Success? <==>
        && schema.Success? && IsQueryType(table.queryType)
        && PrimaryKeys(table, schema.value).Success?
        && !Sdk.EndsWithSlash(Sdk.ResolvedEndpoint(config.rootUrl, server.redirectUrl))
    ensures var schema := ResolveSchema(config, table, server, loadFile, buildSchema);
      schema.Failure? ==> r == Failure(schema.error)
  {
    match ResolveSchema(config, table, server, loadFile, buildSchema)
    case Failure(e) => Failure(e)
    case Success(schema) =>
      if !IsQueryType(table.queryType) then Failure(InvalidQueryType(table.queryType))
      else
        match PrimaryKeys(table, schema)
        case Failure(e) => Failure(e)
        case Success(keys) =>
          if Sdk.EndsWithSlash(Sdk.ResolvedEndpoint(config.rootUrl, server.redirectUrl)) then Failure(EndpointEndsWithSlash)
          else Success(Stream(table.tableName, table.queryType, keys, ReplicationKey(config, table), schema,
                              table.query, table.byReceiptTime, table.autoParsingMode,
                              table.quantization, table.rollup, table.timeshift))
  }

  /** A discovered stream carries its table's name, query type and query
      options, the resolved schema, the primary keys chosen for it and the
      replication key found for it. */
  lemma StreamForFields(config: TapConfig, table: TableConfig, server: Server,
                        loadFile: string -> Option<Schema>, buildSchema: Record -> Schema)
    ensures var r := StreamFor(config, table, server, loadFile, buildSchema);
      r.Success? ==>
      var s := r.value; var schema := ResolveSchema(config, table, server, loadFile, buildSchema).value;
      && s.name == table.tableName && s.queryType == table.queryType && s.schema == schema
      && s.primaryKeys == PrimaryKeys(table, schema).value && s.replicationKey == ReplicationKey(config, table)
      && s.query == table.query && s.byReceiptTime == table.byReceiptTime && s.autoParsingMode == table.autoParsingMode
      && s.quantization == table.quantization && s.rollup == table.rollup && s.timeshift == table.timeshift
  {
  }

  /** The query-type error is raised exactly for a table whose schema resolved
      and whose query type is none of records, messages and metrics. */
  lemma QueryTypeValidation(config: TapConfig, table: TableConfig, server: Server,
                            loadFile: string -> Option<Schema>, buildSchema: Record -> Schema)
    ensures var r := StreamFor(config, table, server, loadFile, buildSchema);
      && (r == Failure(InvalidQueryType(table.queryType)) <==>
            ResolveSchema(config, table, server, loadFile, buildSchema).Success? && !IsQueryType(table.queryType))
      && (!IsQueryType(table.queryType) ==> r.Failure?)
      && (IsQueryType(table.queryType) ==> r.Failure? ==> !r.error.InvalidQueryType?)
  {
    if SchemaSourceOf(table.schema).Inferred? {
      SchemaForTableErrors(config, table, server);
    }
  }

  /** A discovered stream's primary keys: the configured ones when non-empty,
      otherwise the resolved schema's key list. Its schema is the resolved schema. */
  lemma StreamPrimaryKeys(config: TapConfig, table: TableConfig, server: Server,
                          loadFile: string -> Option<Schema>, buildSchema: Record -> Schema)
    requires StreamFor(config, table, server, loadFile, buildSchema).Success?
    ensures var s := StreamFor(config, table, server, loadFile, buildSchema).value;
      var schema := ResolveSchema(config, table, server, loadFile, buildSchema).value;
      && s.schema == schema
      && s.queryType == table.queryType && IsQueryType(s.queryType)
      && s.primaryKeys == if |table.primaryKeys| > 0 then table.primaryKeys else schema.keyProperties.value
  {
  }

  /** Discovery from table `i` on, with the streams of the earlier tables in `acc`;
      `probes(i)` answers the calls made for table `i`. */
  function DiscoverFrom(config: TapConfig, probes: nat -> Server, loadFile: string -> Option<Schema>,
                        buildSchema: Record -> Schema, i: nat, acc: seq<Stream>): Result<seq<Stream>, Error>
    requires i <= |config.tables|
    decreases |config.tables| - i
  {
    if i == |config.tables| then Success(acc)
    else
      match StreamFor(config, config.tables[i], probes(i), loadFile, buildSchema)
      case Failure(e) => Failure(e)
      case Success(s) => DiscoverFrom(config, probes, loadFile, buildSchema, i + 1, acc + [s])
  }

  /** Discovery stops at the first table that raises; otherwise it yields one
      stream per table, in table order. */
  lemma {:induction false} DiscoverFromTables(config: TapConfig, probes: nat -> Server, loadFile: string -> Option<Schema>,
                                             buildSchema: Record -> Schema, i: nat, acc: seq<Stream>)
    requires i <= |config.tables|
    ensures var r := DiscoverFrom(config, probes, loadFile, buildSchema, i, acc);
      && (r.Success? ==>
            && |r.value| == |acc| + |config.tables| - i && r.value[..|acc|] == acc
            && forall j :: i <= j < |config.tables| ==>
                 StreamFor(config, config.tables[j], probes(j), loadFile, buildSchema) == Success(r.value[|acc| + j - i]))
      && (r.Failure? ==>
            exists j :: i <= j < |config.tables|
              && StreamFor(config, config.tables[j], probes(j), loadFile, buildSchema) == Failure(r.error)
              && forall k :: i <= k < j ==> StreamFor(config, config.tables[k], probes(k), loadFile, buildSchema).Success?)
    decreases |config.tables| - i
  {
    if i < |config.tables| {
      var first := StreamFor(config, config.tables[i], probes(i), loadFile, buildSchema);
      if first.Success? {
        var acc' := acc + [first.value];
        DiscoverFromTables(config, probes, loadFile, buildSchema, i + 1, acc');
        var r := DiscoverFrom(config, probes, loadFile, buildSchema, i, acc);
        if r.Success? {
          assert r.value[..|acc'|] == acc';
          assert r.value[..|acc|] == acc'[..|acc|];
          assert r.value[|acc|] == acc'[|acc|];
        }
      }
    }
  }

  /** `discover_streams`: one stream per table, stopping at the first error. */
  method DiscoverStreams(config: TapConfig, probes: nat -> Server, loadFile: string -> Option<Schema>, buildSchema: Record -> Schema)
    returns (r: Result<seq<Stream>, Error>)
    ensures r == DiscoverFrom(config, probes, loadFile, buildSchema, 0, [])
  {
    var streams: seq<Stream> := [];
    var i := 0;
    while i < |config.tables|
      invariant 0 <= i <= |config.tables|
      decreases |config.tables| - i
      invariant DiscoverFrom(config, probes, loadFile, buildSchema, i, streams) == DiscoverFrom(config, probes, loadFile, buildSchema, 0, [])
    {
      var table := config.tables[i];
      var schema: Schema;
      match SchemaSourceOf(table.schema) {
        case FromFile(path) =>
          if loadFile(path).None? {
            return Failure(SchemaFileError(path));
          }
          schema := loadFile(path).value;
        case FromBuilder(members) =>
          schema := buildSchema(members);
        case Inferred =>
          var inferred := GetSchemaForTable(config, table, probes(i));
          if inferred.Failure? {
            return Failure(inferred.error);
          }
          schema := inferred.value;
      }
      if table.queryType !in [RECORDS, MESSAGES, METRICS] {
        return Failure(InvalidQueryType(table.queryType));
      }
      var keys: seq<string>;
      if |table.primaryKeys| > 0 {
        keys := table.primaryKeys;
      } else if schema.ObjectSchema? && schema.keyProperties.Some? {
        keys := schema.keyProperties.value;
      } else {
        return Failure(MissingKey(KEY_PROPERTIES));
      }
      var conn := Sdk.SumoLogic.Connect(config.rootUrl, probes(i).redirectUrl);
      if conn.Failure? {
        return Failure(conn.error);
      }
      var stream := Stream(table.tableName, table.queryType, keys, ReplicationKey(config, table), schema,
                           table.query, table.byReceiptTime, table.autoParsingMode,
                           table.quantization, table.rollup, table.timeshift);
      streams := streams + [stream];
      i := i + 1;
    }
    r := Success(streams);
  }

  // ---------------------------------------------------------------------------
  // Scenario

  /** The records fixture: `_sourcecategory` (string, key) and `_count` (int). */
  lemma RecordsFixtureScenario()
    ensures var s := SearchSchema(RECORDS, [FieldDescriptor("_sourcecategory", "string", true),
                                            FieldDescriptor("_count", "int", false)]);
      && s.properties == map["_sourcecategory" := ["null", "string"], "_count" := ["null", "string", "integer"],
                             START_DATE := BASE_TYPE, END_DATE := BASE_TYPE, TIME_ZONE := BASE_TYPE]
      && s.keyProperties == Some(["_sourcecategory", START_DATE, END_DATE, TIME_ZONE])
  {
    var fields := [FieldDescriptor("_sourcecategory", "string", true), FieldDescriptor("_count", "int", false)];
    assert fields[..1][..0] == [];
    assert fields[..1] == [fields[0]];
    assert KeyFieldNames(fields) == ["_sourcecategory"];
    assert SearchKeys(RECORDS, fields) == ["_sourcecategory"] + WINDOW_KEYS + []
      == ["_sourcecategory", START_DATE, END_DATE, TIME_ZONE];
    assert InferredType("string") == BASE_TYPE && InferredType("int") == ["null", "string", "integer"];
    assert FieldProps(fields[..1]) == map["_sourcecategory" := BASE_TYPE];
    assert FieldProps(fields) == map["_sourcecategory" := BASE_TYPE, "_count" := ["null", "string", "integer"]];
  }

  /** A messages table whose probe reports one key field `host` of type string. */
  lemma MessagesHostScenario()
    ensures var s := SearchSchema(MESSAGES, [FieldDescriptor("host", "string", true)]);
      && s.properties == map["host" := BASE_TYPE, START_DATE := BASE_TYPE, END_DATE := BASE_TYPE, TIME_ZONE := BASE_TYPE]
      && s.keyProperties == Some(["host", START_DATE, END_DATE, TIME_ZONE, "_messagetime", "_messageid"])
  {
    var fields := [FieldDescriptor("host", "string", true)];
    assert fields[..0] == [];
    assert KeyFieldNames(fields) == ["host"];
    assert SearchKeys(MESSAGES, fields) == ["host"] + WINDOW_KEYS + MESSAGE_KEYS
      == ["host", START_DATE, END_DATE, TIME_ZONE, "_messagetime", "_messageid"];
    assert FieldProps(fields) == map["host" := BASE_TYPE];
  }
}
