/** The Sumo Logic SDK layer: endpoint resolution, the metrics request body,
    the bounded probe polling policy and the field lookups used for schema
    discovery. HTTP transport is replaced by an `Api.Server`. */
module Sdk {
  import opened Wrappers
  import opened Json
  import opened Api

  const DEFAULT_VERSION: string := "v1"
  const GLOBAL_ENDPOINT: string := "https://api.sumologic.com/api"
  const DISCOVERY_URL: string := "https://api.sumologic.com/api/v1/collectors"
  const COLLECTORS_PATH: string := "/v1/collectors"
  const ISO_SUFFIX: string := ".00+00:00"
  /** The probe loop gives up waiting after this many sleeps. */
  const PROBE_MAX_SLEEPS: nat := 2

  // ---------------------------------------------------------------------------
  // Endpoints

  /** `endpoint[-1:] == "/"`: the empty endpoint does not end with a slash. */
  predicate EndsWithSlash(e: string) {
    |e| > 0 && e[|e| - 1] == '/'
  }

  predicate OccursAt(s: string, pat: string, i: nat) {
    i + |pat| <= |s| && s[i..i + |pat|] == pat
  }

  /** Python's `s.replace(pat, "")`: every occurrence found scanning left to
      right, without overlap, is deleted; the text is not rescanned. */
  function RemoveAll(s: string, pat: string): (r: string)
    requires |pat| > 0
    ensures |r| <= |s|
    ensures forall c :: c in r ==> c in s
    decreases |s|
  {
    if |s| == 0 then ""
    else if OccursAt(s, pat, 0) then RemoveAll(s[|pat|..], pat)
    else [s[0]] + RemoveAll(s[1..], pat)
  }

  /** A text with no occurrence of `pat` in front of `t` passes through unchanged. */
  lemma {:induction false} RemoveAllKeepsClearPrefix(a: string, t: string, pat: string)
    requires |pat| > 0
    requires forall i :: 0 <= i < |a| ==> !OccursAt(a + t, pat, i)
    ensures RemoveAll(a + t, pat) == a + RemoveAll(t, pat)
  {
    if |a| > 0 {
      var s := a + t;
      assert !OccursAt(s, pat, 0);
      assert s[1..] == a[1..] + t;
      forall i | 0 <= i < |a[1..]|
        ensures !OccursAt(a[1..] + t, pat, i)
      {
        assert !OccursAt(s, pat, i + 1);
        if i + |pat| <= |a[1..] + t| {
          assert (a[1..] + t)[i..i + |pat|] == s[i + 1..i + 1 + |pat|];
        }
      }
      RemoveAllKeepsClearPrefix(a[1..], t, pat);
    } else {
      assert a + t == t;
    }
  }

  /** A text free of `pat` is left unchanged. */
  lemma RemoveAllIdentity(s: string, pat: string)
    requires |pat| > 0
    requires forall i :: 0 <= i < |s| ==> !OccursAt(s, pat, i)
    ensures RemoveAll(s, pat) == s
  {
    assert s + "" == s;
    RemoveAllKeepsClearPrefix(s, "", pat);
  }

  /** `/v1/collectors` has no proper suffix that is also a prefix. */
  lemma CollectorsPathHasNoBorder(k: nat)
    requires 0 < k < |COLLECTORS_PATH|
    ensures COLLECTORS_PATH[k..] != COLLECTORS_PATH[..|COLLECTORS_PATH| - k]
  {
    var p := COLLECTORS_PATH;
    assert p[..|p| - k][0] == '/';
    if k == 3 {
      assert p[k..][1] == 'c' && p[..|p| - k][1] == 'v';
    } else if k >= 4 {
      assert p[4..] == "collectors";
      assert p[k] in p[4..];
      assert p[k..][0] == p[k];
    } else {
      assert p[k..][0] == p[k];
    }
  }

  /** The endpoint learnt from the discovery request: the redirected URL with
      `/v1/collectors` removed. */
  function DiscoveredEndpoint(redirectUrl: string): (e: string)
    ensures |e| <= |redirectUrl| && forall c :: c in e ==> c in redirectUrl
  {
    RemoveAll(redirectUrl, COLLECTORS_PATH)
  }

  /** A redirect to `<base>/v1/collectors` resolves to `<base>`. */
  lemma {:induction false} DiscoveredEndpointStripsCollectors(base: string)
    requires forall i :: 0 <= i < |base| ==> !OccursAt(base, COLLECTORS_PATH, i)
    ensures DiscoveredEndpoint(base + COLLECTORS_PATH) == base
  {
    var p := COLLECTORS_PATH;
    var s := base + p;
    forall i | 0 <= i < |base|
      ensures !OccursAt(s, p, i)
    {
      if i + |p| <= |base| {
        assert !OccursAt(base, p, i);
        assert base[i..i + |p|] == s[i..i + |p|];
        assert !OccursAt(s, p, i);
      } else {
        var k := |base| - i;
        assert s[|base|..i + |p|] == p[..|p| - k];
        assert s[i..i + |p|][k..] == s[|base|..i + |p|];
        CollectorsPathHasNoBorder(k);
        assert s[i..i + |p|][k..] != p[k..];
        assert s[i..i + |p|] != p;
        assert !OccursAt(s, p, i);
      }
    }
    RemoveAllKeepsClearPrefix(base, p, p);
    assert OccursAt(p, p, 0);
    assert p[|p|..] == "";
  }

  /** Without a regional redirect the global endpoint is kept. */
  lemma UnredirectedDiscoveryKeepsGlobalEndpoint()
    ensures DiscoveredEndpoint(DISCOVERY_URL) == GLOBAL_ENDPOINT
  {
    assert DISCOVERY_URL == GLOBAL_ENDPOINT + COLLECTORS_PATH;
    assert '1' !in GLOBAL_ENDPOINT;
    forall i | 0 <= i < |GLOBAL_ENDPOINT|
      ensures !OccursAt(GLOBAL_ENDPOINT, COLLECTORS_PATH, i)
    {
      if i + |COLLECTORS_PATH| <= |GLOBAL_ENDPOINT| {
        assert GLOBAL_ENDPOINT[i + 2] in GLOBAL_ENDPOINT;
        assert GLOBAL_ENDPOINT[i..i + |COLLECTORS_PATH|][2] == GLOBAL_ENDPOINT[i + 2] != COLLECTORS_PATH[2];
      }
    }
    DiscoveredEndpointStripsCollectors(GLOBAL_ENDPOINT);
  }

  /** The endpoint a client ends up with: the configured one, or the discovered one. */
  function ResolvedEndpoint(configured: Option<string>, redirectUrl: string): (e: string)
    ensures configured.Some? ==> e == configured.value
    ensures configured.None? ==> e == DiscoveredEndpoint(redirectUrl)
  {
    match configured
    case Some(endpoint) => endpoint
    case None => DiscoveredEndpoint(redirectUrl)
  }

  /** The API client: it holds the endpoint requests are built from. */
  class SumoLogic {
    var endpoint: string
    const defaultVersion: string

    ghost predicate Valid()
      reads this
    {
      !EndsWithSlash(endpoint) && defaultVersion == DEFAULT_VERSION
    }

    constructor (endpoint: string)
      requires !EndsWithSlash(endpoint)
      ensures Valid() && this.endpoint == endpoint
    {
      this.endpoint := endpoint;
      defaultVersion := DEFAULT_VERSION;
    }

    /** Client construction: resolve the endpoint (discovering it when none is
        configured) and refuse one that ends with a slash. */
    static method Connect(configured: Option<string>, redirectUrl: string) returns (r: Result<SumoLogic, Error>)
      ensures r.Failure? <==> EndsWithSlash(ResolvedEndpoint(configured, redirectUrl))
      ensures r.Failure? ==> r.error == EndpointEndsWithSlash
      ensures r.Success? ==> fresh(r.value) && r.value.Valid()
      ensures r.Success? ==> r.value.endpoint == ResolvedEndpoint(configured, redirectUrl)
    {
      var endpoint: string;
      if configured.None? {
        endpoint := DiscoveredEndpoint(redirectUrl);
      } else {
        endpoint := configured.value;
      }
      if EndsWithSlash(endpoint) {
        return Failure(EndpointEndsWithSlash);
      }
      var client := new SumoLogic(endpoint);
      return Success(client);
    }

    /** The base URL of one API version: the endpoint and the version can be read back from it. */
    function VersionedEndpoint(version: string): (url: string)
      reads this
      ensures |url| == |endpoint| + 1 + |version|
      ensures url[..|endpoint|] == endpoint && url[|endpoint|] == '/'
      ensures url[|endpoint| + 1..] == version
    {
      endpoint + "/" + version
    }

    /** `version or self.DEFAULT_VERSION`: an absent or empty version means the default. */
    function RequestVersion(version: Option<string>): (v: string)
      reads this
      ensures version.None? || version.value == "" ==> v == defaultVersion
      ensures version.Some? && version.value != "" ==> v == version.value
    {
      if version.Some? && version.value != "" then version.value else defaultVersion
    }

    /** A valid client never builds `//` at the endpoint-version junction. */
    lemma VersionedEndpointSingleSlash(version: string)
      requires Valid() && |endpoint| > 0
      ensures VersionedEndpoint(version)[|endpoint| - 1] != '/'
    {
    }
  }

  // ---------------------------------------------------------------------------
  // Metrics request body

  /** An ISO-8601 boundary: the configured time with `.00+00:00` appended. */
  function IsoTime(t: string): (iso: string)
    ensures |iso| == |t| + |ISO_SUFFIX|
    ensures iso[..|t|] == t && iso[|t|..] == ISO_SUFFIX
  {
    t + ISO_SUFFIX
  }

  function Boundary(t: string): JValue {
    JObj(map["type" := JStr("Iso8601TimeRangeBoundary"), "iso8601Time" := JStr(IsoTime(t))])
  }

  /** The `timeRange` member of a metrics request. */
  function TimeRange(from: string, to: string): (r: JValue)
    ensures r.JObj? && r.members.Keys == {"type", "from", "to"}
    ensures r.members["type"] == JStr("BeginBoundedTimeRange")
    ensures r.members["from"] == Boundary(from) && r.members["to"] == Boundary(to)
  {
    JObj(map["type" := JStr("BeginBoundedTimeRange"), "from" := Boundary(from), "to" := Boundary(to)])
  }

  /** `queries[0]` of a metrics request: an optional parameter is a key exactly when it is set. */
  function QueryEntry(query: string, quantization: Option<int>, rollup: Option<string>, timeshift: Option<int>): (e: Record)
    ensures "rowId" in e && e["rowId"] == JStr("A")
    ensures "query" in e && e["query"] == JStr(query)
    ensures "quantization" in e <==> quantization.Some?
    ensures quantization.Some? ==> e["quantization"] == JNum(quantization.value)
    ensures "rollup" in e <==> rollup.Some?
    ensures rollup.Some? ==> e["rollup"] == JStr(rollup.value)
    ensures "timeshift" in e <==> timeshift.Some?
    ensures timeshift.Some? ==> e["timeshift"] == JNum(timeshift.value)
    ensures e.Keys <= {"rowId", "query", "quantization", "rollup", "timeshift"}
  {
    var required := map["rowId" := JStr("A"), "query" := JStr(query)];
    var q := if quantization.Some? then required["quantization" := JNum(quantization.value)] else required;
    var qr := if rollup.Some? then q["rollup" := JStr(rollup.value)] else q;
    if timeshift.Some? then qr["timeshift" := JNum(timeshift.value)] else qr
  }

  /** The whole body of `POST /metricsQueries`. */
  function MetricsRequest(query: string, from: string, to: string,
                          quantization: Option<int>, rollup: Option<string>, timeshift: Option<int>): JValue
  {
    JObj(map[
      "queries" := JArr([JObj(QueryEntry(query, quantization, rollup, timeshift))]),
      "timeRange" := TimeRange(from, to)])
  }

  /** Python's `None` for an unset optional parameter. */
  function OrNull<T>(v: Option<T>, wrap: T -> JValue): JValue {
    if v.Some? then wrap(v.value) else JNull
  }

  /** Builds the metrics body as the SDK does: every parameter first, then the
      unset optional ones deleted again. */
  method BuildMetricsQuery(query: string, from: string, to: string,
                           quantization: Option<int>, rollup: Option<string>, timeshift: Option<int>)
    returns (body: JValue)
    ensures body == MetricsRequest(query, from, to, quantization, rollup, timeshift)
    ensures body.JObj? && "queries" in body.members && body.members["queries"].JArr?
    ensures |body.members["queries"].items| == 1 && body.members["queries"].items[0].JObj?
    ensures var entry := body.members["queries"].items[0].members;
      && ("quantization" in entry <==> quantization.Some?)
      && ("rollup" in entry <==> rollup.Some?)
      && ("timeshift" in entry <==> timeshift.Some?)
  {
    var entry: Record := map[
      "rowId" := JStr("A"),
      "query" := JStr(query),
      "quantization" := OrNull(quantization, n => JNum(n)),
      "rollup" := OrNull(rollup, s => JStr(s)),
      "timeshift" := OrNull(timeshift, n => JNum(n))];
    if quantization.None? {
      entry := entry - {"quantization"};
    }
    if rollup.None? {
      entry := entry - {"rollup"};
    }
    if timeshift.None? {
      entry := entry - {"timeshift"};
    }
    assert entry == QueryEntry(query, quantization, rollup, timeshift);
    body := JObj(map["queries" := JArr([JObj(entry)]), "timeRange" := TimeRange(from, to)]);
  }

  // ---------------------------------------------------------------------------
  // Probe polling and field discovery

  /** The probe polling policy over the successive answers of the status endpoint:
      fetch once, then sleep and fetch again while the job is neither done nor
      cancelled, giving up after the second sleep. */
  function ProbePolicy(feed: seq<Status>): (r: Result<Poll, Error>)
    ensures r.Success? ==> 1 <= r.value.fetches <= 2 && r.value.sleeps <= PROBE_MAX_SLEEPS
    ensures r.Success? ==> r.value.fetches <= |feed| && r.value.status == feed[r.value.fetches - 1]
    ensures r.Success? ==> forall j :: 0 <= j < r.value.fetches - 1 ==> !IsTerminal(feed[j])
    ensures r.Success? && IsTerminal(r.value.status) ==> r.value.sleeps == r.value.fetches - 1
    ensures r.Success? && !IsTerminal(r.value.status) ==> r.value.sleeps == PROBE_MAX_SLEEPS
    ensures r.Success? && !IsTerminal(r.value.status) ==> r.value.fetches == 2
    ensures |feed| >= 1 && !IsTerminal(feed[0]) && r.Success? ==> r.value.fetches == 2
    ensures |feed| >= 1 && IsTerminal(feed[0]) ==> r == Success(Poll(feed[0], 1, 0))
    ensures r.Failure? ==> r.error == StatusFeedExhausted && |feed| < 2
    ensures |feed| >= 2 ==> r.Success?
  {
    if |feed| == 0 then Failure(StatusFeedExhausted)
    else if IsTerminal(feed[0]) then Success(Poll(feed[0], 1, 0))
    else if |feed| == 1 then Failure(StatusFeedExhausted)
    else if IsTerminal(feed[1]) then Success(Poll(feed[1], 2, 1))
    else Success(Poll(feed[1], 2, 2))
  }

  /** The probe loop as the SDK runs it. */
  method PollProbe(feed: seq<Status>) returns (r: Result<Poll, Error>)
    ensures r == ProbePolicy(feed)
  {
    if |feed| == 0 {
      return Failure(StatusFeedExhausted);
    }
    var status := feed[0];
    var fetches := 1;
    var count := 0;
    while status.state != DONE
      invariant 1 <= fetches <= |feed| && fetches == count + 1 && count <= 1
      invariant status == feed[fetches - 1]
      invariant forall j :: 0 <= j < fetches - 1 ==> !IsTerminal(feed[j])
      decreases PROBE_MAX_SLEEPS - count
    {
      if status.state == CANCELLED {
        break;
      }
      count := count + 1;  // time.sleep(delay)
      if count == PROBE_MAX_SLEEPS {
        break;
      }
      if fetches == |feed| {
        return Failure(StatusFeedExhausted);
      }
      status := feed[fetches];
      fetches := fetches + 1;
    }
    return Success(Poll(status, fetches, count));
  }

  /** A probe reads result fields once the job is done or still gathering. */
  predicate ProbeUsable(s: Status) {
    s.state == DONE || s.state == GATHERING
  }

  /** Fields of a probe job: the `fields` of its first one-row page when the
      policy ends done or gathering, and none otherwise. */
  function SearchJobFieldsSpec(server: Server, request: SearchJobRequest, queryType: string): (r: Result<seq<FieldDescriptor>, Error>)
    ensures var job := server.submit(request); var poll := ProbePolicy(job.statuses);
      && (r.Failure? <==> poll.Failure?)
      && (poll.Success? && ProbeUsable(poll.value.status) ==> r == Success(job.results(queryType, 1, 0).fields))
      && (poll.Success? && !ProbeUsable(poll.value.status) ==> r == Success([]))
  {
    var job := server.submit(request);
    match ProbePolicy(job.statuses)
    case Failure(e) => Failure(e)
    case Success(poll) =>
      if ProbeUsable(poll.status) then Success(job.results(queryType, 1, 0).fields) else Success([])
  }

  method SearchJobFields(server: Server, query: string, from: string, to: string, timeZone: string,
                         byReceiptTime: bool, autoParsingMode: string, queryType: string)
    returns (r: Result<seq<FieldDescriptor>, Error>)
    ensures r == SearchJobFieldsSpec(server, SearchJobRequest(query, from, to, timeZone, byReceiptTime, autoParsingMode), queryType)
  {
    var fields: seq<FieldDescriptor> := [];
    var job := server.submit(SearchJobRequest(query, from, to, timeZone, byReceiptTime, autoParsingMode));
    var poll := PollProbe(job.statuses);
    if poll.Failure? {
      return Failure(poll.error);
    }
    if poll.value.status.state in [DONE, GATHERING] {
      var response := job.results(queryType, 1, 0);
      fields := response.fields;
    }
    return Success(fields);
  }

  /** The metrics error check: raise on a non-empty error list, otherwise the
      first query result's time series, unchanged. */
  function MetricsQueryFields(response: MetricsResponse): (r: Result<seq<Record>, Error>)
    ensures r.Failure? && r.error.MetricsQueryError? <==> |response.errors| > 0
    ensures r.Failure? && r.error.MetricsQueryError? ==> r.error.errors == response.errors
    ensures r.Success? <==> |response.errors| == 0 && |response.queryResult| > 0
    ensures r.Success? ==> r.value == response.queryResult[0].timeSeries
    ensures |response.errors| == 0 && |response.queryResult| == 0 ==> r == Failure(MissingQueryResult)
  {
    if |response.errors| > 0 then Failure(MetricsQueryError(response.errors))
    else if |response.queryResult| == 0 then Failure(MissingQueryResult)
    else Success(response.queryResult[0].timeSeries)
  }

  /** What the field lookup returns: search-job field descriptors, metrics time
      series, or nothing (`None`) for any other query type. */
  datatype ProbedFields = SearchFields(fields: seq<FieldDescriptor>) | MetricSeries(series: seq<Record>) | NoFields

  function SumologicFieldsSpec(server: Server, query: string, from: string, to: string, timeZone: string,
                               byReceiptTime: bool, autoParsingMode: string, queryType: string,
                               quantization: Option<int>, rollup: Option<string>, timeshift: Option<int>)
    : (r: Result<ProbedFields, Error>)
    ensures IsSearchType(queryType) ==>
      var fields := SearchJobFieldsSpec(server, SearchJobRequest(query, from, to, timeZone, byReceiptTime, autoParsingMode), queryType);
      && (r.Success? <==> fields.Success?)
      && (r.Success? ==> r.value == SearchFields(fields.value))
      && (r.Failure? ==> r.error == fields.error)
    ensures queryType == METRICS ==>
      var series := MetricsQueryFields(server.metrics(MetricsRequest(query, from, to, quantization, rollup, timeshift)));
      && (r.Success? <==> series.Success?)
      && (r.Success? ==> r.value == MetricSeries(series.value))
      && (r.Failure? ==> r.error == series.error)
    ensures !IsQueryType(queryType) ==> r == Success(NoFields)
  {
    if IsSearchType(queryType) then
      match SearchJobFieldsSpec(server, SearchJobRequest(query, from, to, timeZone, byReceiptTime, autoParsingMode), queryType)
      case Failure(e) => Failure(e)
      case Success(fields) => Success(SearchFields(fields))
    else if queryType == METRICS then
      match MetricsQueryFields(server.metrics(MetricsRequest(query, from, to, quantization, rollup, timeshift)))
      case Failure(e) => Failure(e)
      case Success(series) => Success(MetricSeries(series))
    else
      Success(NoFields)
  }

  /** Dispatch of the field lookup on the query type. */
  method SumologicFields(server: Server, query: string, from: string, to: string, timeZone: string,
                         byReceiptTime: bool, autoParsingMode: string, queryType: string,
                         quantization: Option<int>, rollup: Option<string>, timeshift: Option<int>)
    returns (r: Result<ProbedFields, Error>)
    ensures r == SumologicFieldsSpec(server, query, from, to, timeZone, byReceiptTime, autoParsingMode,
                                     queryType, quantization, rollup, timeshift)
  {
    if queryType in [RECORDS, MESSAGES] {
      var fields := SearchJobFields(server, query, from, to, timeZone, byReceiptTime, autoParsingMode, queryType);
      if fields.Failure? {
        return Failure(fields.error);
      }
      return Success(SearchFields(fields.value));
    } else if queryType == METRICS {
      var body := BuildMetricsQuery(query, from, to, quantization, rollup, timeshift);
      var response := server.metrics(body);
      var series := MetricsQueryFields(response);
      if series.Failure? {
        return Failure(series.error);
      }
      return Success(MetricSeries(series.value));
    }
    return Success(NoFields);
  }
}
