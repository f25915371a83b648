/** The values exchanged with the Sumo Logic API, and the abstract server that
    stands for every network call the core makes. */
module Api {
  import opened Wrappers
  import opened Json

  // Search job lifecycle states as the status endpoint reports them.
  const DONE: string := "DONE GATHERING RESULTS"
  const GATHERING: string := "GATHERING RESULTS"
  const CANCELLED: string := "CANCELLED"

  // Supported query types.
  const RECORDS: string := "records"
  const MESSAGES: string := "messages"
  const METRICS: string := "metrics"

  /** The query types that run as an asynchronous search job. */
  predicate IsSearchType(queryType: string) {
    queryType == RECORDS || queryType == MESSAGES
  }

  predicate IsQueryType(queryType: string) {
    IsSearchType(queryType) || queryType == METRICS
  }

  /** A search job status: its state, the numeric counters it reports
      (`recordCount`, `messageCount`, ...) and whether it carries `histogramBuckets`. */
  datatype Status = Status(state: string, counts: map<string, int>, hasHistogram: bool)

  /** The state after which a polling loop stops waiting. */
  predicate IsTerminal(s: Status) {
    s.state == DONE || s.state == CANCELLED
  }

  /** One entry of the `fields` array of a result page. */
  datatype FieldDescriptor = FieldDescriptor(name: string, fieldType: string, keyField: bool)

  /** One element of the `records`/`messages` array of a result page; `values` is its `map`. */
  datatype ResultRow = ResultRow(values: Record)

  /** A result page: the reported fields and the rows under the query type's key. */
  datatype Page = Page(fields: seq<FieldDescriptor>, rows: seq<ResultRow>)

  /** The body of `POST /search/jobs`. */
  datatype SearchJobRequest = SearchJobRequest(
    query: string, from: string, to: string, timeZone: string,
    byReceiptTime: bool, autoParsingMode: string)

  /** The server side of one submitted search job: the answer to each successive
      status fetch, and the result page for a (query type, limit, offset) request. */
  datatype SearchJob = SearchJob(statuses: seq<Status>, results: (string, nat, nat) -> Page)

  /** One element of `queryResult` of a metrics response. */
  datatype QueryResult = QueryResult(timeSeries: seq<Record>)

  /** A metrics response: `errors.errors` and `queryResult`. */
  datatype MetricsResponse = MetricsResponse(errors: seq<JValue>, queryResult: seq<QueryResult>)

  /** Everything the network would answer: the URL the endpoint-discovery request
      was redirected to, the job created for each submitted search, and the
      response to each metrics request body. */
  datatype Server = Server(
    redirectUrl: string,
    submit: SearchJobRequest -> SearchJob,
    metrics: JValue -> MetricsResponse)

  /** What a polling loop ends with: the last status fetched, how many status
      fetches were made and how many times the loop slept. */
  datatype Poll = Poll(status: Status, fetches: nat, sleeps: nat)

  /** The exceptions the core raises. */
  datatype Error =
    | EndpointEndsWithSlash              // "Endpoint should not end with a slash character"
    | MetricsQueryError(errors: seq<JValue>) // "Request error: ..." from the metrics error check
    | MissingKey(key: string)            // a KeyError on a dictionary lookup or `del`
    | MissingQueryResult                 // an IndexError on `queryResult[0]`
    | InvalidQueryType(queryType: string) // the ValueError of stream discovery
    | SchemaFileError(path: string)      // a schema file that cannot be read
    | StatusFeedExhausted                // the job never reaches the awaited state within the feed
}
