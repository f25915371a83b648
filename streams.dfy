/** The search-job stream: unbounded polling of the extraction job, offset
    pagination of its results, merging every row with the metadata columns,
    and the metrics path. */
module Streams {
  import opened Wrappers
  import opened Json
  import opened Api
  import Sdk

  /** Fixed page size of result requests. */
  const PAGE_LIMIT: nat := 10000
  const HISTOGRAM: string := "histogramBuckets"

  // Metadata column names.
  const START_DATE: string := "start_date"
  const END_DATE: string := "end_date"
  const TIME_ZONE: string := "time_zone"
  const EXTRACTED_AT: string := "_SDC_EXTRACTED_AT"
  const BATCHED_AT: string := "_SDC_BATCHED_AT"
  const DELETED_AT: string := "_SDC_DELETED_AT"

  /** The configured extraction window. */
  datatype Window = Window(startDate: string, endDate: string, timeZone: string)

  /** A discovered stream (one configured table). */
  datatype Stream = Stream(
    name: string,
    queryType: string,
    primaryKeys: seq<string>,
    replicationKey: string,
    schema: Schema,
    query: string,
    byReceiptTime: bool,
    autoParsingMode: string,
    quantization: Option<int>,
    rollup: Option<string>,
    timeshift: Option<int>)

  /** A schema type list, such as ["null", "string", "integer"]. */
  type TypeList = seq<string>

  /** A stream schema: `{}`, or an object schema with its properties and,
      when present, its `key_properties`. The `"type": "object"` member every
      object schema carries is implied by `ObjectSchema` and not stored. */
  datatype Schema = EmptySchema | ObjectSchema(properties: map<string, TypeList>, keyProperties: Option<seq<string>>)

  // ---------------------------------------------------------------------------
  // Metadata block and record merge

  /** The metadata columns added to every search-job record; `now` is the one
      timestamp taken per extraction. */
  function CustomColumns(window: Window, now: string): (c: Record)
    ensures c.Keys == {START_DATE, END_DATE, TIME_ZONE, EXTRACTED_AT, BATCHED_AT, DELETED_AT}
    ensures c[START_DATE] == JStr(window.startDate) && c[END_DATE] == JStr(window.endDate)
    ensures c[TIME_ZONE] == JStr(window.timeZone)
    ensures c[EXTRACTED_AT] == c[BATCHED_AT] == JStr(now)
    ensures c[DELETED_AT] == JNull
  {
    map[
      START_DATE := JStr(window.startDate),
      END_DATE := JStr(window.endDate),
      TIME_ZONE := JStr(window.timeZone),
      EXTRACTED_AT := JStr(now),
      BATCHED_AT := JStr(now),
      DELETED_AT := JNull]
  }

  /** `{**row, **custom}`: every key of either, the metadata winning on a clash. */
  function Merge(row: Record, custom: Record): (r: Record)
    ensures r.Keys == row.Keys + custom.Keys
    ensures forall k :: k in custom ==> r[k] == custom[k]
    ensures forall k :: k in row && k !in custom ==> r[k] == row[k]
  {
    row + custom
  }

  /** One output record per row of a page, in row order. */
  function ShapeRows(rows: seq<ResultRow>, custom: Record): (out: seq<Record>)
    ensures |out| == |rows|
    ensures forall i :: 0 <= i < |rows| ==> out[i] == Merge(rows[i].values, custom)
  {
    seq(|rows|, i requires 0 <= i < |rows| => Merge(rows[i].values, custom))
  }

  // ---------------------------------------------------------------------------
  // Extraction polling

  /** The extraction loop from the moment status `i` has been fetched: it waits
      (without any bound of its own) until the job is done or cancelled; each
      status fetched inside the loop must carry `histogramBuckets`, which the
      loop deletes. */
  function ExtractionFrom(feed: seq<Status>, i: nat): (r: Result<Poll, Error>)
    requires i < |feed|
    decreases |feed| - i
    ensures r.Success? ==> i < r.value.fetches <= |feed| && r.value.status == feed[r.value.fetches - 1]
    ensures r.Success? ==> IsTerminal(r.value.status) && r.value.sleeps == r.value.fetches - 1
    ensures r.Success? ==> forall j :: i <= j < r.value.fetches - 1 ==> !IsTerminal(feed[j])
    ensures r.Success? ==> forall j :: i < j < r.value.fetches ==> feed[j].hasHistogram
    ensures r == Failure(StatusFeedExhausted) ==>
      forall j :: i <= j < |feed| ==> !IsTerminal(feed[j]) && (j > i ==> feed[j].hasHistogram)
    ensures r.Failure? ==> r.error == StatusFeedExhausted || r.error == MissingKey(HISTOGRAM)
  {
    if IsTerminal(feed[i]) then Success(Poll(feed[i], i + 1, i))
    else if i + 1 == |feed| then Failure(StatusFeedExhausted)
    else if !feed[i + 1].hasHistogram then Failure(MissingKey(HISTOGRAM))
    else ExtractionFrom(feed, i + 1)
  }

  /** The KeyError is raised only when a status fetched inside the loop,
      before any done or cancelled one, lacks `histogramBuckets`. */
  lemma {:induction false} ExtractionKeyErrorNeedsMissingHistogram(feed: seq<Status>, i: nat)
    requires i < |feed|
    ensures ExtractionFrom(feed, i) == Failure(MissingKey(HISTOGRAM)) ==>
      exists j :: i < j < |feed| && !feed[j].hasHistogram && forall k :: i <= k < j ==> !IsTerminal(feed[k])
    decreases |feed| - i
  {
    if !IsTerminal(feed[i]) && i + 1 < |feed| {
      if feed[i + 1].hasHistogram {
        ExtractionKeyErrorNeedsMissingHistogram(feed, i + 1);
      } else {
        assert forall k :: i <= k < i + 1 ==> !IsTerminal(feed[k]);
      }
    }
  }

  /** The extraction polling policy over the successive status answers. */
  function ExtractionPolicy(feed: seq<Status>): Result<Poll, Error> {
    if |feed| == 0 then Failure(StatusFeedExhausted) else ExtractionFrom(feed, 0)
  }

  /** The only way out of extraction polling is a done or cancelled state,
      reached at the first such status, after one sleep per non-terminal one. */
  lemma ExtractionPolicyExits(feed: seq<Status>)
    ensures var r := ExtractionPolicy(feed);
      && (r.Success? ==> IsTerminal(r.value.status) && r.value.status == feed[r.value.fetches - 1])
      && (r.Success? ==> r.value.sleeps == r.value.fetches - 1)
      && (r.Success? ==> forall j :: 0 <= j < r.value.fetches - 1 ==> !IsTerminal(feed[j]))
      && (r == Failure(StatusFeedExhausted) ==> forall j :: 0 <= j < |feed| ==> !IsTerminal(feed[j]))
  {
  }

  /** A feed whose statuses all carry `histogramBuckets` and that reaches a
      terminal state leads to a successful poll ending at the first one. */
  lemma {:induction false} ExtractionReachesFirstTerminal(feed: seq<Status>, i: nat, k: nat)
    requires i <= k < |feed| && IsTerminal(feed[k])
    requires forall j :: i <= j < k ==> !IsTerminal(feed[j])
    requires forall j :: i < j <= k ==> feed[j].hasHistogram
    ensures ExtractionFrom(feed, i) == Success(Poll(feed[k], k + 1, k))
    decreases k - i
  {
    if i < k {
      ExtractionReachesFirstTerminal(feed, i + 1, k);
    }
  }

  /** The polling loop of the extraction as the stream runs it. */
  method PollExtraction(feed: seq<Status>) returns (r: Result<Poll, Error>)
    ensures r == ExtractionPolicy(feed)
  {
    if |feed| == 0 {
      return Failure(StatusFeedExhausted);
    }
    var status := feed[0];
    var fetches := 1;
    while status.state != DONE
      invariant 1 <= fetches <= |feed|
      invariant status == feed[fetches - 1]
      invariant ExtractionFrom(feed, fetches - 1) == ExtractionFrom(feed, 0)
      decreases |feed| - fetches
    {
      if status.state == CANCELLED {
        break;
      }
      // time.sleep(delay)
      if fetches == |feed| {
        return Failure(StatusFeedExhausted);
      }
      status := feed[fetches];
      fetches := fetches + 1;
      if !status.hasHistogram {
        return Failure(MissingKey(HISTOGRAM));
      }
    }
    return Success(Poll(status, fetches, fetches - 1));
  }

  /** `query_type[:-1] + "Count"`: the status counter holding the result total. */
  function CountKey(queryType: string): (key: string)
    ensures |queryType| > 0 ==> |key| == |queryType| + 4 && key[..|queryType| - 1] == queryType[..|queryType| - 1]
    ensures |key| >= 5 && key[|key| - 5..] == "Count"
  {
    (if |queryType| == 0 then "" else queryType[..|queryType| - 1]) + "Count"
  }

  lemma CountKeysOfSearchTypes()
    ensures CountKey(RECORDS) == "recordCount"
    ensures CountKey(MESSAGES) == "messageCount"
  {
    assert RECORDS[..|RECORDS| - 1] == "record";
    assert MESSAGES[..|MESSAGES| - 1] == "message";
  }

  // ---------------------------------------------------------------------------
  // Pagination

  /** What the pagination loop produced: the records and the offset of every page request. */
  datatype Pagination = Pagination(records: seq<Record>, offsets: seq<nat>)

  /** Requests from `offset` on: while the offset is below the total, fetch a
      page there, shape its rows and advance by the number of rows; an empty
      page ends the walk. */
  function Paginated(results: (string, nat, nat) -> Page, queryType: string, offset: nat, total: int, custom: Record)
    : Pagination
    decreases total - offset
  {
    if offset >= total then Pagination([], [])
    else
      var rows := results(queryType, PAGE_LIMIT, offset).rows;
      if |rows| == 0 then Pagination([], [offset])
      else
        var rest := Paginated(results, queryType, offset + |rows|, total, custom);
        Pagination(ShapeRows(rows, custom) + rest.records, [offset] + rest.offsets)
  }

  /** Number of rows a page request returns. */
  function RowsAt(results: (string, nat, nat) -> Page, queryType: string, offset: nat): nat {
    |results(queryType, PAGE_LIMIT, offset).rows|
  }

  /** The shape of a list of page requests made from `offset` on: the first at
      `offset`, each later one at the previous offset plus the rows it returned,
      every one below the total, every page but the last non-empty, and the last
      one either empty or reaching the total. */
  predicate RequestShape(results: (string, nat, nat) -> Page, queryType: string, offset: nat, total: int, offs: seq<nat>) {
    && (offset >= total <==> offs == [])
    && (offset < total ==> offs[0] == offset)
    && (forall i :: 0 <= i < |offs| ==> offset <= offs[i] < total)
    && (forall i :: 0 < i < |offs| ==> offs[i] == offs[i - 1] + RowsAt(results, queryType, offs[i - 1]))
    && (forall i :: 0 <= i < |offs| - 1 ==> RowsAt(results, queryType, offs[i]) > 0)
    && (|offs| > 0 ==>
          var last := offs[|offs| - 1];
          RowsAt(results, queryType, last) == 0 || last + RowsAt(results, queryType, last) >= total)
  }

  /** A non-empty page at `offset`, followed by well-shaped requests from the
      next offset, is a well-shaped list of requests from `offset`. */
  lemma RequestShapeCons(results: (string, nat, nat) -> Page, queryType: string, offset: nat, total: int, rest: seq<nat>)
    requires offset < total && RowsAt(results, queryType, offset) > 0
    requires RequestShape(results, queryType, offset + RowsAt(results, queryType, offset), total, rest)
    ensures RequestShape(results, queryType, offset, total, [offset] + rest)
  {
    var n := RowsAt(results, queryType, offset);
    var offs := [offset] + rest;
    forall i | 0 < i < |offs|
      ensures offs[i] == offs[i - 1] + RowsAt(results, queryType, offs[i - 1])
    {
      if i == 1 {
        assert rest != [] && rest[0] == offset + n;
      } else {
        assert offs[i] == rest[i - 1] && offs[i - 1] == rest[i - 2];
      }
    }
    forall i | 0 <= i < |offs|
      ensures offset <= offs[i] < total
    {
      if i > 0 {
        assert offs[i] == rest[i - 1];
      }
    }
    forall i | 0 <= i < |offs| - 1
      ensures RowsAt(results, queryType, offs[i]) > 0
    {
      if i > 0 {
        assert offs[i] == rest[i - 1];
      }
    }
    if rest != [] {
      assert offs[|offs| - 1] == rest[|rest| - 1];
    }
  }

  /** The page requests of the pagination loop have the shape above. */
  lemma {:induction false} PaginationRequests(results: (string, nat, nat) -> Page, queryType: string, offset: nat, total: int, custom: Record)
    ensures RequestShape(results, queryType, offset, total, Paginated(results, queryType, offset, total, custom).offsets)
    decreases total - offset
  {
    if offset < total {
      var n := RowsAt(results, queryType, offset);
      if n > 0 {
        PaginationRequests(results, queryType, offset + n, total, custom);
        var rest := Paginated(results, queryType, offset + n, total, custom).offsets;
        assert Paginated(results, queryType, offset, total, custom).offsets == [offset] + rest;
        RequestShapeCons(results, queryType, offset, total, rest);
      }
    }
  }

  /** Offsets strictly increase from one request to the next. */
  lemma PaginationOffsetsIncrease(results: (string, nat, nat) -> Page, queryType: string, total: int, custom: Record)
    ensures var offs := Paginated(results, queryType, 0, total, custom).offsets;
      forall i :: 0 < i < |offs| ==> offs[i - 1] < offs[i]
  {
    PaginationRequests(results, queryType, 0, total, custom);
  }

  /** The shaped rows of the pages at the given offsets, page after page. */
  function ShapedPages(results: (string, nat, nat) -> Page, queryType: string, offsets: seq<nat>, custom: Record): seq<Record> {
    if offsets == [] then []
    else ShapeRows(results(queryType, PAGE_LIMIT, offsets[0]).rows, custom) + ShapedPages(results, queryType, offsets[1..], custom)
  }

  /** Total rows of the pages at the given offsets. */
  function RowsIn(results: (string, nat, nat) -> Page, queryType: string, offsets: seq<nat>): nat {
    if offsets == [] then 0 else RowsAt(results, queryType, offsets[0]) + RowsIn(results, queryType, offsets[1..])
  }

  /** Records follow the requested pages, then their rows. */
  lemma {:induction false} PaginationRecordsFollowPages(results: (string, nat, nat) -> Page, queryType: string, offset: nat, total: int, custom: Record)
    ensures var p := Paginated(results, queryType, offset, total, custom);
      p.records == ShapedPages(results, queryType, p.offsets, custom)
    decreases total - offset
  {
    var p := Paginated(results, queryType, offset, total, custom);
    if offset < total {
      var rows := results(queryType, PAGE_LIMIT, offset).rows;
      if |rows| > 0 {
        PaginationRecordsFollowPages(results, queryType, offset + |rows|, total, custom);
        assert p.offsets[1..] == Paginated(results, queryType, offset + |rows|, total, custom).offsets;
      } else {
        assert p.offsets[1..] == [];
      }
    }
  }

  /** The output has exactly as many records as the requested pages have rows. */
  lemma {:induction false} ShapedPagesLength(results: (string, nat, nat) -> Page, queryType: string, offsets: seq<nat>, custom: Record)
    ensures |ShapedPages(results, queryType, offsets, custom)| == RowsIn(results, queryType, offsets)
  {
    if offsets != [] {
      ShapedPagesLength(results, queryType, offsets[1..], custom);
    }
  }

  /** In every shaped record the metadata columns are present with their own values. */
  lemma {:induction false} ShapedPagesCarryMetadata(results: (string, nat, nat) -> Page, queryType: string, offsets: seq<nat>, custom: Record)
    ensures forall rec :: rec in ShapedPages(results, queryType, offsets, custom) ==>
      forall k :: k in custom ==> k in rec && rec[k] == custom[k]
  {
    if offsets != [] {
      ShapedPagesCarryMetadata(results, queryType, offsets[1..], custom);
      var rows := results(queryType, PAGE_LIMIT, offsets[0]).rows;
      var head := ShapeRows(rows, custom);
      var tail := ShapedPages(results, queryType, offsets[1..], custom);
      forall rec | rec in head + tail
        ensures forall k :: k in custom ==> k in rec && rec[k] == custom[k]
      {
        if rec in head {
          var i :| 0 <= i < |head| && head[i] == rec;
          assert rec == Merge(rows[i].values, custom);
        } else {
          assert rec in tail;
        }
      }
    }
  }

  /** The row loop: append one merged record per row, in order. */
  method AppendShaped(records: seq<Record>, rows: seq<ResultRow>, custom: Record) returns (out: seq<Record>)
    ensures out == records + ShapeRows(rows, custom)
  {
    out := records;
    var j := 0;
    while j < |rows|
      invariant 0 <= j <= |rows|
      invariant out == records + ShapeRows(rows[..j], custom)
    {
      out := out + [Merge(rows[j].values, custom)];
      j := j + 1;
      assert ShapeRows(rows[..j], custom) == ShapeRows(rows[..j - 1], custom) + [Merge(rows[j - 1].values, custom)];
    }
    assert rows[..|rows|] == rows;
  }

  /** One step of the pagination loop keeps the accumulated records and offsets
      a prefix of the whole walk. */
  lemma PaginationStep(results: (string, nat, nat) -> Page, queryType: string, count: nat, total: int, custom: Record,
                       records: seq<Record>, offsets: seq<nat>, whole: Pagination)
    requires count < total
    requires records + Paginated(results, queryType, count, total, custom).records == whole.records
    requires offsets + Paginated(results, queryType, count, total, custom).offsets == whole.offsets
    ensures var rows := results(queryType, PAGE_LIMIT, count).rows;
      && (|rows| == 0 ==> records + ShapeRows(rows, custom) == whole.records && offsets + [count] == whole.offsets)
      && (|rows| > 0 ==>
            var next := Paginated(results, queryType, count + |rows|, total, custom);
            && (records + ShapeRows(rows, custom)) + next.records == whole.records
            && (offsets + [count]) + next.offsets == whole.offsets)
  {
    var rows := results(queryType, PAGE_LIMIT, count).rows;
    if |rows| == 0 {
      assert ShapeRows(rows, custom) == [];
    } else {
      var next := Paginated(results, queryType, count + |rows|, total, custom);
      assert records + (ShapeRows(rows, custom) + next.records) == (records + ShapeRows(rows, custom)) + next.records;
      assert offsets + ([count] + next.offsets) == (offsets + [count]) + next.offsets;
    }
  }

  /** The pagination loop, with the row loop nested in it. */
  method Paginate(results: (string, nat, nat) -> Page, queryType: string, total: int, custom: Record)
    returns (records: seq<Record>, offsets: seq<nat>)
    ensures Pagination(records, offsets) == Paginated(results, queryType, 0, total, custom)
  {
    ghost var whole := Paginated(results, queryType, 0, total, custom);
    records, offsets := [], [];
    var count: nat := 0;
    while count < total
      invariant records + Paginated(results, queryType, count, total, custom).records == whole.records
      invariant offsets + Paginated(results, queryType, count, total, custom).offsets == whole.offsets
      decreases total - count
    {
      var recs := results(queryType, PAGE_LIMIT, count).rows;
      PaginationStep(results, queryType, count, total, custom, records, offsets, whole);
      offsets := offsets + [count];
      records := AppendShaped(records, recs, custom);
      if |recs| > 0 {
        count := count + |recs|;
      } else {
        break;
      }
    }
  }

  // ---------------------------------------------------------------------------
  // The stream's record extraction

  /** The search job a stream submits. */
  function JobRequest(stream: Stream, window: Window): SearchJobRequest {
    SearchJobRequest(stream.query, window.startDate, window.endDate, window.timeZone,
                     stream.byReceiptTime, stream.autoParsingMode)
  }

  /** What an extraction produced: its records and the offsets of the page requests. */
  datatype Run = Run(records: seq<Record>, offsets: seq<nat>)

  /** The whole extraction of a stream, as a function of the server's answers.
      The metrics path has no error check. */
  function Extraction(stream: Stream, window: Window, now: string, server: Server): Result<Run, Error> {
    var custom := CustomColumns(window, now);
    if IsSearchType(stream.queryType) then
      var job := server.submit(JobRequest(stream, window));
      match ExtractionPolicy(job.statuses)
      case Failure(e) => Failure(e)
      case Success(poll) =>
        if poll.status.state != DONE then Success(Run([], []))
        else
          var key := CountKey(stream.queryType);
          if key !in poll.status.counts then Failure(MissingKey(key))
          else
            var p := Paginated(job.results, stream.queryType, 0, poll.status.counts[key], custom);
            Success(Run(p.records, p.offsets))
    else if stream.queryType == METRICS then
      var response := server.metrics(Sdk.MetricsRequest(stream.query, window.startDate, window.endDate,
                                                        stream.quantization, stream.rollup, stream.timeshift));
      if |response.queryResult| == 0 then Failure(MissingQueryResult)
      else Success(Run(response.queryResult[0].timeSeries, []))
    else
      Success(Run([], []))
  }

  /** `get_records`: the full list is built before anything is yielded, so an
      error leaves nothing emitted. */
  method GetRecords(stream: Stream, window: Window, now: string, server: Server) returns (r: Result<Run, Error>)
    ensures r == Extraction(stream, window, now, server)
  {
    var records: seq<Record> := [];
    var offsets: seq<nat> := [];
    var custom := CustomColumns(window, now);
    if stream.queryType in [MESSAGES, RECORDS] {
      var job := server.submit(JobRequest(stream, window));
      var poll := PollExtraction(job.statuses);
      if poll.Failure? {
        return Failure(poll.error);
      }
      var status := poll.value.status;
      if status.state == DONE {
        var key := CountKey(stream.queryType);
        if key !in status.counts {
          return Failure(MissingKey(key));
        }
        records, offsets := Paginate(job.results, stream.queryType, status.counts[key], custom);
      }
    } else if stream.queryType == METRICS {
      var body := Sdk.BuildMetricsQuery(stream.query, window.startDate, window.endDate,
                                        stream.quantization, stream.rollup, stream.timeshift);
      var response := server.metrics(body);
      if |response.queryResult| == 0 {
        return Failure(MissingQueryResult);
      }
      records := response.queryResult[0].timeSeries;
    }
    // `for row in records: yield row`: the rows are handed out one by one, in
    // list order, only once the whole list has been built.
    var yielded: seq<Record> := [];
    for i := 0 to |records|
      invariant yielded == records[..i]
    {
      yielded := yielded + [records[i]];
    }
    assert records[..|records|] == records;
    return Success(Run(yielded, offsets));
  }

  // ---------------------------------------------------------------------------
  // Properties of the extraction

  /** A cancelled job yields no record, requests no page and raises nothing. */
  lemma CancelledJobYieldsNothing(stream: Stream, window: Window, now: string, server: Server)
    requires IsSearchType(stream.queryType)
    requires var poll := ExtractionPolicy(server.submit(JobRequest(stream, window)).statuses);
      poll.Success? && poll.value.status.state == CANCELLED
    ensures Extraction(stream, window, now, server) == Success(Run([], []))
  {
  }

  /** Pages are requested only after the job reached DONE, and only for search queries. */
  lemma PagesOnlyWhenDone(stream: Stream, window: Window, now: string, server: Server)
    requires var r := Extraction(stream, window, now, server); r.Success? && |r.value.offsets| > 0
    ensures IsSearchType(stream.queryType)
    ensures var poll := ExtractionPolicy(server.submit(JobRequest(stream, window)).statuses);
      poll.Success? && poll.value.status.state == DONE
  {
  }

  /** A done search job's records are its requested pages' rows, each merged with
      the metadata block (metadata winning), in page then row order; the first
      request is at offset 0 and their number of records is the sum of the page sizes. */
  lemma {:induction false} SearchRecordsAreShapedPages(stream: Stream, window: Window, now: string, server: Server)
    requires IsSearchType(stream.queryType)
    requires Extraction(stream, window, now, server).Success?
    ensures var job := server.submit(JobRequest(stream, window));
      var run := Extraction(stream, window, now, server).value;
      var custom := CustomColumns(window, now);
      && run.records == ShapedPages(job.results, stream.queryType, run.offsets, custom)
      && |run.records| == RowsIn(job.results, stream.queryType, run.offsets)
      && (|run.offsets| > 0 ==> run.offsets[0] == 0)
      && (forall rec :: rec in run.records ==> forall k :: k in custom ==> k in rec && rec[k] == custom[k])
  {
    var job := server.submit(JobRequest(stream, window));
    var custom := CustomColumns(window, now);
    var run := Extraction(stream, window, now, server).value;
    var poll := ExtractionPolicy(job.statuses);
    if poll.value.status.state == DONE {
      var total := poll.value.status.counts[CountKey(stream.queryType)];
      PaginationRecordsFollowPages(job.results, stream.queryType, 0, total, custom);
      PaginationRequests(job.results, stream.queryType, 0, total, custom);
    }
    ShapedPagesLength(job.results, stream.queryType, run.offsets, custom);
    ShapedPagesCarryMetadata(job.results, stream.queryType, run.offsets, custom);
  }

  /** The metrics path yields the first query result's time series as they are,
      whatever the response's error list holds. */
  lemma MetricsYieldTimeSeriesVerbatim(stream: Stream, window: Window, now: string, server: Server)
    requires stream.queryType == METRICS
    ensures var response := server.metrics(Sdk.MetricsRequest(stream.query, window.startDate, window.endDate,
                                                              stream.quantization, stream.rollup, stream.timeshift));
      && (|response.queryResult| > 0 ==>
            Extraction(stream, window, now, server) == Success(Run(response.queryResult[0].timeSeries, [])))
      && (|response.queryResult| == 0 ==> Extraction(stream, window, now, server) == Failure(MissingQueryResult))
  {
  }

  /** Unlike the schema probe's error check, extraction yields the series of a
      metrics response that reports errors. */
  lemma MetricsErrorsNotChecked(stream: Stream, window: Window, now: string, server: Server)
    requires stream.queryType == METRICS
    requires var response := server.metrics(Sdk.MetricsRequest(stream.query, window.startDate, window.endDate,
                                                               stream.quantization, stream.rollup, stream.timeshift));
      |response.errors| > 0 && |response.queryResult| > 0
    ensures Extraction(stream, window, now, server).Success?
    ensures Sdk.MetricsQueryFields(server.metrics(Sdk.MetricsRequest(stream.query, window.startDate, window.endDate,
                                                                     stream.quantization, stream.rollup, stream.timeshift))).Failure?
  {
  }

  /** An unsupported query type yields nothing and raises nothing. */
  lemma UnsupportedQueryTypeYieldsNothing(stream: Stream, window: Window, now: string, server: Server)
    requires !IsQueryType(stream.queryType)
    ensures Extraction(stream, window, now, server) == Success(Run([], []))
  {
  }

  /** Statuses GATHERING, GATHERING, CANCELLED: no record and no error. */
  lemma GatheringThenCancelledScenario(stream: Stream, window: Window, now: string, server: Server)
    requires IsSearchType(stream.queryType)
    requires server.submit(JobRequest(stream, window)).statuses ==
      [Status(GATHERING, map[], true), Status(GATHERING, map[], true), Status(CANCELLED, map[], true)]
    ensures Extraction(stream, window, now, server) == Success(Run([], []))
  {
    var feed := server.submit(JobRequest(stream, window)).statuses;
    ExtractionReachesFirstTerminal(feed, 0, 2);
  }

  /** A done job reporting 15 records, whose first page returns all 15 rows: one
      request at offset 0 and 15 records. */
  lemma SinglePageScenario(stream: Stream, window: Window, now: string, server: Server)
    requires stream.queryType == RECORDS
    requires var job := server.submit(JobRequest(stream, window));
      && job.statuses == [Status(DONE, map["recordCount" := 15], true)]
      && |job.results(RECORDS, PAGE_LIMIT, 0).rows| == 15
    ensures var r := Extraction(stream, window, now, server);
      r.Success? && r.value.offsets == [0] && |r.value.records| == 15
  {
    CountKeysOfSearchTypes();
    var job := server.submit(JobRequest(stream, window));
    var custom := CustomColumns(window, now);
    assert Paginated(job.results, RECORDS, 15, 15, custom) == Pagination([], []);
  }
}
