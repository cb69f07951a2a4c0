/** The v3 streams report endpoint: resolve each requested stream id, then
    fetch each requested metric for every stream that resolved, and answer
    with one body or, on any database error, with no body at all.

    The database is abstracted as `Pool`: the `youtube_streams` table as a map
    from stream id to its row, the `youtube_stream_viewer_statistic` table as a
    map from stream id to its rows in stored order, and two sets naming the ids
    for which the lookup query, resp. the viewer query, fails. */
module StreamsReportV3 {
  import opened Wrappers
  import opened StrSplit

  /** Rust `i32`. */
  newtype i32 = x: int | -0x8000_0000 <= x < 0x8000_0000

  /** A `DateTime<Utc>`, as an instant on an integer time line. */
  type Timestamp = int

  /** One point of a metric's time series. */
  datatype Row = Row(time: Timestamp, value: i32)

  /** A row of `youtube_streams`. */
  datatype Stream = Stream(
    streamId: string,
    title: string,
    vtuberId: string,
    thumbnailUrl: Option<string>,
    scheduleTime: Option<Timestamp>,
    startTime: Option<Timestamp>,
    endTime: Option<Timestamp>,
    averageViewerCount: Option<i32>,
    maxViewerCount: Option<i32>,
    updatedAt: Timestamp)

  /** One metric's series for one stream. */
  datatype StreamsReport = StreamsReport(id: string, kind: string, rows: seq<Row>)

  datatype ResponseBody = ResponseBody(streams: seq<Stream>, reports: seq<StreamsReport>)

  /** The query string: comma-separated ids and metrics, optional bounds. */
  datatype RequestQuery = RequestQuery(
    ids: string,
    metrics: string,
    startAt: Option<Timestamp>,
    endAt: Option<Timestamp>)

  /** `Error::Database`: a query that did not complete. */
  datatype Error = Database

  datatype Pool = Pool(
    youtubeStreams: map<string, Stream>,
    viewerStatistic: map<string, seq<Row>>,
    failingStreamLookups: set<string>,
    failingViewerFetches: set<string>)

  /** The only metric name the endpoint knows. */
  const ViewerKind: string := "youtube_stream_viewer"

  /** The lookup of one stream: an error, or the row if there is one. */
  function FetchStream(pool: Pool, id: string): (r: Result<Option<Stream>, Error>)
    ensures r.Failure? <==> id in pool.failingStreamLookups
    ensures r.Success? ==> (r.value.Some? <==> id in pool.youtubeStreams)
    ensures r.Success? && r.value.Some? ==> r.value.value == pool.youtubeStreams[id]
  {
    if id in pool.failingStreamLookups then Failure(Database)
    else if id in pool.youtubeStreams then Success(Some(pool.youtubeStreams[id]))
    else Success(None)
  }

  /** The stored viewer rows of a stream, in stored order. */
  function StoredViewerRows(pool: Pool, id: string): seq<Row>
  {
    if id in pool.viewerStatistic then pool.viewerStatistic[id] else []
  }

  /** At or after `startAt` when it is given, and at or before `endAt` when it is given. */
  predicate InWindow(t: Timestamp, startAt: Option<Timestamp>, endAt: Option<Timestamp>)
  {
    (startAt.None? || startAt.value <= t) && (endAt.None? || t <= endAt.value)
  }

  /** The rows that fall inside the window, in the order given. */
  function FilterWindow(rows: seq<Row>, startAt: Option<Timestamp>, endAt: Option<Timestamp>): (r: seq<Row>)
    ensures |r| <= |rows|
    ensures forall k :: 0 <= k < |r| ==> r[k] in rows && InWindow(r[k].time, startAt, endAt)
  {
    if rows == [] then []
    else
      var init := FilterWindow(rows[..|rows| - 1], startAt, endAt);
      var last := rows[|rows| - 1];
      if InWindow(last.time, startAt, endAt) then init + [last] else init
  }

  /** The `youtube_stream_viewer` metric of one stream over the window. */
  function YoutubeStreamViewer(id: string, startAt: Option<Timestamp>, endAt: Option<Timestamp>, pool: Pool)
    : (r: Result<StreamsReport, Error>)
    ensures r.Failure? <==> id in pool.failingViewerFetches
    ensures r.Success? ==> r.value.id == id && r.value.kind == ViewerKind
    ensures r.Success? ==> forall x :: x in r.value.rows <==> x in StoredViewerRows(pool, id) && InWindow(x.time, startAt, endAt)
    ensures r.Success? ==> r.value.rows == FilterWindow(StoredViewerRows(pool, id), startAt, endAt)
  {
    if id in pool.failingViewerFetches then Failure(Database)
    else
      FilterWindowExact(StoredViewerRows(pool, id), startAt, endAt);
      Success(ViewerReport(pool, id, startAt, endAt))
  }

  // ---------------------------------------------------------------------
  // The response in closed form: what the handler's loops must produce.

  /** The report of one resolved stream when its viewer query succeeds. */
  function ViewerReport(pool: Pool, id: string, startAt: Option<Timestamp>, endAt: Option<Timestamp>): StreamsReport
  {
    StreamsReport(id, ViewerKind, FilterWindow(StoredViewerRows(pool, id), startAt, endAt))
  }

  /** The reports one resolved stream contributes: one per occurrence of the
      viewer metric name, in metric order; other names contribute nothing. */
  function ReportsFor(pool: Pool, id: string, metrics: seq<string>, startAt: Option<Timestamp>, endAt: Option<Timestamp>)
    : seq<StreamsReport>
  {
    if metrics == [] then []
    else
      var init := ReportsFor(pool, id, metrics[..|metrics| - 1], startAt, endAt);
      if metrics[|metrics| - 1] == ViewerKind then init + [ViewerReport(pool, id, startAt, endAt)] else init
  }

  /** The streams of the requested ids that resolve, in request order. */
  function ResolvedStreams(pool: Pool, ids: seq<string>): seq<Stream>
  {
    if ids == [] then []
    else
      var init := ResolvedStreams(pool, ids[..|ids| - 1]);
      var id := ids[|ids| - 1];
      if id in pool.youtubeStreams then init + [pool.youtubeStreams[id]] else init
  }

  /** All reports, id-outer and metric-inner; unresolved ids contribute nothing. */
  function AllReports(pool: Pool, ids: seq<string>, metrics: seq<string>, startAt: Option<Timestamp>, endAt: Option<Timestamp>)
    : seq<StreamsReport>
  {
    if ids == [] then []
    else
      var init := AllReports(pool, ids[..|ids| - 1], metrics, startAt, endAt);
      var id := ids[|ids| - 1];
      if id in pool.youtubeStreams then init + ReportsFor(pool, id, metrics, startAt, endAt) else init
  }

  /** Whether some query the handler issues for `id` fails. */
  predicate IdFails(pool: Pool, id: string, metrics: seq<string>)
  {
    id in pool.failingStreamLookups
    || (id in pool.youtubeStreams && ViewerKind in metrics && id in pool.failingViewerFetches)
  }

  predicate AnyFails(pool: Pool, ids: seq<string>, metrics: seq<string>)
  {
    exists k :: 0 <= k < |ids| && IdFails(pool, ids[k], metrics)
  }

  // ---------------------------------------------------------------------
  // The handler.

  /** `streams_report`: any database error aborts the whole request; otherwise
      the body holds the resolved streams and their reports. */
  method HandleStreamsReport(query: RequestQuery, pool: Pool) returns (r: Result<ResponseBody, Error>)
    ensures var ids := Split(query.ids, ','); var metrics := Split(query.metrics, ',');
      r.Failure? <==> AnyFails(pool, ids, metrics)
    ensures var ids := Split(query.ids, ','); var metrics := Split(query.metrics, ',');
      r.Success? ==> r.value == ResponseBody(
        ResolvedStreams(pool, ids),
        AllReports(pool, ids, metrics, query.startAt, query.endAt))
  {
    var ids := Split(query.ids, ',');
    var metrics := Split(query.metrics, ',');
    var streams: seq<Stream> := [];
    var reports: seq<StreamsReport> := [];
    for i := 0 to |ids|
      invariant streams == ResolvedStreams(pool, ids[..i])
      invariant reports == AllReports(pool, ids[..i], metrics, query.startAt, query.endAt)
      invariant !AnyFails(pool, ids[..i], metrics)
    {
      var id := ids[i];
      PrefixStep(ids, i);
      if id in pool.failingStreamLookups {
        FailureWitness(pool, ids, metrics, i);
      }
      var stream :- FetchStream(pool, id);
      if stream.Some? {
        streams := streams + [stream.value];
        ghost var before := reports;
        for j := 0 to |metrics|
          invariant reports == before + ReportsFor(pool, id, metrics[..j], query.startAt, query.endAt)
          invariant ViewerKind in metrics[..j] ==> id !in pool.failingViewerFetches
        {
          PrefixStep(metrics, j);
          if metrics[j] == ViewerKind && id in pool.failingViewerFetches {
            FailureWitness(pool, ids, metrics, i);
          }
          match metrics[j]
          case "youtube_stream_viewer" =>
            var report :- YoutubeStreamViewer(id, query.startAt, query.endAt, pool);
            reports := reports + [report];
          case _ =>
        }
        assert metrics[..|metrics|] == metrics;
      }
      assert !IdFails(pool, id, metrics);
      NoFailureStep(pool, ids, metrics, i);
    }
    assert ids[..|ids|] == ids;
    return Success(ResponseBody(streams, reports));
  }

  lemma PrefixStep<T>(s: seq<T>, i: nat)
    requires i < |s|
    ensures s[..i + 1] == s[..i] + [s[i]]
  {
  }

  lemma FailureWitness(pool: Pool, ids: seq<string>, metrics: seq<string>, i: nat)
    requires i < |ids| && IdFails(pool, ids[i], metrics)
    ensures AnyFails(pool, ids, metrics)
  {
  }

  lemma NoFailureStep(pool: Pool, ids: seq<string>, metrics: seq<string>, i: nat)
    requires i < |ids| && !AnyFails(pool, ids[..i], metrics) && !IdFails(pool, ids[i], metrics)
    ensures !AnyFails(pool, ids[..i + 1], metrics)
  {
    assert forall k :: 0 <= k < i + 1 ==> ids[..i + 1][k] == if k < i then ids[..i][k] else ids[i];
  }

  // ---------------------------------------------------------------------
  // Properties of the window filter.

  /** A row survives the filter exactly when it is stored and inside the window. */
  lemma {:induction false} FilterWindowMembership(rows: seq<Row>, startAt: Option<Timestamp>, endAt: Option<Timestamp>, x: Row)
    ensures x in FilterWindow(rows, startAt, endAt) <==> x in rows && InWindow(x.time, startAt, endAt)
  {
    if rows != [] {
      var init := rows[..|rows| - 1];
      FilterWindowMembership(init, startAt, endAt, x);
      assert rows == init + [rows[|rows| - 1]];
    }
  }

  /** FilterWindowMembership for every row at once. */
  lemma FilterWindowExact(rows: seq<Row>, startAt: Option<Timestamp>, endAt: Option<Timestamp>)
    ensures forall x :: x in FilterWindow(rows, startAt, endAt) <==> x in rows && InWindow(x.time, startAt, endAt)
  {
    forall x {
      FilterWindowMembership(rows, startAt, endAt, x);
    }
  }


  /** Filtering commutes with concatenation, so the stored order is kept. */
  lemma {:induction false} FilterWindowConcat(a: seq<Row>, b: seq<Row>, startAt: Option<Timestamp>, endAt: Option<Timestamp>)
    ensures FilterWindow(a + b, startAt, endAt) == FilterWindow(a, startAt, endAt) + FilterWindow(b, startAt, endAt)
  {
    if b != [] {
      var init := b[..|b| - 1];
      FilterWindowConcat(a, init, startAt, endAt);
      assert (a + b)[..|a + b| - 1] == a + init;
      assert (a + b)[|a + b| - 1] == b[|b| - 1];
    } else {
      assert a + b == a;
    }
  }

  /** Without bounds every stored row is returned, in stored order. */
  lemma {:induction false} FilterWindowUnbounded(rows: seq<Row>)
    ensures FilterWindow(rows, None, None) == rows
  {
    if rows != [] {
      FilterWindowUnbounded(rows[..|rows| - 1]);
    }
  }

  // ---------------------------------------------------------------------
  // Properties of the reports of one stream.

  lemma {:induction false} OccurrencesSnoc<T>(s: seq<T>, c: T, x: T)
    ensures Occurrences(s + [x], c) == Occurrences(s, c) + (if x == c then 1 else 0)
  {
    if s != [] {
      OccurrencesSnoc(s[1..], c, x);
      assert (s + [x])[1..] == s[1..] + [x];
    }
  }

  /** A resolved stream gets one report per occurrence of the viewer metric
      name, each carrying the stream's id, the viewer kind and the filtered rows. */
  lemma {:induction false} ReportsForShape(pool: Pool, id: string, metrics: seq<string>, startAt: Option<Timestamp>, endAt: Option<Timestamp>)
    ensures |ReportsFor(pool, id, metrics, startAt, endAt)| == Occurrences(metrics, ViewerKind)
    ensures forall k :: 0 <= k < |ReportsFor(pool, id, metrics, startAt, endAt)| ==>
      ReportsFor(pool, id, metrics, startAt, endAt)[k] == ViewerReport(pool, id, startAt, endAt)
  {
    if metrics != [] {
      var init := metrics[..|metrics| - 1];
      ReportsForShape(pool, id, init, startAt, endAt);
      OccurrencesSnoc(init, ViewerKind, metrics[|metrics| - 1]);
      assert init + [metrics[|metrics| - 1]] == metrics;
    }
  }

  /** Metric names are handled in request order. */
  lemma {:induction false} ReportsForConcat(pool: Pool, id: string, m1: seq<string>, m2: seq<string>, startAt: Option<Timestamp>, endAt: Option<Timestamp>)
    ensures ReportsFor(pool, id, m1 + m2, startAt, endAt)
         == ReportsFor(pool, id, m1, startAt, endAt) + ReportsFor(pool, id, m2, startAt, endAt)
  {
    if m2 == [] {
      assert m1 + m2 == m1;
    } else {
      ReportsForConcat(pool, id, m1, m2[..|m2| - 1], startAt, endAt);
      assert (m1 + m2)[..|m1 + m2| - 1] == m1 + m2[..|m2| - 1];
      assert (m1 + m2)[|m1 + m2| - 1] == m2[|m2| - 1];
    }
  }

  // ---------------------------------------------------------------------
  // Properties of the whole response.

  /** Ids are handled in request order, for streams and for reports alike. */
  lemma {:induction false} ResponseConcat(pool: Pool, a: seq<string>, b: seq<string>, metrics: seq<string>, startAt: Option<Timestamp>, endAt: Option<Timestamp>)
    ensures ResolvedStreams(pool, a + b) == ResolvedStreams(pool, a) + ResolvedStreams(pool, b)
    ensures AllReports(pool, a + b, metrics, startAt, endAt)
         == AllReports(pool, a, metrics, startAt, endAt) + AllReports(pool, b, metrics, startAt, endAt)
  {
    if b == [] {
      assert a + b == a;
    } else {
      ResponseConcat(pool, a, b[..|b| - 1], metrics, startAt, endAt);
      assert (a + b)[..|a + b| - 1] == a + b[..|b| - 1];
      assert (a + b)[|a + b| - 1] == b[|b| - 1];
    }
  }

  /** A stream is in the response exactly when it is the row of a requested id. */
  lemma {:induction false} ResolvedStreamsMembership(pool: Pool, ids: seq<string>, s: Stream)
    ensures s in ResolvedStreams(pool, ids) <==>
      exists k :: 0 <= k < |ids| && ids[k] in pool.youtubeStreams && pool.youtubeStreams[ids[k]] == s
  {
    if ids != [] {
      var init := ids[..|ids| - 1];
      ResolvedStreamsMembership(pool, init, s);
      if exists k :: 0 <= k < |ids| && ids[k] in pool.youtubeStreams && pool.youtubeStreams[ids[k]] == s {
        var k :| 0 <= k < |ids| && ids[k] in pool.youtubeStreams && pool.youtubeStreams[ids[k]] == s;
        if k < |init| {
          assert init[k] == ids[k];
        }
      }
      if exists k :: 0 <= k < |init| && init[k] in pool.youtubeStreams && pool.youtubeStreams[init[k]] == s {
        var k :| 0 <= k < |init| && init[k] in pool.youtubeStreams && pool.youtubeStreams[init[k]] == s;
        assert ids[k] == init[k];
      }
    }
  }

  /** Every requested id that does not resolve makes the stream list shorter
      than the id list: no placeholder is inserted for it. */
  lemma {:induction false} UnresolvedIdsShorten(pool: Pool, ids: seq<string>)
    ensures |ResolvedStreams(pool, ids)| <= |ids|
    ensures (exists k :: 0 <= k < |ids| && ids[k] !in pool.youtubeStreams) ==> |ResolvedStreams(pool, ids)| < |ids|
  {
    if ids != [] {
      var init := ids[..|ids| - 1];
      UnresolvedIdsShorten(pool, init);
      if exists k :: 0 <= k < |ids| && ids[k] !in pool.youtubeStreams {
        var k :| 0 <= k < |ids| && ids[k] !in pool.youtubeStreams;
        if k < |init| {
          assert init[k] == ids[k];
        }
      }
    }
  }

  /** Every report is the viewer report of a requested id that resolved; in
      particular an id that does not resolve has no report. */
  lemma {:induction false} AllReportsShape(pool: Pool, ids: seq<string>, metrics: seq<string>, startAt: Option<Timestamp>, endAt: Option<Timestamp>)
    ensures forall r :: r in AllReports(pool, ids, metrics, startAt, endAt) ==>
      r.id in ids && r.id in pool.youtubeStreams && r.kind == ViewerKind && r == ViewerReport(pool, r.id, startAt, endAt)
  {
    if ids != [] {
      var init := ids[..|ids| - 1];
      var id := ids[|ids| - 1];
      AllReportsShape(pool, init, metrics, startAt, endAt);
      ReportsForShape(pool, id, metrics, startAt, endAt);
      assert forall x :: x in init ==> x in ids;
      var rf := ReportsFor(pool, id, metrics, startAt, endAt);
      assert forall r :: r in rf ==> r == ViewerReport(pool, id, startAt, endAt);
    }
  }

  /** Each resolved stream contributes as many reports as the viewer metric
      name occurs in the metric list. */
  lemma {:induction false} AllReportsCount(pool: Pool, ids: seq<string>, metrics: seq<string>, startAt: Option<Timestamp>, endAt: Option<Timestamp>)
    ensures |AllReports(pool, ids, metrics, startAt, endAt)| == |ResolvedStreams(pool, ids)| * Occurrences(metrics, ViewerKind)
  {
    if ids != [] {
      var init := ids[..|ids| - 1];
      var id := ids[|ids| - 1];
      var n := Occurrences(metrics, ViewerKind);
      AllReportsCount(pool, init, metrics, startAt, endAt);
      ReportsForShape(pool, id, metrics, startAt, endAt);
      var m := |ResolvedStreams(pool, init)|;
      assert (m + 1) * n == m * n + n;
    }
  }
}
