# HoloStats: streams report and schedule grouping, in Dafny

This project models two pieces of HoloStats.

**The v3 streams report endpoint** (`server/src/api/v3/streams_report.rs`). It takes a
comma-separated list of YouTube stream ids, a comma-separated list of metric names and an
optional inclusive time window. It looks up every id in order. An id with no row is skipped.
For an id that has a row, the endpoint adds the row to `streams`. Then, for every metric
name in order, it adds one `youtube_stream_viewer` report when the name is
`youtube_stream_viewer`, and nothing for any other name. Any database error aborts the
whole request, and no partial body is returned.

The model has five modules:
- `Wrappers` holds the `Option` and `Result` types; `Result` works with `:-`, the way `?` does in Rust.
- `StrSplit` models Rust's `str::split` on one character.
- `StreamsReportV3` holds the store, the window filter, the viewer metric and the handler.
  The handler, `HandleStreamsReport`, is an imperative method with the source's two nested
  loops. It is proved equal to closed-form specification functions, and the lemmas state
  what those functions promise.
- `StreamsReportJson` models serialisation as an abstract JSON tree. A `Row` is written as
  the pair `[time, value]`. In a `Stream`, the five skip-if-`None` fields are omitted when
  absent, while `thumbnailUrl` is written as `null` when absent.

The database is a value `Pool`. The `youtube_streams` table is a map from id to row. The
`youtube_stream_viewer_statistic` table is a map from id to rows in stored order. Two sets
name the ids whose lookup query, or whose viewer query, fails.

**The YouTube schedule page**
(`web/src/app/pages/youtube-schedule-stream/youtube-schedule-stream.component.ts`). When
the schedule arrives, the subscribe callback does three things: it clears `loading`, copies
`updatedAt`, and appends the streams to `streamGroup`. A stream joins the last group when it
falls on the same calendar day as the previous stream; otherwise it opens a new group. The
component is a class whose fields the methods update. `GroupByDay` is the function the
callback's loop is proved against. Its lemmas show that the result is a well-formed day
grouping, and that it is the only well-formed grouping of the input.

## Model

| member | source | states |
|---|---|---|
| StrSplit.Split | server/src/api/v3/streams_report.rs:97 | splitting on `,` gives one more piece than there are commas, and no piece contains a comma (so `""` gives one empty piece) |
| StrSplit.JoinSplit | server/src/api/v3/streams_report.rs:122 | joining the pieces with the separator gives the input back: splitting loses no character |
| StrSplit.SplitJoin | server/src/api/v3/streams_report.rs:97 | comma-free pieces joined with commas split back into exactly those pieces, empty ones included |
| StreamsReportV3.FetchStream | server/src/api/v3/streams_report.rs:98-118 | the lookup fails exactly for ids whose query fails; otherwise it yields the stored row when there is one and nothing when there is none |
| StreamsReportV3.FilterWindow | server/src/api/v3/streams_report.rs:148-152 | every returned row is a stored row whose time lies in the window, and no more rows come back than are stored |
| StreamsReportV3.YoutubeStreamViewer | server/src/api/v3/streams_report.rs:139-167 | fails exactly when the viewer query fails; otherwise the report carries the requested id and the kind `youtube_stream_viewer`, a row is in the report exactly when it is stored and inside the window, and the rows are the stored ones filtered in stored order |
| StreamsReportV3.HandleStreamsReport | server/src/api/v3/streams_report.rs:74-137 | the request fails exactly when some query it issues fails, with no partial body; otherwise `streams` is the resolved rows of the split ids in request order and `reports` is id-outer, metric-inner |
| StreamsReportV3.FilterWindowMembership | server/src/api/v3/streams_report.rs:151-152 | a row is returned exactly when it is stored and `start_at <= time` (if given) and `time <= end_at` (if given) |
| StreamsReportV3.FilterWindowConcat | server/src/api/v3/streams_report.rs:145-153 | filtering distributes over concatenation, so the store's order is kept; no sorting is promised |
| StreamsReportV3.FilterWindowUnbounded | server/src/api/v3/streams_report.rs:151-152 | with both bounds absent every stored row is returned, in stored order |
| StreamsReportV3.ReportsForShape | server/src/api/v3/streams_report.rs:122-128 | a resolved id gets as many reports as `youtube_stream_viewer` occurs in the metric list, each with that id, that kind and the filtered rows; other names add nothing |
| StreamsReportV3.ReportsForConcat | server/src/api/v3/streams_report.rs:122-129 | reports of one id follow the order of the metric list |
| StreamsReportV3.ResponseConcat | server/src/api/v3/streams_report.rs:97-131 | streams and reports follow the order of the id list; duplicates are kept |
| StreamsReportV3.ResolvedStreamsMembership | server/src/api/v3/streams_report.rs:97-121 | a stream is in `streams` exactly when it is the stored row of some requested id |
| StreamsReportV3.UnresolvedIdsShorten | server/src/api/v3/streams_report.rs:120-121 | `streams` is never longer than the id list, and is strictly shorter when some id does not resolve |
| StreamsReportV3.AllReportsShape | server/src/api/v3/streams_report.rs:120-130 | every report belongs to a requested id that resolved and is that id's viewer report, so an unresolved id has no report |
| StreamsReportV3.AllReportsCount | server/src/api/v3/streams_report.rs:120-129 | the number of reports is the number of resolved ids times the number of `youtube_stream_viewer` entries in the metric list |
| StreamsReportJson.KeyNameInjective | server/src/api/v3/streams_report.rs:55-71 | the camelCase wire names of distinct fields are distinct, so no two fields share a JSON key |
| StreamsReportJson.EncodeRow | server/src/api/v3/streams_report.rs:42-52 | a row's encoding decodes back to the row |
| StreamsReportJson.RowIsPair | server/src/api/v3/streams_report.rs:47-50 | a row is written as a two-element array, time first and value second |
| StreamsReportJson.DecodeAllEncodeAll | server/src/api/v3/streams_report.rs:24-25 | a list is written element by element, so per-element round trips give a round trip of the whole array |
| StreamsReportJson.StreamFieldsGet | server/src/api/v3/streams_report.rs:54-72 | walking the fields in declaration order writes, under each key, what the serde attributes prescribe, and nothing under a key not walked |
| StreamsReportJson.StreamFieldsAt | server/src/api/v3/streams_report.rs:56-71 | every key of a written stream object holds exactly what the serde attributes prescribe |
| StreamsReportJson.EncodeStream | server/src/api/v3/streams_report.rs:54-72 | a stream's encoding decodes back to the stream, so no field is lost or confused |
| StreamsReportJson.StreamKeys | server/src/api/v3/streams_report.rs:60-70 | the five skip-if-`None` fields are present exactly when set; `thumbnailUrl` is always present, holds the URL when there is one and is `null` exactly when absent; no other key is ever `null` |
| StreamsReportJson.EncodeReport | server/src/api/v3/streams_report.rs:28-34 | a report's encoding decodes back to the report |
| StreamsReportJson.EncodeBody | server/src/api/v3/streams_report.rs:21-26 | the response body's encoding decodes back to the body |
| YoutubeScheduleStream.Place | web/src/app/pages/youtube-schedule-stream/youtube-schedule-stream.component.ts:33-37 | one loop step always leaves at least one group |
| YoutubeScheduleStream.GroupByDay | web/src/app/pages/youtube-schedule-stream/youtube-schedule-stream.component.ts:31-39 | the grouping is empty exactly when the stream list is empty |
| YoutubeScheduleStream.FlattenPlace | web/src/app/pages/youtube-schedule-stream/youtube-schedule-stream.component.ts:34-36 | a loop step, whether it pushes or opens a group, appends the stream after all earlier streams |
| YoutubeScheduleStream.GroupByDayFlatten | web/src/app/pages/youtube-schedule-stream/youtube-schedule-stream.component.ts:31-39 | the groups' streams, read group after group, are `res.streams` unchanged and in order |
| YoutubeScheduleStream.WellGroupedPlace | web/src/app/pages/youtube-schedule-stream/youtube-schedule-stream.component.ts:33-37 | joining a same-day stream to the last group, or opening a group for a stream on another day, keeps the grouping well formed |
| YoutubeScheduleStream.GroupByDayWellGrouped | web/src/app/pages/youtube-schedule-stream/youtube-schedule-stream.component.ts:33-38 | every group is non-empty, its day is its first stream's schedule, all its streams share that day, and adjacent groups have different days |
| YoutubeScheduleStream.GroupCount | web/src/app/pages/youtube-schedule-stream/youtube-schedule-stream.component.ts:31-39 | no streams give no groups; otherwise the group count is 1 plus the number of adjacent pairs on different days |
| YoutubeScheduleStream.WellGroupedUnique | web/src/app/pages/youtube-schedule-stream/youtube-schedule-stream.component.ts:31-39 | any well-formed grouping that flattens to the stream list is the callback's grouping |
| YoutubeScheduleStream.UnPlace | web/src/app/pages/youtube-schedule-stream/youtube-schedule-stream.component.ts:33-37 | every non-empty well-formed grouping is one loop step applied to a shorter well-formed grouping |
| YoutubeScheduleStream.PlaceAfter | web/src/app/pages/youtube-schedule-stream/youtube-schedule-stream.component.ts:34-36 | a loop step on `streamGroup` touches only the groups built by this call, never earlier ones |
| YoutubeScheduleStream.YoutubeScheduleStreamComponent.constructor | web/src/app/pages/youtube-schedule-stream/youtube-schedule-stream.component.ts:17-19 | a new component is not loading, has no groups and an empty `updatedAt` |
| YoutubeScheduleStream.YoutubeScheduleStreamComponent.NgOnInit | web/src/app/pages/youtube-schedule-stream/youtube-schedule-stream.component.ts:24 | initialisation sets `loading` and changes nothing else |
| YoutubeScheduleStream.YoutubeScheduleStreamComponent.OnScheduleStream | web/src/app/pages/youtube-schedule-stream/youtube-schedule-stream.component.ts:25-40 | after the callback `loading` is false, `updatedAt` is the response's, and `streamGroup` is its old value followed by the day grouping of `res.streams` |
| YoutubeScheduleStream.YoutubeScheduleStreamComponent.TrackBy | web/src/app/pages/youtube-schedule-stream/youtube-schedule-stream.component.ts:43-45 | the tracking key is the stream's `streamId`, whatever the index |

## Left out

- The `tracing` span and its `record` calls (streams_report.rs:78-92) are left out. They only support observability.
- `sqlx`, the connection pool, `async`/`await` and the `warp` reply are left out. The store is the value `Pool`, and the JSON reply is the abstract tree in `StreamsReportJson`.
- A failure is fixed per id and per query kind: an id's lookup, or its viewer query, either always fails or never does. A transient failure that hits only one of two duplicate ids is not modelled. Either way the whole request fails.
- The SQL has no `ORDER BY`, so the database may return rows in any order. The model takes the order of the stored sequence as the order returned, and promises only that filtering keeps it; no sorting by time is promised.
- The model assumes the `youtube_streams` row found for an id has that id. `stream_id` uniqueness, and `fetch_optional` meeting several rows, are not modelled.
- Timestamps are integers. chrono's `DateTime<Utc>`, its RFC 3339 text and query-string parsing are not modelled. A timestamp is written as an abstract `Time` node, and the key names are the `Key` constructors (`KeyName` gives their wire spelling). Byte-level JSON is not modelled.
- `i32` values are a bounded `newtype`, because the database only hands back values in range. No arithmetic is done on them.
- The schedule page: `parseISO` and `isSameDay` are replaced by the schedule instant itself and a caller-supplied total function `dayOf`. Time zones are not modelled. The invalid-date case is not modelled either: in the source, `isSameDay` on an Invalid Date is false, so such a stream always opens its own group.
- The schedule page's `Title` service call and the `ApiService` subscription are left out. `NgOnInit` models setting `loading`. `OnScheduleStream` is the subscribe callback, called with the response.
- The page's `Stream` model keeps only `streamId` and the parsed `scheduleTime`; the model file defining the other fields is not part of this model.
- `streamGroup[last].streams.push(stream)` updates a shared array in place. The model replaces the last group value instead. The groups are created by the callback itself, so no other reference to them is lost.
- server/src/channel_stat/main.rs (the scheduled statistics poller) and web/src/i18n/translations/zh.ts (a string table) are not part of this model.
- The code does not require the id or metric list to be non-empty: an empty `ids` is split into one empty id, which is looked up like any other. The model does the same.
