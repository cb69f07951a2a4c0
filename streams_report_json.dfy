/** How the v3 streams report body is serialised, as an abstract JSON tree.
    A `Row` becomes the 2-element array `[time, value]`. A `Stream` becomes an
    object with camel-case keys in declaration order: the five optional
    schedule/viewer fields are left out when absent, while `thumbnailUrl` is
    always present and is `null` when absent. Object keys are the fixed field
    names of the response types (`Key`, spelled on the wire by `KeyName`); a
    timestamp is kept as an abstract `Time` node, its RFC 3339 text is not
    modelled. */
module StreamsReportJson {
  import opened Wrappers
  import opened StreamsReportV3

  datatype Key =
    | StreamIdKey | TitleKey | VtuberIdKey | ThumbnailUrlKey | ScheduleTimeKey | StartTimeKey
    | EndTimeKey | AverageViewerCountKey | MaxViewerCountKey | UpdatedAtKey
    | IdKey | KindKey | RowsKey | StreamsKey | ReportsKey

  /** The key as written on the wire (`rename_all = "camelCase"`). */
  function KeyName(k: Key): string
  {
    match k
    case StreamIdKey => "streamId"
    case TitleKey => "title"
    case VtuberIdKey => "vtuberId"
    case ThumbnailUrlKey => "thumbnailUrl"
    case ScheduleTimeKey => "scheduleTime"
    case StartTimeKey => "startTime"
    case EndTimeKey => "endTime"
    case AverageViewerCountKey => "averageViewerCount"
    case MaxViewerCountKey => "maxViewerCount"
    case UpdatedAtKey => "updatedAt"
    case IdKey => "id"
    case KindKey => "kind"
    case RowsKey => "rows"
    case StreamsKey => "streams"
    case ReportsKey => "reports"
  }

  /** No two keys share a wire name, so facts about keys carry over to the text. */
  lemma KeyNameInjective(a: Key, b: Key)
    ensures KeyName(a) == KeyName(b) ==> a == b
  {
  }

  datatype Json =
    | Null
    | Int(n: int)
    | Str(s: string)
    | Time(t: Timestamp)
    | Arr(items: seq<Json>)
    | Obj(fields: seq<(Key, Json)>)

  // ---------------------------------------------------------------------
  // Object fields.

  /** The value of the first field named `key`. */
  function Get(fields: seq<(Key, Json)>, key: Key): Option<Json>
  {
    if fields == [] then None
    else if fields[0].0 == key then Some(fields[0].1)
    else Get(fields[1..], key)
  }

  predicate HasKey(fields: seq<(Key, Json)>, key: Key)
  {
    Get(fields, key).Some?
  }

  // ---------------------------------------------------------------------
  // Row: a tuple, not an object.

  function EncodeRow(row: Row): (j: Json)
    ensures DecodeRow(j) == Some(row)
  {
    Arr([Time(row.time), Int(row.value as int)])
  }

  function DecodeRow(j: Json): Option<Row>
  {
    if j.Arr? && |j.items| == 2 && j.items[0].Time? && j.items[1].Int?
       && -0x8000_0000 <= j.items[1].n < 0x8000_0000
    then Some(Row(j.items[0].t, j.items[1].n as i32))
    else None
  }

  /** Every point of a series is two positional elements, time first. */
  lemma RowIsPair(row: Row)
    ensures EncodeRow(row).Arr? && |EncodeRow(row).items| == 2
    ensures EncodeRow(row).items[0] == Time(row.time) && EncodeRow(row).items[1] == Int(row.value as int)
  {
  }

  // ---------------------------------------------------------------------
  // Lists: a JSON array, element by element.

  function EncodeAll<T>(xs: seq<T>, enc: T -> Json): (js: seq<Json>)
    ensures |js| == |xs|
  {
    seq(|xs|, i requires 0 <= i < |xs| => enc(xs[i]))
  }

  function DecodeAll<T>(js: seq<Json>, dec: Json -> Option<T>): Option<seq<T>>
  {
    if js == [] then Some([])
    else
      var head := dec(js[0]);
      var tail := DecodeAll(js[1..], dec);
      if head.Some? && tail.Some? then Some([head.value] + tail.value) else None
  }

  /** An element-wise round trip is a round trip of the whole array. */
  lemma {:induction false} DecodeAllEncodeAll<T>(xs: seq<T>, enc: T -> Json, dec: Json -> Option<T>)
    requires forall x :: dec(enc(x)) == Some(x)
    ensures DecodeAll(EncodeAll(xs, enc), dec) == Some(xs)
  {
    if xs != [] {
      DecodeAllEncodeAll(xs[1..], enc, dec);
      assert EncodeAll(xs, enc)[1..] == EncodeAll(xs[1..], enc);
      assert [xs[0]] + xs[1..] == xs;
    }
  }

  // ---------------------------------------------------------------------
  // Stream: an object with optional keys.

  /** The keys of `Stream`, in declaration order. */
  const StreamKeyOrder: seq<Key> := [StreamIdKey, TitleKey, VtuberIdKey, ThumbnailUrlKey, ScheduleTimeKey,
    StartTimeKey, EndTimeKey, AverageViewerCountKey, MaxViewerCountKey, UpdatedAtKey]

  /** What `Stream`'s serde attributes write under each key: `None` when the
      field is skipped, so `thumbnailUrl`, which has no skip attribute, is
      written as `null` when absent. */
  function StreamValue(s: Stream, key: Key): Option<Json>
  {
    match key
    case StreamIdKey => Some(Str(s.streamId))
    case TitleKey => Some(Str(s.title))
    case VtuberIdKey => Some(Str(s.vtuberId))
    case ThumbnailUrlKey => Some(if s.thumbnailUrl.Some? then Str(s.thumbnailUrl.value) else Null)
    case ScheduleTimeKey => if s.scheduleTime.Some? then Some(Time(s.scheduleTime.value)) else None
    case StartTimeKey => if s.startTime.Some? then Some(Time(s.startTime.value)) else None
    case EndTimeKey => if s.endTime.Some? then Some(Time(s.endTime.value)) else None
    case AverageViewerCountKey =>
      if s.averageViewerCount.Some? then Some(Int(s.averageViewerCount.value as int)) else None
    case MaxViewerCountKey => if s.maxViewerCount.Some? then Some(Int(s.maxViewerCount.value as int)) else None
    case UpdatedAtKey => Some(Time(s.updatedAt))
    case _ => None
  }

  /** The fields serde writes, walking the keys in order and skipping those
      with nothing to write. */
  function StreamFields(s: Stream, keys: seq<Key>): seq<(Key, Json)>
  {
    if keys == [] then []
    else
      var v := StreamValue(s, keys[0]);
      (if v.Some? then [(keys[0], v.value)] else []) + StreamFields(s, keys[1..])
  }

  predicate DistinctKeys(keys: seq<Key>)
  {
    forall i, j :: 0 <= i < j < |keys| ==> keys[i] != keys[j]
  }

  lemma StreamKeyOrderDistinct()
    ensures DistinctKeys(StreamKeyOrder)
  {
  }

  /** Reading a key back from the written fields gives what was meant to be
      written under it, and nothing for a key not walked. */
  lemma {:induction false} StreamFieldsGet(s: Stream, keys: seq<Key>, key: Key)
    requires DistinctKeys(keys)
    ensures Get(StreamFields(s, keys), key) == if key in keys then StreamValue(s, key) else None
  {
    if keys != [] {
      StreamFieldsGet(s, keys[1..], key);
      assert DistinctKeys(keys[1..]) by {
        forall i, j | 0 <= i < j < |keys| - 1 ensures keys[1..][i] != keys[1..][j] {
          assert keys[1..][i] == keys[i + 1] && keys[1..][j] == keys[j + 1];
        }
      }
      assert key in keys <==> key == keys[0] || key in keys[1..] by {
        assert keys == [keys[0]] + keys[1..];
      }
      assert keys[0] !in keys[1..] by {
        forall j | 0 <= j < |keys| - 1 ensures keys[1..][j] != keys[0] {
          assert keys[1..][j] == keys[j + 1];
        }
      }
      var v := StreamValue(s, keys[0]);
      if v.Some? {
        assert StreamFields(s, keys)[0] == (keys[0], v.value);
        assert StreamFields(s, keys)[1..] == StreamFields(s, keys[1..]);
      } else {
        assert StreamFields(s, keys) == StreamFields(s, keys[1..]);
      }
    }
  }

  /** Every key of the stream object holds what the attributes say. */
  lemma StreamFieldsAt(s: Stream, key: Key)
    ensures Get(StreamFields(s, StreamKeyOrder), key) == StreamValue(s, key)
  {
    StreamKeyOrderDistinct();
    StreamFieldsGet(s, StreamKeyOrder, key);
  }

  function EncodeStream(s: Stream): (j: Json)
    ensures DecodeStream(j) == Some(s)
  {
    StreamFieldsAt(s, StreamIdKey);
    StreamFieldsAt(s, TitleKey);
    StreamFieldsAt(s, VtuberIdKey);
    StreamFieldsAt(s, ThumbnailUrlKey);
    StreamFieldsAt(s, ScheduleTimeKey);
    StreamFieldsAt(s, StartTimeKey);
    StreamFieldsAt(s, EndTimeKey);
    StreamFieldsAt(s, AverageViewerCountKey);
    StreamFieldsAt(s, MaxViewerCountKey);
    StreamFieldsAt(s, UpdatedAtKey);
    Obj(StreamFields(s, StreamKeyOrder))
  }

  function AsString(j: Option<Json>): Option<string>
  {
    if j.Some? && j.value.Str? then Some(j.value.s) else None
  }

  function AsTime(j: Option<Json>): Option<Timestamp>
  {
    if j.Some? && j.value.Time? then Some(j.value.t) else None
  }

  function AsI32(j: Option<Json>): Option<i32>
  {
    if j.Some? && j.value.Int? && -0x8000_0000 <= j.value.n < 0x8000_0000 then Some(j.value.n as i32) else None
  }

  /** Reads a stream object back: the mandatory keys must be present, a
      missing optional key is `None`, and a `null` thumbnail is `None`. */
  function DecodeStream(j: Json): Option<Stream>
  {
    if !j.Obj? then None
    else
      var f := j.fields;
      var streamId := AsString(Get(f, StreamIdKey));
      var title := AsString(Get(f, TitleKey));
      var vtuberId := AsString(Get(f, VtuberIdKey));
      var updatedAt := AsTime(Get(f, UpdatedAtKey));
      if streamId.None? || title.None? || vtuberId.None? || updatedAt.None? || !HasKey(f, ThumbnailUrlKey) then None
      else Some(Stream(
        streamId.value, title.value, vtuberId.value,
        AsString(Get(f, ThumbnailUrlKey)),
        AsTime(Get(f, ScheduleTimeKey)),
        AsTime(Get(f, StartTimeKey)),
        AsTime(Get(f, EndTimeKey)),
        AsI32(Get(f, AverageViewerCountKey)),
        AsI32(Get(f, MaxViewerCountKey)),
        updatedAt.value))
  }

  /** Which keys a stream object has: the five optional fields appear exactly
      when present, `thumbnailUrl` always appears and is `null` exactly when
      absent, and `null` is never written under any other key. */
  lemma StreamKeys(s: Stream)
    ensures var f := EncodeStream(s).fields;
      && (HasKey(f, ScheduleTimeKey) <==> s.scheduleTime.Some?)
      && (HasKey(f, StartTimeKey) <==> s.startTime.Some?)
      && (HasKey(f, EndTimeKey) <==> s.endTime.Some?)
      && (HasKey(f, AverageViewerCountKey) <==> s.averageViewerCount.Some?)
      && (HasKey(f, MaxViewerCountKey) <==> s.maxViewerCount.Some?)
      && HasKey(f, ThumbnailUrlKey)
      && (Get(f, ThumbnailUrlKey) == Some(Null) <==> s.thumbnailUrl.None?)
      && (s.thumbnailUrl.Some? ==> Get(f, ThumbnailUrlKey) == Some(Str(s.thumbnailUrl.value)))
      && (forall key :: Get(f, key) == Some(Null) ==> key == ThumbnailUrlKey)
  {
    StreamFieldsAt(s, ThumbnailUrlKey);
    StreamFieldsAt(s, ScheduleTimeKey);
    StreamFieldsAt(s, StartTimeKey);
    StreamFieldsAt(s, EndTimeKey);
    StreamFieldsAt(s, AverageViewerCountKey);
    StreamFieldsAt(s, MaxViewerCountKey);
    forall key | Get(EncodeStream(s).fields, key) == Some(Null) ensures key == ThumbnailUrlKey {
      StreamFieldsAt(s, key);
    }
  }

  // ---------------------------------------------------------------------
  // Report and response body: plain objects.

  function EncodeReport(r: StreamsReport): (j: Json)
    ensures DecodeReport(j) == Some(r)
  {
    var rows := Arr(EncodeAll(r.rows, EncodeRow));
    var f := [(IdKey, Str(r.id)), (KindKey, Str(r.kind)), (RowsKey, rows)];
    assert f[1..] == [(KindKey, Str(r.kind)), (RowsKey, rows)] && f[1..][1..] == [(RowsKey, rows)];
    assert Get(f[1..][1..], RowsKey) == Some(rows);
    assert Get(f[1..], RowsKey) == Some(rows);
    DecodeAllEncodeAll(r.rows, EncodeRow, DecodeRow);
    assert Get(f, IdKey) == Some(Str(r.id));
    assert Get(f, KindKey) == Some(Str(r.kind));
    assert DecodeAll(rows.items, DecodeRow) == Some(r.rows);
    Obj(f)
  }

  function DecodeReport(j: Json): Option<StreamsReport>
  {
    if !j.Obj? then None
    else
      var id := AsString(Get(j.fields, IdKey));
      var kind := AsString(Get(j.fields, KindKey));
      var rows := Get(j.fields, RowsKey);
      if id.None? || kind.None? || rows.None? || !rows.value.Arr? then None
      else
        var decoded := DecodeAll(rows.value.items, DecodeRow);
        if decoded.None? then None else Some(StreamsReport(id.value, kind.value, decoded.value))
  }

  function EncodeBody(body: ResponseBody): (j: Json)
    ensures DecodeBody(j) == Some(body)
  {
    var streams := Arr(EncodeAll(body.streams, EncodeStream));
    var reports := Arr(EncodeAll(body.reports, EncodeReport));
    var f := [(StreamsKey, streams), (ReportsKey, reports)];
    assert f[1..] == [(ReportsKey, reports)];
    assert Get(f, StreamsKey) == Some(streams) && Get(f, ReportsKey) == Some(reports);
    DecodeAllEncodeAll(body.streams, EncodeStream, DecodeStream);
    DecodeAllEncodeAll(body.reports, EncodeReport, DecodeReport);
    Obj(f)
  }

  function DecodeBody(j: Json): Option<ResponseBody>
  {
    if !j.Obj? then None
    else
      var streams := Get(j.fields, StreamsKey);
      var reports := Get(j.fields, ReportsKey);
      if streams.None? || reports.None? || !streams.value.Arr? || !reports.value.Arr? then None
      else
        var ss := DecodeAll(streams.value.items, DecodeStream);
        var rs := DecodeAll(reports.value.items, DecodeReport);
        if ss.None? || rs.None? then None else Some(ResponseBody(ss.value, rs.value))
  }
}
