/** The YouTube schedule page: when the schedule arrives, the component
    clears its loading flag, records the update time and appends the streams
    to `streamGroup`, grouping consecutive streams scheduled on the same
    calendar day.

    Parsing `scheduleTime` is abstracted: a stream carries its schedule as an
    instant, and `isSameDay` is equality under a caller-supplied `dayOf`,
    the calendar day an instant falls on. */
module YoutubeScheduleStream {

  type Timestamp = int

  /** The fields of the page's `Stream` model that the page logic reads. */
  datatype Stream = Stream(streamId: string, scheduleTime: Timestamp)

  /** One day's block on the page: `day` is the schedule of its first stream. */
  datatype Group = Group(day: Timestamp, streams: seq<Stream>)

  /** The API answer. */
  datatype ScheduleResponse = ScheduleResponse(updatedAt: string, streams: seq<Stream>)

  // ---------------------------------------------------------------------
  // The grouping, as a function of the stream list.

  /** All streams of the groups, group after group. */
  function Flatten(groups: seq<Group>): seq<Stream>
  {
    if groups == [] then [] else Flatten(groups[..|groups| - 1]) + groups[|groups| - 1].streams
  }

  /** Whether `x` joins the last group: it falls on the previous stream's day. */
  predicate SameDay(prev: Stream, x: Stream, dayOf: Timestamp -> int)
  {
    dayOf(prev.scheduleTime) == dayOf(x.scheduleTime)
  }

  /** One step of the callback's loop: push `x` onto the last group, or open
      a new group for it. */
  function Place(groups: seq<Group>, join: bool, x: Stream): (r: seq<Group>)
    requires join ==> groups != []
    ensures r != []
  {
    if join then
      var last := groups[|groups| - 1];
      groups[..|groups| - 1] + [last.(streams := last.streams + [x])]
    else
      groups + [Group(x.scheduleTime, [x])]
  }

  /** The groups the subscribe callback builds from `streams`. */
  function GroupByDay(streams: seq<Stream>, dayOf: Timestamp -> int): (groups: seq<Group>)
    ensures (groups == []) == (streams == [])
  {
    if streams == [] then []
    else
      var init := streams[..|streams| - 1];
      Place(GroupByDay(init, dayOf),
            init != [] && SameDay(init[|init| - 1], streams[|streams| - 1], dayOf),
            streams[|streams| - 1])
  }

  lemma SnocLast<T>(s: seq<T>)
    requires s != []
    ensures s[..|s| - 1] + [s[|s| - 1]] == s
  {
  }

  lemma SnocParts<T>(s: seq<T>, x: T)
    ensures (s + [x])[..|s|] == s && (s + [x])[|s|] == x
  {
  }

  lemma FlattenPlace(groups: seq<Group>, join: bool, x: Stream)
    requires join ==> groups != []
    ensures Flatten(Place(groups, join, x)) == Flatten(groups) + [x]
  {
    var r := Place(groups, join, x);
    if join {
      var front := groups[..|groups| - 1];
      var last := groups[|groups| - 1];
      assert r[..|r| - 1] == front;
      assert Flatten(groups) == Flatten(front) + last.streams;
    } else {
      assert r[..|r| - 1] == groups;
    }
  }

  /** Grouping neither drops, duplicates nor reorders streams: the groups,
      read one after the other, are the input. */
  lemma {:induction false} GroupByDayFlatten(streams: seq<Stream>, dayOf: Timestamp -> int)
    ensures Flatten(GroupByDay(streams, dayOf)) == streams
  {
    if streams != [] {
      var init := streams[..|streams| - 1];
      var x := streams[|streams| - 1];
      GroupByDayFlatten(init, dayOf);
      FlattenPlace(GroupByDay(init, dayOf), init != [] && SameDay(init[|init| - 1], x, dayOf), x);
      SnocLast(streams);
    }
  }

  /** A well-formed day grouping: no group is empty, a group's day is its first
      stream's schedule and every stream in it falls on that day, and
      neighbouring groups fall on different days. */
  predicate WellGrouped(groups: seq<Group>, dayOf: Timestamp -> int)
  {
    && (forall k :: 0 <= k < |groups| ==>
          && groups[k].streams != []
          && groups[k].day == groups[k].streams[0].scheduleTime
          && forall x :: x in groups[k].streams ==> dayOf(x.scheduleTime) == dayOf(groups[k].day))
    && (forall k :: 0 < k < |groups| ==> dayOf(groups[k - 1].day) != dayOf(groups[k].day))
  }

  /** The last stream lies in the last group, so it falls on that group's day. */
  lemma LastOfLastGroup(groups: seq<Group>, dayOf: Timestamp -> int)
    requires WellGrouped(groups, dayOf) && groups != []
    ensures Flatten(groups) != []
    ensures var s := Flatten(groups);
      dayOf(s[|s| - 1].scheduleTime) == dayOf(groups[|groups| - 1].day)
  {
    var last := groups[|groups| - 1];
    assert last.streams[|last.streams| - 1] in last.streams;
  }

  /** A stream on the last group's day may join that group; a stream on
      another day may open a new one. */
  lemma WellGroupedPlace(groups: seq<Group>, join: bool, x: Stream, dayOf: Timestamp -> int)
    requires WellGrouped(groups, dayOf)
    requires join ==> groups != [] && dayOf(x.scheduleTime) == dayOf(groups[|groups| - 1].day)
    requires !join && groups != [] ==> dayOf(x.scheduleTime) != dayOf(groups[|groups| - 1].day)
    ensures WellGrouped(Place(groups, join, x), dayOf)
  {
    var r := Place(groups, join, x);
    var n := |groups|;
    forall k | 0 <= k < |r|
      ensures r[k].streams != [] && r[k].day == r[k].streams[0].scheduleTime
      ensures forall y :: y in r[k].streams ==> dayOf(y.scheduleTime) == dayOf(r[k].day)
    {
      if k < n - 1 || (!join && k < n) {
        assert r[k] == groups[k];
      } else if join {
        assert r[k].streams == groups[n - 1].streams + [x];
      }
    }
    forall k | 0 < k < |r| ensures dayOf(r[k - 1].day) != dayOf(r[k].day) {
      if k < n {
        assert r[k - 1].day == groups[k - 1].day && r[k].day == groups[k].day;
      }
    }
  }

  /** The callback's grouping is well formed. */
  lemma {:induction false} GroupByDayWellGrouped(streams: seq<Stream>, dayOf: Timestamp -> int)
    ensures WellGrouped(GroupByDay(streams, dayOf), dayOf)
  {
    if streams != [] {
      var init := streams[..|streams| - 1];
      var groups := GroupByDay(init, dayOf);
      GroupByDayWellGrouped(init, dayOf);
      GroupByDayFlatten(init, dayOf);
      if init != [] {
        LastOfLastGroup(groups, dayOf);
      }
      WellGroupedPlace(groups, init != [] && SameDay(init[|init| - 1], streams[|streams| - 1], dayOf),
        streams[|streams| - 1], dayOf);
    }
  }

  /** Number of neighbouring pairs of streams that fall on different days. */
  function DayChanges(streams: seq<Stream>, dayOf: Timestamp -> int): nat
  {
    if |streams| < 2 then 0
    else
      var n := |streams|;
      DayChanges(streams[..n - 1], dayOf) + (if SameDay(streams[n - 2], streams[n - 1], dayOf) then 0 else 1)
  }

  /** No streams give no groups; otherwise there is one group plus one more
      for each change of day between neighbours. */
  lemma {:induction false} GroupCount(streams: seq<Stream>, dayOf: Timestamp -> int)
    ensures |GroupByDay(streams, dayOf)| == if streams == [] then 0 else 1 + DayChanges(streams, dayOf)
  {
    if |streams| > 1 {
      GroupCount(streams[..|streams| - 1], dayOf);
    }
  }

  /** A well-formed grouping of the streams is the callback's grouping: the
      properties above determine `GroupByDay` completely. */
  lemma {:induction false} WellGroupedUnique(groups: seq<Group>, streams: seq<Stream>, dayOf: Timestamp -> int)
    requires WellGrouped(groups, dayOf) && Flatten(groups) == streams
    ensures groups == GroupByDay(streams, dayOf)
    decreases |streams|
  {
    if groups != [] {
      var front, join := UnPlace(groups, dayOf);
      var init := streams[..|streams| - 1];
      var x := streams[|streams| - 1];
      WellGroupedUnique(front, init, dayOf);
      if front != [] {
        LastOfLastGroup(front, dayOf);
      }
      assert join == (init != [] && SameDay(init[|init| - 1], x, dayOf));
    }
  }

  /** `groups` is `front` with the last stream of `groups` placed onto it. */
  predicate PlacedOnto(groups: seq<Group>, front: seq<Group>, join: bool, dayOf: Timestamp -> int)
  {
    var s := Flatten(groups);
    && s != [] && WellGrouped(front, dayOf) && Flatten(front) == s[..|s| - 1]
    && (join ==> front != []) && groups == Place(front, join, s[|s| - 1])
    && (join <==> front != [] && dayOf(s[|s| - 1].scheduleTime) == dayOf(front[|front| - 1].day))
  }

  /** Takes the last stream back out of a well-formed grouping: the grouping
      is `Place` applied to a shorter well-formed grouping. */
  lemma UnPlace(groups: seq<Group>, dayOf: Timestamp -> int) returns (front: seq<Group>, join: bool)
    requires WellGrouped(groups, dayOf) && groups != []
    ensures PlacedOnto(groups, front, join, dayOf)
  {
    if |groups[|groups| - 1].streams| == 1 {
      front, join := UnPlaceOpen(groups, dayOf);
    } else {
      front, join := UnPlaceJoin(groups, dayOf);
    }
  }

  lemma UnPlaceOpen(groups: seq<Group>, dayOf: Timestamp -> int) returns (front: seq<Group>, join: bool)
    requires WellGrouped(groups, dayOf) && groups != [] && |groups[|groups| - 1].streams| == 1
    ensures PlacedOnto(groups, front, join, dayOf)
  {
    var n := |groups|;
    var last := groups[n - 1];
    var x := last.streams[0];
    assert last.streams == [x];
    front, join := groups[..n - 1], false;
    assert Flatten(groups) == Flatten(front) + [x];
    SnocParts(Flatten(front), x);
    SnocLast(groups);
    WellGroupedPrefix(groups, n - 1, dayOf);
    if front != [] {
      assert front[|front| - 1] == groups[n - 2];
    }
  }

  lemma UnPlaceJoin(groups: seq<Group>, dayOf: Timestamp -> int) returns (front: seq<Group>, join: bool)
    requires WellGrouped(groups, dayOf) && groups != [] && |groups[|groups| - 1].streams| > 1
    ensures PlacedOnto(groups, front, join, dayOf)
  {
    var n := |groups|;
    var last := groups[n - 1];
    var x := last.streams[|last.streams| - 1];
    assert x in last.streams;
    var shorter := last.(streams := last.streams[..|last.streams| - 1]);
    front, join := groups[..n - 1] + [shorter], true;
    SnocLast(last.streams);
    SnocLast(groups);
    WellGroupedShorter(groups, dayOf);
    assert front[..n - 1] == groups[..n - 1];
    assert Flatten(front) == Flatten(groups[..n - 1]) + shorter.streams;
    assert Flatten(groups) == Flatten(groups[..n - 1]) + last.streams;
    assert Flatten(groups) == Flatten(front) + [x];
    SnocParts(Flatten(front), x);
  }

  lemma WellGroupedPrefix(groups: seq<Group>, m: nat, dayOf: Timestamp -> int)
    requires WellGrouped(groups, dayOf) && m <= |groups|
    ensures WellGrouped(groups[..m], dayOf)
  {
    assert forall k :: 0 <= k < m ==> groups[..m][k] == groups[k];
  }

  /** Dropping the last stream of a last group that holds several keeps the
      grouping well formed. */
  lemma WellGroupedShorter(groups: seq<Group>, dayOf: Timestamp -> int)
    requires WellGrouped(groups, dayOf) && groups != [] && |groups[|groups| - 1].streams| > 1
    ensures var last := groups[|groups| - 1];
      WellGrouped(groups[..|groups| - 1] + [last.(streams := last.streams[..|last.streams| - 1])], dayOf)
  {
    var n := |groups|;
    var last := groups[n - 1];
    var shorter := last.(streams := last.streams[..|last.streams| - 1]);
    var front := groups[..n - 1] + [shorter];
    assert forall y :: y in shorter.streams ==> y in last.streams;
    assert forall k :: 0 <= k < n - 1 ==> front[k] == groups[k];
    assert front[n - 1] == shorter;
  }

  /** Placing after groups that came before: the callback appends to an
      existing `streamGroup`. */
  lemma PlaceAfter(before: seq<Group>, done: seq<Group>, join: bool, x: Stream)
    requires join ==> done != []
    ensures before + Place(done, join, x) == Place(before + done, join, x)
  {
    if join {
      var all := before + done;
      assert all[..|all| - 1] == before + done[..|done| - 1];
    }
  }

  // ---------------------------------------------------------------------
  // The component.

  class YoutubeScheduleStreamComponent {
    var loading: bool
    var streamGroup: seq<Group>
    var updatedAt: string

    constructor ()
      ensures !loading && streamGroup == [] && updatedAt == ""
    {
      loading := false;
      streamGroup := [];
      updatedAt := "";
    }

    /** `ngOnInit` up to the subscription: the page is loading until the
        schedule arrives. Setting the document title is not modelled. */
    method NgOnInit()
      modifies this
      ensures loading && streamGroup == old(streamGroup) && updatedAt == old(updatedAt)
    {
      loading := true;
    }

    /** The subscribe callback: the new groups are appended after whatever
        `streamGroup` already holds; the first stream of the answer always
        opens a group, since no previous schedule is known yet. */
    method OnScheduleStream(res: ScheduleResponse, dayOf: Timestamp -> int)
      modifies this
      ensures !loading && updatedAt == res.updatedAt
      ensures streamGroup == old(streamGroup) + GroupByDay(res.streams, dayOf)
    {
      loading := false;
      updatedAt := res.updatedAt;
      var lastStreamSchedule: Timestamp := 0;
      var haveLast := false;
      ghost var before := streamGroup;
      for i := 0 to |res.streams|
        invariant streamGroup == before + GroupByDay(res.streams[..i], dayOf)
        invariant haveLast == (i > 0)
        invariant i > 0 ==> lastStreamSchedule == res.streams[i - 1].scheduleTime
        invariant !loading && updatedAt == res.updatedAt
      {
        var stream := res.streams[i];
        var schedule := stream.scheduleTime;
        ghost var join := haveLast && dayOf(lastStreamSchedule) == dayOf(schedule);
        assert res.streams[..i + 1][..i] == res.streams[..i];
        PlaceAfter(before, GroupByDay(res.streams[..i], dayOf), join, stream);
        if haveLast && dayOf(lastStreamSchedule) == dayOf(schedule) {
          var last := streamGroup[|streamGroup| - 1];
          streamGroup := streamGroup[..|streamGroup| - 1] + [last.(streams := last.streams + [stream])];
        } else {
          streamGroup := streamGroup + [Group(schedule, [stream])];
        }
        lastStreamSchedule := schedule;
        haveLast := true;
      }
      assert res.streams[..|res.streams|] == res.streams;
    }

    /** `trackBy`: a stream's identity on the page is its id, whatever its index. */
    function TrackBy(index: int, stream: Stream): (key: string)
      ensures key == stream.streamId
    {
      stream.streamId
    }
  }
}
