/**
 * `getTrackingPoints` of both apps: fetch the device's position history page
 * by page, sort each page newest first, turn the records into map points,
 * hand each page's points to the map in one draw call, and follow the next
 * token until the server stops sending one.
 *
 * The server and the clock are inputs: a script of rounds, one per request,
 * each giving the clock reading of that round and the server's reply.
 */
module PositionHistory {
  import opened Optional

  /** The fixed look-back window: `Date().addingTimeInterval(-86400)`. */
  const LookBackSeconds: int := 86400

  /** A record of the history: `position` is `[longitude, latitude]` as the service sends it. */
  datatype DevicePosition = DevicePosition(position: Option<seq<real>>, sampleTime: Option<int>)

  datatype Page = Page(devicePositions: seq<DevicePosition>, nextToken: Option<string>)

  /** `Response`: a page arrived; `Failure`: the call threw. Without a client nothing is
      sent at all, which the callers decide before any round (`client?.` yields `nil`). */
  datatype Reply = Response(page: Page) | Failure

  /** One request/response exchange: the clock reading of the round, the reply, and whether
      the tracking-active flag is still set when the recursive call for the next token
      checks its guard again (a stop may run while the page is awaited). */
  datatype Round = Round(now: int, reply: Reply, activeAfter: bool)

  /** The arguments of `getTrackerDeviceLocation`. */
  datatype Request = Request(nextToken: Option<string>, startTime: int, endTime: int)

  datatype Coordinate = Coordinate(latitude: real, longitude: real)

  /** The location sample app (`AuthViewModel`) and the quick-start app (`TrackingViewModel`). */
  datatype App = SampleApp | QuickStartApp

  /** What one `getTrackingPoints` call does: the requests it sends, the point lists it
      draws (one draw call per page), the checkpoint it leaves, and whether it throws. */
  datatype Fetch = Fetch(
    requests: seq<Request>,
    draws: seq<seq<Coordinate>>,
    lastGetTrackingTime: Option<int>,
    thrown: bool)

  // ---------------------------------------------------------------------------
  // Sorting a page newest first

  /** `sampleTime ?? Date()`: a record without a time sorts as if taken now. */
  function SortKey(p: DevicePosition, now: int): int {
    p.sampleTime.GetOr(now)
  }

  /** Non-increasing by sort key, which is what `sorted { $0 > $1 }` guarantees. */
  predicate NewestFirst(s: seq<DevicePosition>, now: int) {
    forall i, j :: 0 <= i < j < |s| ==> SortKey(s[i], now) >= SortKey(s[j], now)
  }

  /** In a newest-first sequence the first record is at least as new as every record. */
  lemma HeadIsNewest(s: seq<DevicePosition>, now: int)
    requires NewestFirst(s, now) && |s| > 0
    ensures forall x :: x in s ==> SortKey(x, now) <= SortKey(s[0], now)
  {
  }

  /** A record at least as new as everything in a newest-first sequence may go in front. */
  lemma ConsNewestFirst(x: DevicePosition, s: seq<DevicePosition>, now: int)
    requires NewestFirst(s, now)
    requires forall y :: y in s ==> SortKey(y, now) <= SortKey(x, now)
    ensures NewestFirst([x] + s, now)
  {
    var r := [x] + s;
    forall i, j | 0 <= i < j < |r|
      ensures SortKey(r[i], now) >= SortKey(r[j], now)
    {
      assert r[j] == s[j - 1];
      assert s[j - 1] in s;
      if i > 0 {
        assert r[i] == s[i - 1];
      }
    }
  }

  /** One step of the insertion sort: `p` goes in front of the first record that is
      strictly older. */
  function Insert(p: DevicePosition, s: seq<DevicePosition>, now: int): (r: seq<DevicePosition>)
    ensures |r| == |s| + 1
  {
    if |s| == 0 || SortKey(p, now) >= SortKey(s[0], now) then [p] + s
    else [s[0]] + Insert(p, s[1..], now)
  }

  /** Inserting adds exactly `p` to the records. */
  lemma {:induction false} InsertPermutes(p: DevicePosition, s: seq<DevicePosition>, now: int)
    ensures multiset(Insert(p, s, now)) == multiset(s) + multiset{p}
    decreases |s|
  {
    if |s| > 0 && SortKey(p, now) < SortKey(s[0], now) {
      InsertPermutes(p, s[1..], now);
      assert s == [s[0]] + s[1..];
    }
  }

  /** Inserting into a newest-first sequence keeps it newest first. */
  lemma {:induction false} InsertNewestFirst(p: DevicePosition, s: seq<DevicePosition>, now: int)
    requires NewestFirst(s, now)
    ensures NewestFirst(Insert(p, s, now), now)
    decreases |s|
  {
    if |s| == 0 || SortKey(p, now) >= SortKey(s[0], now) {
      if |s| > 0 {
        HeadIsNewest(s, now);
      }
      ConsNewestFirst(p, s, now);
    } else {
      var rest := Insert(p, s[1..], now);
      InsertNewestFirst(p, s[1..], now);
      InsertPermutes(p, s[1..], now);
      HeadIsNewest(s, now);
      assert s == [s[0]] + s[1..];
      forall x | x in rest
        ensures SortKey(x, now) <= SortKey(s[0], now)
      {
        assert x in multiset(rest);
        assert x == p || x in s[1..];
      }
      ConsNewestFirst(s[0], rest, now);
    }
  }

  /** The page in the order the apps draw it. Swift's `sorted` is not stable, so the model
      fixes one order (an insertion sort) and every property below rests only on
      `SortIsNewestFirstPermutation`: a permutation of the page that is newest first. */
  function SortNewestFirst(s: seq<DevicePosition>, now: int): (r: seq<DevicePosition>)
    ensures |r| == |s|
  {
    if |s| == 0 then [] else Insert(s[0], SortNewestFirst(s[1..], now), now)
  }

  lemma {:induction false} SortIsNewestFirstPermutation(s: seq<DevicePosition>, now: int)
    ensures NewestFirst(SortNewestFirst(s, now), now)
    ensures multiset(SortNewestFirst(s, now)) == multiset(s)
    ensures forall x :: x in SortNewestFirst(s, now) <==> x in s
  {
    var r := SortNewestFirst(s, now);
    SortOrders(s, now);
    SortPermutes(s, now);
    assert forall x :: x in r <==> x in multiset(r);
  }

  /** The order half of `SortIsNewestFirstPermutation`. */
  lemma {:induction false} SortOrders(s: seq<DevicePosition>, now: int)
    ensures NewestFirst(SortNewestFirst(s, now), now)
    decreases |s|
  {
    if |s| > 0 {
      SortOrders(s[1..], now);
      InsertNewestFirst(s[0], SortNewestFirst(s[1..], now), now);
    }
  }

  /** The contents half of `SortIsNewestFirstPermutation`. */
  lemma {:induction false} SortPermutes(s: seq<DevicePosition>, now: int)
    ensures multiset(SortNewestFirst(s, now)) == multiset(s)
    decreases |s|
  {
    if |s| > 0 {
      SortPermutes(s[1..], now);
      InsertPermutes(s[0], SortNewestFirst(s[1..], now), now);
      assert s == [s[0]] + s[1..];
    }
  }

  // ---------------------------------------------------------------------------
  // Turning records into points

  /** The records each app can process without trapping. The sample app reads
      `position?[1]` and `position?[0]`, which trap on an array shorter than two; the
      quick-start app force-unwraps `position!`, which traps on a missing array. */
  predicate Extractable(app: App, p: DevicePosition) {
    match app
    case SampleApp => p.position.Some? ==> |p.position.value| >= 2
    case QuickStartApp => p.position.Some?
  }

  /** The records that become points: the sample app drops a missing array, the
      quick-start app drops an empty one (`last` / `first` are `nil`). */
  predicate Plotted(app: App, p: DevicePosition) {
    match app
    case SampleApp => p.position.Some?
    case QuickStartApp => p.position.Some? && p.position.value != []
  }

  /** The sample app reads latitude at index 1 and longitude at index 0; the quick-start
      app reads latitude from the last element and longitude from the first. */
  function PointOf(app: App, p: DevicePosition): (r: Coordinate)
    requires Extractable(app, p) && Plotted(app, p)
    ensures r.longitude == p.position.value[0] && r.latitude in p.position.value
    ensures app == SampleApp ==> r.latitude == p.position.value[1]
    ensures app == QuickStartApp ==> r.latitude == p.position.value[|p.position.value| - 1]
  {
    var c := p.position.value;
    match app
    case SampleApp => Coordinate(c[1], c[0])
    case QuickStartApp => Coordinate(c[|c| - 1], c[0])
  }

  predicate AllExtractable(app: App, s: seq<DevicePosition>) {
    forall x :: x in s ==> Extractable(app, x)
  }

  /** The records of `s` that become points, in their order in `s`. */
  function PlottedRecords(app: App, s: seq<DevicePosition>): (r: seq<DevicePosition>)
    ensures |r| <= |s|
  {
    if |s| == 0 then []
    else if Plotted(app, s[0]) then [s[0]] + PlottedRecords(app, s[1..])
    else PlottedRecords(app, s[1..])
  }

  /** Every record `PlottedRecords` keeps comes from the page. */
  lemma {:induction false} PlottedRecordsMembers(app: App, s: seq<DevicePosition>)
    ensures forall x :: x in PlottedRecords(app, s) ==> x in s
    decreases |s|
  {
    if |s| > 0 {
      PlottedRecordsMembers(app, s[1..]);
    }
  }

  /** `PlottedRecords` keeps every plotted record, as often as it occurs, and nothing else. */
  lemma {:induction false} PlottedRecordsFilter(app: App, s: seq<DevicePosition>)
    ensures forall x :: multiset(PlottedRecords(app, s))[x] == if Plotted(app, x) then multiset(s)[x] else 0
    ensures forall x :: x in PlottedRecords(app, s) ==> Plotted(app, x) && x in s
    decreases |s|
  {
    if |s| > 0 {
      PlottedRecordsFilter(app, s[1..]);
      assert s == [s[0]] + s[1..];
    }
  }

  /** The `compactMap` of both apps: one point per plotted record, in order. */
  function Points(app: App, s: seq<DevicePosition>): (r: seq<Coordinate>)
    requires AllExtractable(app, s)
    ensures |r| <= |s|
  {
    if |s| == 0 then []
    else
      var rest := Points(app, s[1..]);
      if Plotted(app, s[0]) then [PointOf(app, s[0])] + rest else rest
  }

  /** The points are the plotted records, each read by `PointOf`, in the same order. */
  lemma {:induction false} PointsOfPlottedRecords(app: App, s: seq<DevicePosition>)
    requires AllExtractable(app, s)
    ensures |Points(app, s)| == |PlottedRecords(app, s)|
    ensures forall k :: 0 <= k < |Points(app, s)| ==>
      && Extractable(app, PlottedRecords(app, s)[k]) && Plotted(app, PlottedRecords(app, s)[k])
      && Points(app, s)[k] == PointOf(app, PlottedRecords(app, s)[k])
    decreases |s|
  {
    if |s| > 0 {
      PointsOfPlottedRecords(app, s[1..]);
      PlottedRecordsFilter(app, s[1..]);
      var r := Points(app, s);
      var rest := Points(app, s[1..]);
      var recs := PlottedRecords(app, s);
      var recsRest := PlottedRecords(app, s[1..]);
      if Plotted(app, s[0]) {
        forall k | 0 < k < |r|
          ensures recs[k] == recsRest[k - 1] && r[k] == rest[k - 1]
        {
        }
        forall k | 0 <= k < |r|
          ensures Extractable(app, recs[k])
        {
          assert recs[k] in recs;
        }
      } else {
        forall k | 0 <= k < |r|
          ensures Extractable(app, recs[k])
        {
          assert recs[k] in recs;
        }
      }
    }
  }

  /** The points one page contributes: the page sorted newest first, then `compactMap`. */
  function PagePoints(app: App, positions: seq<DevicePosition>, now: int): (r: seq<Coordinate>)
    requires AllExtractable(app, positions)
    ensures |r| <= |positions|
  {
    SortIsNewestFirstPermutation(positions, now);
    Points(app, SortNewestFirst(positions, now))
  }

  /** Keeping the plotted records keeps a newest-first order. */
  lemma {:induction false} PlottedRecordsNewestFirst(app: App, s: seq<DevicePosition>, now: int)
    requires NewestFirst(s, now)
    ensures NewestFirst(PlottedRecords(app, s), now)
    decreases |s|
  {
    if |s| > 0 {
      var t := s[1..];
      var rest := PlottedRecords(app, t);
      PlottedRecordsNewestFirst(app, t, now);
      if Plotted(app, s[0]) {
        HeadIsNewest(s, now);
        PlottedRecordsMembers(app, t);
        assert forall x :: x in t ==> x in s;
        ConsNewestFirst(s[0], rest, now);
      }
    }
  }

  /** The points drawn for a page are exactly the page's plotted records, newest first:
      sorting before dropping records is the same as dropping them first and then
      sorting, up to the order among equal sort keys. */
  lemma DrawnRecordsNewestFirst(app: App, s: seq<DevicePosition>, now: int)
    requires AllExtractable(app, s)
    ensures var recs := PlottedRecords(app, SortNewestFirst(s, now));
      && NewestFirst(recs, now)
      && multiset(recs) == multiset(PlottedRecords(app, s))
      && |PagePoints(app, s, now)| == |recs|
      && forall k :: 0 <= k < |recs| ==>
           Extractable(app, recs[k]) && Plotted(app, recs[k])
           && PagePoints(app, s, now)[k] == PointOf(app, recs[k])
  {
    var sorted := SortNewestFirst(s, now);
    SortIsNewestFirstPermutation(s, now);
    PlottedRecordsNewestFirst(app, sorted, now);
    PlottedRecordsFilter(app, sorted);
    PlottedRecordsFilter(app, s);
    PointsOfPlottedRecords(app, sorted);
    var a := PlottedRecords(app, sorted);
    var b := PlottedRecords(app, s);
    assert forall x :: multiset(a)[x] == multiset(b)[x];
  }

  /** The quick-start app turns a one-element array into a point whose latitude equals
      its longitude. */
  lemma SingleValueIsBothCoordinates(p: DevicePosition)
    requires p.position.Some? && |p.position.value| == 1
    ensures Plotted(QuickStartApp, p) && Extractable(QuickStartApp, p)
    ensures PointOf(QuickStartApp, p).latitude == PointOf(QuickStartApp, p).longitude
  {
  }

  // ---------------------------------------------------------------------------
  // Following the next token

  /** A round after which the drain goes on: a page with a next token arrived, and the
      re-entered guard still finds tracking active. */
  predicate Continues(round: Round) {
    round.reply.Response? && round.reply.page.nextToken.Some? && round.activeAfter
  }

  /** How many rounds a drain consumes: it goes on while each reply is a page that carries
      a next token and tracking is still active, and stops at the first other round or at
      the end of the script. */
  function Consumed(rounds: seq<Round>): (n: nat)
    ensures n <= |rounds|
    ensures |rounds| > 0 ==> n > 0
  {
    if |rounds| == 0 then 0
    else if Continues(rounds[0]) then 1 + Consumed(rounds[1..])
    else 1
  }

  /** Every page the drain reaches can be processed without trapping. */
  predicate ReachedPagesExtractable(app: App, rounds: seq<Round>)
    decreases |rounds|
  {
    |rounds| > 0 ==>
      && (rounds[0].reply.Response? ==> AllExtractable(app, rounds[0].reply.page.devicePositions))
      && (Continues(rounds[0]) ==> ReachedPagesExtractable(app, rounds[1..]))
  }

  /** The body of `getTrackingPoints` past its guard, with its recursion on the next token.
      Each round: request the window from 24 hours before now up to the checkpoint (or now
      when there is none); on a page, move the checkpoint to now, draw the page's points
      newest first, and recurse when the page has a next token; the recursive call's guard
      returns at once when tracking was stopped meanwhile. */
  function Drain(app: App, last: Option<int>, token: Option<string>, rounds: seq<Round>): (r: Fetch)
    requires ReachedPagesExtractable(app, rounds)
    ensures |r.requests| == Consumed(rounds)
    ensures |r.draws| <= |r.requests| <= |r.draws| + 1
    ensures |r.requests| > 0 ==> (|r.draws| == |r.requests| <==> rounds[|r.requests| - 1].reply.Response?)
    ensures r.thrown <==> app == QuickStartApp && |r.requests| > 0 && rounds[|r.requests| - 1].reply.Failure?
    decreases |rounds|
  {
    if |rounds| == 0 then Fetch([], [], last, false)
    else
      var now := rounds[0].now;
      var request := Request(token, now - LookBackSeconds, last.GetOr(now));
      match rounds[0].reply
      case Failure => Fetch([request], [], last, app == QuickStartApp)
      case Response(page) =>
        var points := PagePoints(app, page.devicePositions, now);
        if page.nextToken.None? || !rounds[0].activeAfter then Fetch([request], [points], Some(now), false)
        else
          var rest := Drain(app, Some(now), page.nextToken, rounds[1..]);
          Fetch([request] + rest.requests, [points] + rest.draws, rest.lastGetTrackingTime, rest.thrown)
  }

  /** The request a round sends. */
  function RequestOf(last: Option<int>, token: Option<string>, now: int): Request {
    Request(token, now - LookBackSeconds, last.GetOr(now))
  }

  /** One step of the recursion: a page with a next token, followed by the drain of the rest. */
  lemma DrainStep(app: App, last: Option<int>, token: Option<string>, rounds: seq<Round>)
    requires |rounds| > 0 && Continues(rounds[0])
    requires ReachedPagesExtractable(app, rounds)
    ensures ReachedPagesExtractable(app, rounds[1..])
    ensures var now := rounds[0].now;
      var page := rounds[0].reply.page;
      var rest := Drain(app, Some(now), page.nextToken, rounds[1..]);
      Drain(app, last, token, rounds)
        == Fetch([RequestOf(last, token, now)] + rest.requests,
                 [PagePoints(app, page.devicePositions, now)] + rest.draws,
                 rest.lastGetTrackingTime, rest.thrown)
  {
  }

  /** The last round of a drain: no page with a next token, so no recursion. */
  lemma DrainFinal(app: App, last: Option<int>, token: Option<string>, rounds: seq<Round>)
    requires |rounds| > 0 && !Continues(rounds[0])
    requires ReachedPagesExtractable(app, rounds)
    ensures var now := rounds[0].now;
      var request := RequestOf(last, token, now);
      Drain(app, last, token, rounds)
        == if rounds[0].reply.Response? then
             Fetch([request], [PagePoints(app, rounds[0].reply.page.devicePositions, now)], Some(now), false)
           else Fetch([request], [], last, app == QuickStartApp)
  {
  }

  /** A stop that lands while a page is awaited ends the paging after that page: its points
      are drawn and the checkpoint moves, but its next token is not followed. */
  lemma StopWhilePagingEndsDrain(app: App, last: Option<int>, token: Option<string>, rounds: seq<Round>)
    requires |rounds| > 0 && rounds[0].reply.Response? && !rounds[0].activeAfter
    requires ReachedPagesExtractable(app, rounds)
    ensures var r := Drain(app, last, token, rounds);
      && r.requests == [RequestOf(last, token, rounds[0].now)]
      && r.draws == [PagePoints(app, rounds[0].reply.page.devicePositions, rounds[0].now)]
      && r.lastGetTrackingTime == Some(rounds[0].now) && !r.thrown
  {
    DrainFinal(app, last, token, rounds);
  }

  /** Every request asks for the 24 hours before its round's clock reading. */
  lemma {:induction false} DrainStartTimes(app: App, last: Option<int>, token: Option<string>, rounds: seq<Round>)
    requires ReachedPagesExtractable(app, rounds)
    ensures var r := Drain(app, last, token, rounds);
      forall i :: 0 <= i < |r.requests| ==> r.requests[i].startTime == rounds[i].now - LookBackSeconds
    decreases |rounds|
  {
    if |rounds| > 0 && !Continues(rounds[0]) {
      DrainFinal(app, last, token, rounds);
    } else if |rounds| > 0 {
      DrainStep(app, last, token, rounds);
      var now := rounds[0].now;
      DrainStartTimes(app, Some(now), rounds[0].reply.page.nextToken, rounds[1..]);
      var r := Drain(app, last, token, rounds);
      var rest := Drain(app, Some(now), rounds[0].reply.page.nextToken, rounds[1..]);
      forall i | 0 <= i < |r.requests|
        ensures r.requests[i].startTime == rounds[i].now - LookBackSeconds
      {
        if i > 0 {
          assert r.requests[i] == rest.requests[i - 1];
          assert rounds[i] == rounds[1..][i - 1];
        }
      }
    }
  }

  /** The first request carries the caller's token and ends at the incoming checkpoint, or
      at now when there is none. */
  lemma DrainFirstRequest(app: App, last: Option<int>, token: Option<string>, rounds: seq<Round>)
    requires ReachedPagesExtractable(app, rounds)
    ensures var r := Drain(app, last, token, rounds);
      |r.requests| > 0 ==> r.requests[0] == RequestOf(last, token, rounds[0].now)
  {
    if |rounds| > 0 && Continues(rounds[0]) {
      DrainStep(app, last, token, rounds);
    }
  }

  /** Each later request carries the previous page's next token and ends at the checkpoint
      that page set, its round's clock reading. */
  lemma {:induction false} DrainFollowUps(app: App, last: Option<int>, token: Option<string>, rounds: seq<Round>)
    requires ReachedPagesExtractable(app, rounds)
    ensures var r := Drain(app, last, token, rounds);
      forall i :: 0 <= i < |r.requests| - 1 ==>
        && Continues(rounds[i])
        && r.requests[i + 1].nextToken == rounds[i].reply.page.nextToken
        && r.requests[i + 1].endTime == rounds[i].now
    decreases |rounds|
  {
    if |rounds| > 0 && !Continues(rounds[0]) {
      DrainFinal(app, last, token, rounds);
    } else if |rounds| > 0 {
      DrainStep(app, last, token, rounds);
      var now := rounds[0].now;
      var next := rounds[0].reply.page.nextToken;
      DrainFollowUps(app, Some(now), next, rounds[1..]);
      DrainFirstRequest(app, Some(now), next, rounds[1..]);
      var r := Drain(app, last, token, rounds);
      var rest := Drain(app, Some(now), next, rounds[1..]);
      forall i | 0 <= i < |r.requests| - 1
        ensures && Continues(rounds[i])
                && r.requests[i + 1].nextToken == rounds[i].reply.page.nextToken
                && r.requests[i + 1].endTime == rounds[i].now
      {
        assert r.requests[i + 1] == rest.requests[i];
        if i == 0 {
          assert rest.requests[0] == RequestOf(Some(now), next, rounds[1].now);
        } else {
          assert rounds[i] == rounds[1..][i - 1];
        }
      }
    }
  }

  /** One draw call per page received, in fetch order, each with that page's points sorted
      newest first. */
  lemma {:induction false} DrainDraws(app: App, last: Option<int>, token: Option<string>, rounds: seq<Round>)
    requires ReachedPagesExtractable(app, rounds)
    ensures var r := Drain(app, last, token, rounds);
      forall i :: 0 <= i < |r.draws| ==>
        && rounds[i].reply.Response?
        && AllExtractable(app, rounds[i].reply.page.devicePositions)
        && r.draws[i] == PagePoints(app, rounds[i].reply.page.devicePositions, rounds[i].now)
    decreases |rounds|
  {
    if |rounds| > 0 && !Continues(rounds[0]) {
      DrainFinal(app, last, token, rounds);
    } else if |rounds| > 0 {
      DrainStep(app, last, token, rounds);
      var now := rounds[0].now;
      DrainDraws(app, Some(now), rounds[0].reply.page.nextToken, rounds[1..]);
      var r := Drain(app, last, token, rounds);
      var rest := Drain(app, Some(now), rounds[0].reply.page.nextToken, rounds[1..]);
      forall i | 0 < i < |r.draws|
        ensures r.draws[i] == rest.draws[i - 1] && rounds[i] == rounds[1..][i - 1]
      {
      }
    }
  }

  /** The checkpoint ends at the clock reading of the last page received, and stays as it was
      when no page arrived: a failure after some pages leaves their draws and checkpoint. */
  lemma {:induction false} DrainCheckpoint(app: App, last: Option<int>, token: Option<string>, rounds: seq<Round>)
    requires ReachedPagesExtractable(app, rounds)
    ensures var r := Drain(app, last, token, rounds);
      r.lastGetTrackingTime == if |r.draws| == 0 then last else Some(rounds[|r.draws| - 1].now)
    decreases |rounds|
  {
    if |rounds| > 0 && !Continues(rounds[0]) {
      DrainFinal(app, last, token, rounds);
    } else if |rounds| > 0 {
      DrainStep(app, last, token, rounds);
      var now := rounds[0].now;
      DrainCheckpoint(app, Some(now), rounds[0].reply.page.nextToken, rounds[1..]);
      var rest := Drain(app, Some(now), rounds[0].reply.page.nextToken, rounds[1..]);
      var r := Drain(app, last, token, rounds);
      assert |r.draws| == |rest.draws| + 1;
      assert r.lastGetTrackingTime == rest.lastGetTrackingTime;
      if |rest.draws| > 0 {
        assert rounds[1..][|rest.draws| - 1] == rounds[|rest.draws|];
      }
    }
  }

  /** `AuthViewModel.getTrackingPoints`: guarded by the persisted tracking-active flag
      (absent counts as false); without a client `client?.` sends nothing and the reply is
      `nil`, so nothing changes; every error is caught and printed. */
  function SampleGetTrackingPoints(trackingActive: Option<bool>, hasClient: bool, last: Option<int>,
                                   token: Option<string>, rounds: seq<Round>): (r: Fetch)
    requires trackingActive == Some(true) && hasClient ==> ReachedPagesExtractable(SampleApp, rounds)
    ensures trackingActive != Some(true) || !hasClient ==> r == Fetch([], [], last, false)
    ensures trackingActive == Some(true) && hasClient ==> |r.requests| == Consumed(rounds)
    ensures !r.thrown
  {
    if trackingActive == Some(true) && hasClient then Drain(SampleApp, last, token, rounds)
    else Fetch([], [], last, false)
  }

  /** `TrackingViewModel.getTrackingPoints`: guarded by the in-memory `trackingActive`;
      without a client nothing is sent and nothing changes; an error thrown by a fetch
      propagates to the caller, after the earlier pages were drawn. */
  function QuickStartGetTrackingPoints(trackingActive: bool, hasClient: bool, last: Option<int>,
                                       token: Option<string>, rounds: seq<Round>): (r: Fetch)
    requires trackingActive && hasClient ==> ReachedPagesExtractable(QuickStartApp, rounds)
    ensures !trackingActive || !hasClient ==> r == Fetch([], [], last, false)
    ensures trackingActive && hasClient ==> |r.requests| == Consumed(rounds)
    ensures r.thrown <==> trackingActive && hasClient && |r.requests| > 0 && rounds[|r.requests| - 1].reply.Failure?
  {
    if trackingActive && hasClient then Drain(QuickStartApp, last, token, rounds)
    else Fetch([], [], last, false)
  }
}
