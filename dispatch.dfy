/** The tool dispatcher: what one function call answers, how it changes the
    departure board, which log lines it adds and which request it makes of the
    outside world, and the same for a whole batch of calls handled in order.
    The schedule store and the geolocation provider are oracles: a `World`
    holds the answer each of them would give to one call. */
module Dispatch {
  import opened Protocol
  import opened Board

  const LOCATION_DENIED: string := "Location access denied"

  /** One row the store returns for a lookup (only `departure_time` is selected). */
  datatype Row = Row(departureTime: string)

  /** The store's reply to a lookup: `data` (possibly null) or an error. */
  datatype QueryAnswer = Rows(data: Option<seq<Row>>) | QueryFailed(message: string)

  /** The store's reply to an insert. */
  datatype InsertAnswer = Inserted | InsertFailed(message: string)

  /** The geolocation provider's reply: a position or a rejection. */
  datatype GeoAnswer = Position(latitude: real, longitude: real) | GeoDenied

  datatype World = World(query: QueryAnswer, insert: InsertAnswer, geo: GeoAnswer)

  /** The record inserted into the store; it has no train number. */
  datatype Record = Record(origin: string, destination: string, departureTime: string, dayType: string)

  /** A request made of an external collaborator. Lookups order rows by departure time, ascending. */
  datatype Request =
    | Query(origin: string, destination: string, dayType: string)
    | Insert(record: Record)
    | Locate

  predicate Known(name: string)
  {
    name == CHECK_SCHEDULE_CACHE || name == CACHE_SCHEDULE_ENTRY || name == GET_USER_LOCATION
  }

  /** `data.map(d => d.departure_time)` */
  function Times(rows: seq<Row>): seq<string>
  {
    seq(|rows|, i requires 0 <= i < |rows| => rows[i].departureTime)
  }

  /** The board rows a cache hit shows: one per time, in order. */
  function CacheItems(origin: string, destination: string, times: seq<string>): seq<ScheduleItem>
  {
    seq(|times|, i requires 0 <= i < |times| => ScheduleItem(Upper(origin), Upper(destination), times[i], OnTime, Cache))
  }

  /** The board row a saved entry adds. */
  function WebItem(args: Args): ScheduleItem
  {
    ScheduleItem(Upper(args.origin), Upper(args.destination), args.departureTime, OnTime, Web)
  }

  /** A lookup that found rows. */
  predicate IsHit(call: FunctionCall, world: World)
  {
    call.name == CHECK_SCHEDULE_CACHE && world.query.Rows? && world.query.data.Some? && |world.query.data.value| > 0
  }

  /** An entry the store accepted. */
  predicate IsSaved(call: FunctionCall, world: World)
  {
    call.name == CACHE_SCHEDULE_ENTRY && world.insert.Inserted?
  }

  /** The collaborator the call needs failed: a store error or a denied position. */
  predicate CollaboratorFailed(call: FunctionCall, world: World)
  {
    || (call.name == CHECK_SCHEDULE_CACHE && world.query.QueryFailed?)
    || (call.name == CACHE_SCHEDULE_ENTRY && world.insert.InsertFailed?)
    || (call.name == GET_USER_LOCATION && world.geo.GeoDenied?)
  }

  /** The result payload of one call. It is an error exactly when the collaborator failed,
      carrying the store's message or "Location access denied"; empty exactly when the tool
      name is unknown; a list of times exactly on a cache hit, where it lists the rows'
      departure times in the store's order; "not found" exactly on a lookup whose rows are
      absent or empty; "saved" exactly on an accepted entry; and the provider's coordinates
      exactly on a granted position. */
  function Answer(call: FunctionCall, world: World): (p: Payload)
    ensures p.Failed? <==> CollaboratorFailed(call, world)
    ensures p.Empty? <==> !Known(call.name)
    ensures p.Found? <==> IsHit(call, world)
    ensures p.Found? ==> |p.times| == |world.query.data.value|
                         && forall i :: 0 <= i < |p.times| ==> p.times[i] == world.query.data.value[i].departureTime
    ensures p.NotFound? <==> call.name == CHECK_SCHEDULE_CACHE && world.query.Rows? && !IsHit(call, world)
    ensures p.Saved? <==> IsSaved(call, world)
    ensures p.Located? <==> call.name == GET_USER_LOCATION && world.geo.Position?
    ensures p.Located? ==> p.latitude == world.geo.latitude && p.longitude == world.geo.longitude
    ensures call.name == CHECK_SCHEDULE_CACHE && world.query.QueryFailed? ==> p == Failed(world.query.message)
    ensures call.name == CACHE_SCHEDULE_ENTRY && world.insert.InsertFailed? ==> p == Failed(world.insert.message)
    ensures call.name == GET_USER_LOCATION && world.geo.GeoDenied? ==> p == Failed(LOCATION_DENIED)
  {
    if call.name == CHECK_SCHEDULE_CACHE then
      match world.query
      case QueryFailed(message) => Failed(message)
      case Rows(data) => if data.Some? && |data.value| > 0 then Found(Times(data.value)) else NotFound
    else if call.name == CACHE_SCHEDULE_ENTRY then
      match world.insert
      case InsertFailed(message) => Failed(message)
      case Inserted => Saved
    else if call.name == GET_USER_LOCATION then
      match world.geo
      case GeoDenied => Failed(LOCATION_DENIED)
      case Position(latitude, longitude) => Located(latitude, longitude)
    else
      Empty
  }

  /** The board after one call. A cache hit replaces it by one on-time Cache row per time
      the call answered, in the same order, with origin and destination upper-cased; a save
      appends exactly one on-time Web row for the saved entry and keeps every earlier row;
      anything else leaves it as it was. */
  function BoardAfterCall(board: seq<ScheduleItem>, call: FunctionCall, world: World): (b: seq<ScheduleItem>)
    ensures IsHit(call, world) ==>
      var times := Answer(call, world).times;
      && |b| == |times|
      && forall k :: 0 <= k < |b| ==>
           b[k] == ScheduleItem(Upper(call.args.origin), Upper(call.args.destination), times[k], OnTime, Cache)
    ensures IsSaved(call, world) ==>
      && |b| == |board| + 1
      && b[..|board|] == board
      && b[|board|] == ScheduleItem(Upper(call.args.origin), Upper(call.args.destination), call.args.departureTime, OnTime, Web)
    ensures !IsHit(call, world) && !IsSaved(call, world) ==> b == board
  {
    if IsHit(call, world) then CacheItems(call.args.origin, call.args.destination, Times(world.query.data.value))
    else if IsSaved(call, world) then board + [WebItem(call.args)]
    else board
  }

  /** The log lines of one call: a "Calling" line, then for a known tool exactly one line
      on its outcome, an error line exactly when its collaborator failed. The outcome line
      reports the number of rows of a hit, a miss, the learned entry, the position, the
      denial, or the store's error message. */
  function LogFor(call: FunctionCall, world: World): (log: seq<LogEntry>)
    ensures |log| == if Known(call.name) then 2 else 1
    ensures log[0] == LogEntry(Tool, Calling(call.name))
    ensures |log| == 2 ==> (log[1].kind == Error <==> CollaboratorFailed(call, world))
    ensures IsHit(call, world) ==> log[1] == LogEntry(Info, CacheHit(|world.query.data.value|))
    ensures call.name == CHECK_SCHEDULE_CACHE && world.query.Rows? && !IsHit(call, world) ==>
              log[1] == LogEntry(Info, CacheMiss)
    ensures call.name == CHECK_SCHEDULE_CACHE && world.query.QueryFailed? ==>
              log[1] == LogEntry(Error, ToolError(world.query.message))
    ensures IsSaved(call, world) ==>
              log[1] == LogEntry(Info, Learned(call.args.origin, call.args.destination, call.args.departureTime))
    ensures call.name == CACHE_SCHEDULE_ENTRY && world.insert.InsertFailed? ==>
              log[1] == LogEntry(Error, ToolError(world.insert.message))
    ensures call.name == GET_USER_LOCATION && world.geo.Position? ==>
              log[1] == LogEntry(Info, Location(world.geo.latitude, world.geo.longitude))
    ensures call.name == GET_USER_LOCATION && world.geo.GeoDenied? ==>
              log[1] == LogEntry(Error, LocationDenied)
  {
    var calling := LogEntry(Tool, Calling(call.name));
    if call.name == CHECK_SCHEDULE_CACHE then
      match world.query
      case QueryFailed(message) => [calling, LogEntry(Error, ToolError(message))]
      case Rows(data) =>
        if data.Some? && |data.value| > 0 then [calling, LogEntry(Info, CacheHit(|data.value|))]
        else [calling, LogEntry(Info, CacheMiss)]
    else if call.name == CACHE_SCHEDULE_ENTRY then
      match world.insert
      case InsertFailed(message) => [calling, LogEntry(Error, ToolError(message))]
      case Inserted => [calling, LogEntry(Info, Learned(call.args.origin, call.args.destination, call.args.departureTime))]
    else if call.name == GET_USER_LOCATION then
      match world.geo
      case GeoDenied => [calling, LogEntry(Error, LocationDenied)]
      case Position(latitude, longitude) => [calling, LogEntry(Info, Location(latitude, longitude))]
    else
      [calling]
  }

  /** The request one call makes of the outside world: a lookup by origin, destination and
      day type; an insert of a record with origin, destination, departure time and day type
      and no train number; a position request; nothing for an unknown tool. */
  function RequestFor(call: FunctionCall): (rs: seq<Request>)
    ensures |rs| == if Known(call.name) then 1 else 0
    ensures call.name == CHECK_SCHEDULE_CACHE ==>
              rs == [Query(call.args.origin, call.args.destination, call.args.dayType)]
    ensures call.name == CACHE_SCHEDULE_ENTRY ==>
              rs == [Insert(Record(call.args.origin, call.args.destination, call.args.departureTime, call.args.dayType))]
    ensures call.name == GET_USER_LOCATION ==> rs == [Locate]
  {
    if call.name == CHECK_SCHEDULE_CACHE then [Query(call.args.origin, call.args.destination, call.args.dayType)]
    else if call.name == CACHE_SCHEDULE_ENTRY then
      [Insert(Record(call.args.origin, call.args.destination, call.args.departureTime, call.args.dayType))]
    else if call.name == GET_USER_LOCATION then [Locate]
    else []
  }

  /** The response entry of one call. */
  function Respond(call: FunctionCall, world: World): FunctionResponse
  {
    FunctionResponse(call.id, call.name, ResponseBody(Answer(call, world)))
  }

  // ------------------------------------------------------------- a batch

  function Responses(calls: seq<FunctionCall>, worlds: seq<World>): (r: seq<FunctionResponse>)
    requires |worlds| == |calls|
    ensures |r| == |calls|
    decreases |calls|
  {
    if calls == [] then []
    else
      var n := |calls| - 1;
      Responses(calls[..n], worlds[..n]) + [Respond(calls[n], worlds[n])]
  }

  function BoardAfter(board: seq<ScheduleItem>, calls: seq<FunctionCall>, worlds: seq<World>): seq<ScheduleItem>
    requires |worlds| == |calls|
    decreases |calls|
  {
    if calls == [] then board
    else
      var n := |calls| - 1;
      BoardAfterCall(BoardAfter(board, calls[..n], worlds[..n]), calls[n], worlds[n])
  }

  function LogsFor(calls: seq<FunctionCall>, worlds: seq<World>): seq<LogEntry>
    requires |worlds| == |calls|
    decreases |calls|
  {
    if calls == [] then []
    else
      var n := |calls| - 1;
      LogsFor(calls[..n], worlds[..n]) + LogFor(calls[n], worlds[n])
  }

  function RequestsFor(calls: seq<FunctionCall>): seq<Request>
    decreases |calls|
  {
    if calls == [] then []
    else
      var n := |calls| - 1;
      RequestsFor(calls[..n]) + RequestFor(calls[n])
  }

  /** Answering one more call of a batch extends each batch definition by that call's part. */
  lemma BatchStep(calls: seq<FunctionCall>, worlds: seq<World>, i: nat)
    requires |worlds| == |calls| && i < |calls|
    ensures Responses(calls[..i + 1], worlds[..i + 1])
         == Responses(calls[..i], worlds[..i]) + [Respond(calls[i], worlds[i])]
    ensures forall board ::
      (BoardAfter(board, calls[..i + 1], worlds[..i + 1])
         == BoardAfterCall(BoardAfter(board, calls[..i], worlds[..i]), calls[i], worlds[i]))
    ensures LogsFor(calls[..i + 1], worlds[..i + 1])
         == LogsFor(calls[..i], worlds[..i]) + LogFor(calls[i], worlds[i])
    ensures RequestsFor(calls[..i + 1]) == RequestsFor(calls[..i]) + RequestFor(calls[i])
  {
    assert calls[..i + 1][..i] == calls[..i];
    assert worlds[..i + 1][..i] == worlds[..i];
  }

  /** What answering the first `upto` calls of a batch leaves, from log `logs0`, board
      `board0` and requests `requests0`: their responses, and the log, board and requests
      the batch definitions give for them. */
  ghost predicate AnsweredThrough(calls: seq<FunctionCall>, worlds: seq<World>, upto: nat,
                                  logs0: seq<LogEntry>, board0: seq<ScheduleItem>, requests0: seq<Request>,
                                  responses: seq<FunctionResponse>, logs: seq<LogEntry>,
                                  board: seq<ScheduleItem>, requests: seq<Request>)
    requires |worlds| == |calls| && upto <= |calls|
  {
    && responses == Responses(calls[..upto], worlds[..upto])
    && logs == logs0 + LogsFor(calls[..upto], worlds[..upto])
    && board == BoardAfter(board0, calls[..upto], worlds[..upto])
    && requests == requests0 + RequestsFor(calls[..upto])
  }

  /** Answering call i as the dispatcher does extends what the first i calls left to what
      the first i+1 calls leave. */
  lemma AnsweredThroughStep(calls: seq<FunctionCall>, worlds: seq<World>, i: nat,
                            logs0: seq<LogEntry>, board0: seq<ScheduleItem>, requests0: seq<Request>,
                            responses: seq<FunctionResponse>, logs: seq<LogEntry>,
                            board: seq<ScheduleItem>, requests: seq<Request>)
    requires |worlds| == |calls| && i < |calls|
    requires AnsweredThrough(calls, worlds, i, logs0, board0, requests0, responses, logs, board, requests)
    ensures AnsweredThrough(calls, worlds, i + 1, logs0, board0, requests0,
                            responses + [Respond(calls[i], worlds[i])],
                            logs + LogFor(calls[i], worlds[i]),
                            BoardAfterCall(board, calls[i], worlds[i]),
                            requests + RequestFor(calls[i]))
  {
    BatchStep(calls, worlds, i);
    assert logs + LogFor(calls[i], worlds[i])
        == logs0 + (LogsFor(calls[..i], worlds[..i]) + LogFor(calls[i], worlds[i]));
    assert requests + RequestFor(calls[i])
        == requests0 + (RequestsFor(calls[..i]) + RequestFor(calls[i]));
  }

  /** Every call of a batch gets exactly one response, in call order, carrying the call's
      id and name and the call's own result, whatever the other calls did. */
  lemma {:induction false} ResponsesCorrelate(calls: seq<FunctionCall>, worlds: seq<World>)
    requires |worlds| == |calls|
    ensures var r := Responses(calls, worlds);
      forall i :: 0 <= i < |calls| ==>
        && r[i].id == calls[i].id
        && r[i].name == calls[i].name
        && r[i].response == ResponseBody(Answer(calls[i], worlds[i]))
    decreases |calls|
  {
    if calls != [] {
      var n := |calls| - 1;
      ResponsesCorrelate(calls[..n], worlds[..n]);
      var front := Responses(calls[..n], worlds[..n]);
      var r := Responses(calls, worlds);
      assert r == front + [Respond(calls[n], worlds[n])];
      forall i | 0 <= i < |calls|
        ensures r[i].id == calls[i].id && r[i].name == calls[i].name
        ensures r[i].response == ResponseBody(Answer(calls[i], worlds[i]))
      {
        if i < n {
          assert r[i] == front[i] && calls[..n][i] == calls[i] && worlds[..n][i] == worlds[i];
        }
      }
    }
  }

  /** The responses carry exactly the identifiers of the calls. */
  lemma ResponseIds(calls: seq<FunctionCall>, worlds: seq<World>)
    requires |worlds| == |calls|
    ensures (set r | r in Responses(calls, worlds) :: r.id) == (set c | c in calls :: c.id)
  {
    var r := Responses(calls, worlds);
    ResponsesCorrelate(calls, worlds);
    var callIds := set c | c in calls :: c.id;
    var responseIds := set q | q in r :: q.id;
    forall x | x in callIds
      ensures x in responseIds
    {
      var i :| 0 <= i < |calls| && calls[i].id == x;
      assert r[i] in r;
    }
    forall x | x in responseIds
      ensures x in callIds
    {
      var i :| 0 <= i < |r| && r[i].id == x;
      assert calls[i] in calls;
    }
  }

  /** Without a cache hit in the batch, the board only grows: the earlier rows stay as they
      were and every added row is a Web row that is on time. */
  lemma {:induction false} BoardGrowsWithoutHit(board: seq<ScheduleItem>, calls: seq<FunctionCall>, worlds: seq<World>)
    requires |worlds| == |calls|
    requires forall i :: 0 <= i < |calls| ==> !IsHit(calls[i], worlds[i])
    ensures var b := BoardAfter(board, calls, worlds);
      && board <= b
      && forall k :: |board| <= k < |b| ==> b[k].source == Web && b[k].status == OnTime
    decreases |calls|
  {
    if calls != [] {
      var n := |calls| - 1;
      BoardGrowsWithoutHit(board, calls[..n], worlds[..n]);
    }
  }

  /** A cache hit replaces the board: once a batch contains one, the board it leaves no
      longer depends on the board it started from. */
  lemma {:induction false} HitReplacesBoard(b1: seq<ScheduleItem>, b2: seq<ScheduleItem>,
                                            calls: seq<FunctionCall>, worlds: seq<World>, h: nat)
    requires |worlds| == |calls|
    requires h < |calls| && IsHit(calls[h], worlds[h])
    ensures BoardAfter(b1, calls, worlds) == BoardAfter(b2, calls, worlds)
    decreases |calls|
  {
    var n := |calls| - 1;
    if h < n {
      HitReplacesBoard(b1, b2, calls[..n], worlds[..n], h);
    }
  }

  /** How many entries of a log are error lines. */
  function ErrorLines(log: seq<LogEntry>): nat
    decreases |log|
  {
    if log == [] then 0
    else ErrorLines(log[..|log| - 1]) + (if log[|log| - 1].kind == Error then 1 else 0)
  }

  /** How many calls of a batch met a failing collaborator. */
  function Failures(calls: seq<FunctionCall>, worlds: seq<World>): nat
    requires |worlds| == |calls|
    decreases |calls|
  {
    if calls == [] then 0
    else
      var n := |calls| - 1;
      Failures(calls[..n], worlds[..n]) + (if CollaboratorFailed(calls[n], worlds[n]) then 1 else 0)
  }

  lemma {:induction false} ErrorLinesAppend(a: seq<LogEntry>, b: seq<LogEntry>)
    ensures ErrorLines(a + b) == ErrorLines(a) + ErrorLines(b)
    decreases |b|
  {
    if b == [] {
      assert a + b == a;
    } else {
      var n := |b| - 1;
      assert (a + b)[..|a + b| - 1] == a + b[..n];
      ErrorLinesAppend(a, b[..n]);
    }
  }

  /** Each failed call leaves exactly one error line in the log, and no other call leaves one. */
  lemma {:induction false} OneErrorLinePerFailure(calls: seq<FunctionCall>, worlds: seq<World>)
    requires |worlds| == |calls|
    ensures ErrorLines(LogsFor(calls, worlds)) == Failures(calls, worlds)
    decreases |calls|
  {
    if calls != [] {
      var n := |calls| - 1;
      OneErrorLinePerFailure(calls[..n], worlds[..n]);
      var log := LogFor(calls[n], worlds[n]);
      ErrorLinesAppend(LogsFor(calls[..n], worlds[..n]), log);
      assert ErrorLines([log[0]]) == 0;
      if |log| == 2 {
        assert log[..1] == [log[0]];
      }
    }
  }
}
