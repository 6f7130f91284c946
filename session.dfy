/** The session state of the agent component: its refs (socket, audio context,
    capture input, processor, playback cursor) and its React state (connection
    and recording flags, volume, log, departure board), with the event handlers
    that change them. The socket is reduced to its reference and ready state and
    the list of envelopes handed to `send`; the audio context to its reference
    and the list of buffer sources started on it. Foreign calls made by the tool
    dispatcher are recorded in `requests`, and their replies come in as `World`
    values. */
module Session {
  import opened Protocol
  import opened Board
  import opened Dispatch
  import opened Playback
  import Pcm

  datatype ReadyState = Connecting | Open | Closed

  /** `wsRef.current`: no socket, or a socket in some ready state. */
  datatype Socket = NoSocket | Socket(state: ReadyState)

  /** How a call of `playAudioChunk` ends: early return without an audio context,
      a buffer source started, or an exception (odd byte length, or no samples). */
  datatype PlayOutcome = NoContext | Started | Threw

  /** How the promise of `handleServerMessage` settles; `Rejected(at)` names the part
      whose audio chunk threw. */
  datatype Settled = Resolved | Rejected(at: nat)

  /** The audio parts of `parts`, in order, each with the clock reading when it was handled. */
  function AudioArrivals(parts: seq<Part>, clock: seq<nat>): seq<Arrival>
    requires |clock| == |parts|
    decreases |parts|
  {
    if parts == [] then []
    else
      var n := |parts| - 1;
      var front := AudioArrivals(parts[..n], clock[..n]);
      if IsAudio(parts[n]) then front + [Arrival(clock[n], parts[n].inlineData.value.data)] else front
  }

  /** Handling one more part extends the arrivals by that part's chunk when it is audio. */
  lemma ArrivalsStep(parts: seq<Part>, clock: seq<nat>, i: nat)
    requires |clock| == |parts| && i < |parts|
    ensures AudioArrivals(parts[..i + 1], clock[..i + 1])
         == AudioArrivals(parts[..i], clock[..i])
            + (if IsAudio(parts[i]) then [Arrival(clock[i], parts[i].inlineData.value.data)] else [])
  {
    assert parts[..i + 1][..i] == parts[..i];
    assert clock[..i + 1][..i] == clock[..i];
  }

  /** Indices of the audio parts, ascending: exactly the parts that have inline data of an
      audio/pcm type. */
  function AudioIndices(parts: seq<Part>): (idx: seq<nat>)
    ensures forall k :: 0 <= k < |idx| ==> idx[k] < |parts| && IsAudio(parts[idx[k]])
    ensures forall k, l :: 0 <= k < l < |idx| ==> idx[k] < idx[l]
    ensures forall i :: 0 <= i < |parts| && IsAudio(parts[i]) ==> i in idx
    decreases |parts|
  {
    if parts == [] then []
    else
      var n := |parts| - 1;
      var front := AudioIndices(parts[..n]);
      assert forall k :: 0 <= k < |front| ==> parts[..n][front[k]] == parts[front[k]];
      if IsAudio(parts[n]) then front + [n] else front
  }

  /** The demultiplexer forwards exactly the audio parts, in their original order, with
      their payloads untouched; every other part is ignored. */
  lemma {:induction false} AudioArrivalsAreAudioParts(parts: seq<Part>, clock: seq<nat>)
    requires |clock| == |parts|
    ensures var a := AudioArrivals(parts, clock);
      var idx := AudioIndices(parts);
      && |a| == |idx|
      && forall k :: 0 <= k < |a| ==>
           a[k] == Arrival(clock[idx[k]], parts[idx[k]].inlineData.value.data)
    decreases |parts|
  {
    if parts != [] {
      var n := |parts| - 1;
      var frontParts, frontClock := parts[..n], clock[..n];
      AudioArrivalsAreAudioParts(frontParts, frontClock);
      var front := AudioIndices(frontParts);
      var arrived := AudioArrivals(frontParts, frontClock);
      forall k | 0 <= k < |front|
        ensures arrived[k] == Arrival(clock[front[k]], parts[front[k]].inlineData.value.data)
      {
        assert frontParts[front[k]] == parts[front[k]];
        assert frontClock[front[k]] == clock[front[k]];
      }
    }
  }

  /** What playing the first `upto` parts leaves, from cursor `cursor0` and timeline
      `scheduled0`: with an audio context, their audio chunks scheduled in order as the
      timeline defines, each of them playable; without one, nothing changed. */
  ghost predicate PlayedThrough(parts: seq<Part>, clock: seq<nat>, upto: nat, context: bool,
                                cursor0: int, scheduled0: seq<Segment>,
                                cursor: int, scheduled: seq<Segment>)
    requires |clock| == |parts| && upto <= |parts|
  {
    && (context ==>
          var played := ScheduleAll(cursor0, AudioArrivals(parts[..upto], clock[..upto]));
          && scheduled == scheduled0 + played
          && cursor == CursorAfter(cursor0, played))
    && (!context ==> scheduled == scheduled0 && cursor == cursor0)
    && (context ==>
          forall j :: 0 <= j < upto && IsAudio(parts[j]) ==> Playable(parts[j].inlineData.value.data))
  }

  /** Handling part i as `playAudioChunk` does, without a throw, extends what the first i
      parts left to what the first i+1 parts leave. */
  lemma PlayedThroughStep(parts: seq<Part>, clock: seq<nat>, i: nat, context: bool,
                          cursor0: int, scheduled0: seq<Segment>,
                          cursor: int, scheduled: seq<Segment>,
                          cursor': int, scheduled': seq<Segment>)
    requires |clock| == |parts| && i < |parts|
    requires PlayedThrough(parts, clock, i, context, cursor0, scheduled0, cursor, scheduled)
    requires context && IsAudio(parts[i]) ==> Playable(parts[i].inlineData.value.data)
    requires context && IsAudio(parts[i]) ==>
      var start := StartTime(clock[i], cursor);
      && scheduled' == scheduled + [Segment(start, Pcm.Samples(parts[i].inlineData.value.data))]
      && cursor' == start + |parts[i].inlineData.value.data| / 2
    requires !(context && IsAudio(parts[i])) ==> scheduled' == scheduled && cursor' == cursor
    ensures PlayedThrough(parts, clock, i + 1, context, cursor0, scheduled0, cursor', scheduled')
  {
    ArrivalsStep(parts, clock, i);
    var before := AudioArrivals(parts[..i], clock[..i]);
    var played := ScheduleAll(cursor0, before);
    if IsAudio(parts[i]) {
      var arrival := Arrival(clock[i], parts[i].inlineData.value.data);
      assert AudioArrivals(parts[..i + 1], clock[..i + 1]) == before + [arrival];
      ScheduleAllSnoc(cursor0, before, arrival);
      if context {
        var segment := Segment(StartTime(arrival.now, CursorAfter(cursor0, played)), Pcm.Samples(arrival.pcm));
        assert scheduled' == scheduled0 + (played + [segment]);
      }
    } else {
      assert AudioArrivals(parts[..i + 1], clock[..i + 1]) == before;
    }
  }

  class GeminiAgent {
    var isConnected: bool
    var isRecording: bool
    var logs: seq<LogEntry>
    var scheduleBoard: seq<ScheduleItem>
    var volume: int
    var socket: Socket
    /** Envelopes handed to the socket's `send`, oldest first. */
    var sent: seq<Outbound>
    /** Requests made of the schedule store and the geolocation provider, oldest first. */
    var requests: seq<Request>
    var hasAudioContext: bool
    var hasAudioInput: bool
    var hasProcessor: bool
    /** `nextPlayTimeRef`, in ticks of the playback clock. */
    var nextPlayTime: int
    /** Buffer sources started on the current audio context. */
    var scheduled: seq<Segment>

    /** The playback timeline never overlaps, nothing on it ends after the cursor, and
        nothing is scheduled without an audio context. */
    ghost predicate Valid()
      reads this
    {
      && Disjoint(scheduled)
      && Behind(scheduled, nextPlayTime)
      && (!hasAudioContext ==> scheduled == [])
    }

    /** Every capture resource released, not recording, volume at zero. */
    predicate Released()
      reads this
    {
      !hasProcessor && !hasAudioInput && !hasAudioContext && !isRecording && volume == 0
    }

    constructor ()
      ensures Valid() && Released()
      ensures !isConnected && logs == [] && scheduleBoard == []
      ensures socket == NoSocket && sent == [] && requests == []
      ensures nextPlayTime == 0 && scheduled == []
    {
      isConnected, isRecording := false, false;
      logs, scheduleBoard := [], [];
      volume := 0;
      socket, sent, requests := NoSocket, [], [];
      hasAudioContext, hasAudioInput, hasProcessor := false, false, false;
      nextPlayTime, scheduled := 0, [];
    }

    method AddLog(kind: LogKind, message: LogMessage)
      modifies this`logs
      ensures logs == old(logs) + [LogEntry(kind, message)]
    {
      logs := logs + [LogEntry(kind, message)];
    }

    /** Without an API key only an error line is logged; otherwise a socket is created. */
    method Connect(apiKey: Option<string>)
      modifies this`logs, this`socket
      ensures apiKey.None? || apiKey.value == "" ==>
                logs == old(logs) + [LogEntry(Error, ApiKeyMissing)] && socket == old(socket)
      ensures apiKey.Some? && apiKey.value != "" ==>
                logs == old(logs) && socket == Socket(Connecting)
    {
      if apiKey.None? || apiKey.value == "" {
        AddLog(Error, ApiKeyMissing);
        return;
      }
      socket := Socket(Connecting);
    }

    /** Capture start, reduced to its effect on the session state: with microphone access
        the three handles are set and recording starts on a fresh context; without it one
        error line is logged. */
    method StartAudioInput(micGranted: bool)
      requires Valid()
      modifies this`hasAudioContext, this`hasAudioInput, this`hasProcessor, this`isRecording,
               this`scheduled, this`logs
      ensures Valid()
      ensures micGranted ==>
                && hasAudioContext && hasAudioInput && hasProcessor && isRecording
                && scheduled == [] && logs == old(logs)
      ensures !micGranted ==>
                && logs == old(logs) + [LogEntry(Error, AudioInputFailed)]
                && hasAudioContext == old(hasAudioContext) && hasAudioInput == old(hasAudioInput)
                && hasProcessor == old(hasProcessor) && isRecording == old(isRecording)
                && scheduled == old(scheduled)
    {
      if !micGranted {
        AddLog(Error, AudioInputFailed);
        return;
      }
      hasAudioContext := true;
      scheduled := [];
      hasAudioInput := true;
      hasProcessor := true;
      isRecording := true;
    }

    /** The socket opened: log it, mark the session connected, send the setup envelope,
        then start capture. */
    method OnOpen(micGranted: bool)
      requires Valid()
      requires socket == Socket(Connecting)
      modifies this
      ensures Valid()
      ensures isConnected && socket == Socket(Open)
      ensures sent == old(sent) + [SETUP]
      ensures micGranted ==>
                && logs == old(logs) + [LogEntry(Info, Connected)]
                && hasAudioContext && hasAudioInput && hasProcessor && isRecording && scheduled == []
      ensures !micGranted ==>
                && logs == old(logs) + [LogEntry(Info, Connected), LogEntry(Error, AudioInputFailed)]
                && hasAudioContext == old(hasAudioContext) && hasAudioInput == old(hasAudioInput)
                && hasProcessor == old(hasProcessor) && isRecording == old(isRecording)
                && scheduled == old(scheduled)
      ensures scheduleBoard == old(scheduleBoard) && requests == old(requests)
      ensures volume == old(volume) && nextPlayTime == old(nextPlayTime)
    {
      socket := Socket(Open);
      AddLog(Info, Connected);
      isConnected := true;
      sent := sent + [SETUP];
      StartAudioInput(micGranted);
    }

    /** One captured frame goes out only while the socket exists and is open. */
    method OnAudioProcess(frame: string)
      modifies this`sent
      ensures sent == if socket == Socket(Open)
                      then old(sent) + [RealtimeInput([MediaChunk(CAPTURE_MIME_TYPE, frame)])]
                      else old(sent)
    {
      if socket != Socket(Open) {
        return;
      }
      sent := sent + [RealtimeInput([MediaChunk(CAPTURE_MIME_TYPE, frame)])];
    }

    /** Capture teardown as the component writes it: the playback cursor is left as it was. */
    method StopAudioInputAsWritten()
      requires Valid()
      modifies this`hasProcessor, this`hasAudioInput, this`hasAudioContext, this`isRecording,
               this`volume, this`scheduled
      ensures Valid() && Released()
      ensures scheduled == [] && nextPlayTime == old(nextPlayTime)
      ensures old(Released()) ==> unchanged(this)
    {
      if hasProcessor {
        hasProcessor := false;
      }
      if hasAudioInput {
        hasAudioInput := false;
      }
      if hasAudioContext {
        hasAudioContext := false;
        scheduled := [];
      }
      isRecording := false;
      volume := 0;
    }

    /** Capture teardown: every handle released, recording off, volume zero, and the playback
        cursor reset with the context whose clock it counted. A second call changes nothing. */
    method StopAudioInput()
      requires Valid()
      modifies this`hasProcessor, this`hasAudioInput, this`hasAudioContext, this`isRecording,
               this`volume, this`scheduled, this`nextPlayTime
      ensures Valid() && Released()
      ensures scheduled == [] && nextPlayTime == 0
      ensures old(Released() && nextPlayTime == 0) ==> unchanged(this)
    {
      if hasProcessor {
        hasProcessor := false;
      }
      if hasAudioInput {
        hasAudioInput := false;
      }
      if hasAudioContext {
        hasAudioContext := false;
        scheduled := [];
      }
      nextPlayTime := 0;
      isRecording := false;
      volume := 0;
    }

    /** Closes and forgets the socket, then tears capture down as the component does: the
        playback cursor keeps its value. */
    method Disconnect()
      requires Valid()
      modifies this`socket, this`hasProcessor, this`hasAudioInput, this`hasAudioContext,
               this`isRecording, this`volume, this`scheduled
      ensures Valid() && Released()
      ensures socket == NoSocket && scheduled == [] && nextPlayTime == old(nextPlayTime)
    {
      if socket.Socket? {
        socket := NoSocket;
      }
      StopAudioInputAsWritten();
    }

    /** `Disconnect` with the teardown that resets the playback cursor. */
    method DisconnectResettingCursor()
      requires Valid()
      modifies this`socket, this`hasProcessor, this`hasAudioInput, this`hasAudioContext,
               this`isRecording, this`volume, this`scheduled, this`nextPlayTime
      ensures Valid() && Released()
      ensures socket == NoSocket && scheduled == [] && nextPlayTime == 0
    {
      if socket.Socket? {
        socket := NoSocket;
      }
      StopAudioInput();
    }

    /** The socket closed: log it, mark the session disconnected, tear capture down as the
        component does (the playback cursor keeps its value). The socket reference is kept
        (closed). */
    method OnClose()
      requires Valid()
      modifies this`logs, this`isConnected, this`socket, this`hasProcessor, this`hasAudioInput,
               this`hasAudioContext, this`isRecording, this`volume, this`scheduled
      ensures Valid() && Released()
      ensures logs == old(logs) + [LogEntry(Info, Disconnected)]
      ensures !isConnected
      ensures socket == if old(socket).NoSocket? then NoSocket else Socket(Closed)
      ensures scheduled == [] && nextPlayTime == old(nextPlayTime)
    {
      if socket.Socket? {
        socket := Socket(Closed);
      }
      AddLog(Info, Disconnected);
      isConnected := false;
      StopAudioInputAsWritten();
    }

    /** `OnClose` with the teardown that resets the playback cursor. */
    method OnCloseResettingCursor()
      requires Valid()
      modifies this`logs, this`isConnected, this`socket, this`hasProcessor, this`hasAudioInput,
               this`hasAudioContext, this`isRecording, this`volume, this`scheduled, this`nextPlayTime
      ensures Valid() && Released()
      ensures logs == old(logs) + [LogEntry(Info, Disconnected)]
      ensures !isConnected
      ensures socket == if old(socket).NoSocket? then NoSocket else Socket(Closed)
      ensures scheduled == [] && nextPlayTime == 0
    {
      if socket.Socket? {
        socket := Socket(Closed);
      }
      AddLog(Info, Disconnected);
      isConnected := false;
      StopAudioInput();
    }

    method OnError()
      modifies this`logs
      ensures logs == old(logs) + [LogEntry(Error, ConnectionError)]
    {
      AddLog(Error, ConnectionError);
    }

    /** Schedules one decoded chunk at the later of `now` and the cursor and moves the cursor
        to its end. Without an audio context nothing happens; a chunk of odd byte length or
        with no samples throws before anything is scheduled. */
    method PlayAudioChunk(now: nat, pcm: seq<byte>) returns (outcome: PlayOutcome)
      requires Valid()
      modifies this`nextPlayTime, this`scheduled
      ensures Valid()
      ensures outcome == if !hasAudioContext then NoContext else if Playable(pcm) then Started else Threw
      ensures outcome == Started ==>
                var start := StartTime(now, old(nextPlayTime));
                && scheduled == old(scheduled) + [Segment(start, Pcm.Samples(pcm))]
                && nextPlayTime == start + |pcm| / 2
      ensures outcome != Started ==> scheduled == old(scheduled) && nextPlayTime == old(nextPlayTime)
    {
      if !hasAudioContext {
        return NoContext;
      }
      if |pcm| % 2 != 0 {
        // new Int16Array(buffer) on an odd byte length
        return Threw;
      }
      var n := |pcm| / 2;
      var buffer := new real[n];
      for i := 0 to n
        invariant forall j :: 0 <= j < i ==> buffer[j] == Pcm.Normalize(Pcm.Int16At(pcm, j))
        invariant scheduled == old(scheduled) && nextPlayTime == old(nextPlayTime)
      {
        buffer[i] := Pcm.Int16At(pcm, i) as real / 32768.0;
      }
      if n == 0 {
        // createBuffer with a length of zero
        return Threw;
      }
      assert buffer[..] == Pcm.Samples(pcm);
      var playTime := StartTime(now, nextPlayTime);
      scheduled := scheduled + [Segment(playTime, buffer[..])];
      nextPlayTime := playTime + n;
      outcome := Started;
    }

    /** The body of the dispatch loop for one call: its result, its log lines, its board
        update and its outside request, as the dispatcher defines them. */
    method CallTool(call: FunctionCall, world: World) returns (response: Payload)
      modifies this`logs, this`scheduleBoard, this`requests
      ensures response == Answer(call, world)
      ensures logs == old(logs) + LogFor(call, world)
      ensures scheduleBoard == BoardAfterCall(old(scheduleBoard), call, world)
      ensures requests == old(requests) + RequestFor(call)
    {
      AddLog(Tool, Calling(call.name));
      response := Empty;
      if call.name == CHECK_SCHEDULE_CACHE {
        requests := requests + [Query(call.args.origin, call.args.destination, call.args.dayType)];
        match world.query {
          case QueryFailed(message) =>
            response := Failed(message);
            AddLog(Error, ToolError(message));
          case Rows(data) =>
            if data.Some? && |data.value| > 0 {
              var times := Times(data.value);
              response := Found(times);
              AddLog(Info, CacheHit(|times|));
              scheduleBoard := CacheItems(call.args.origin, call.args.destination, times);
            } else {
              response := NotFound;
              AddLog(Info, CacheMiss);
            }
        }
      } else if call.name == CACHE_SCHEDULE_ENTRY {
        var record := Record(call.args.origin, call.args.destination, call.args.departureTime, call.args.dayType);
        requests := requests + [Insert(record)];
        match world.insert {
          case InsertFailed(message) =>
            response := Failed(message);
            AddLog(Error, ToolError(message));
          case Inserted =>
            response := Saved;
            AddLog(Info, Learned(call.args.origin, call.args.destination, call.args.departureTime));
            scheduleBoard := scheduleBoard + [WebItem(call.args)];
        }
      } else if call.name == GET_USER_LOCATION {
        requests := requests + [Locate];
        match world.geo {
          case GeoDenied =>
            response := Failed(LOCATION_DENIED);
            AddLog(Error, LocationDenied);
          case Position(latitude, longitude) =>
            response := Located(latitude, longitude);
            AddLog(Info, Location(latitude, longitude));
        }
      }
    }

    /** Answers a batch of function calls, one after the other: one response per call, in
        call order, all sent in one envelope when the socket reference exists. The board,
        log and outside requests follow the dispatcher's definitions. */
    method HandleToolCall(toolCall: ToolCall, worlds: seq<World>)
      requires |worlds| == |toolCall.functionCalls|
      modifies this`logs, this`scheduleBoard, this`requests, this`sent
      ensures var calls := toolCall.functionCalls;
        && logs == old(logs) + LogsFor(calls, worlds)
        && scheduleBoard == BoardAfter(old(scheduleBoard), calls, worlds)
        && requests == old(requests) + RequestsFor(calls)
        && sent == if socket.NoSocket? then old(sent)
                   else old(sent) + [ToolResponse(Responses(calls, worlds))]
    {
      var calls := toolCall.functionCalls;
      var responses: seq<FunctionResponse> := [];
      for i := 0 to |calls|
        invariant AnsweredThrough(calls, worlds, i, old(logs), old(scheduleBoard), old(requests),
                                  responses, logs, scheduleBoard, requests)
        invariant sent == old(sent)
      {
        AnsweredThroughStep(calls, worlds, i, old(logs), old(scheduleBoard), old(requests),
                            responses, logs, scheduleBoard, requests);
        var response := CallTool(calls[i], worlds[i]);
        responses := responses + [FunctionResponse(calls[i].id, calls[i].name, ResponseBody(response))];
      }
      assert calls[..|calls|] == calls;
      assert worlds[..|worlds|] == worlds;
      if socket.Socket? {
        sent := sent + [ToolResponse(responses)];
      }
    }

    /** One iteration of the loop over the parts of the model turn: an audio part's chunk
        is played, any other part is skipped. `threw` says whether playing it threw. */
    method PlayPart(part: Part, now: nat) returns (threw: bool)
      requires Valid()
      modifies this`nextPlayTime, this`scheduled
      ensures Valid()
      ensures threw <==> hasAudioContext && IsAudio(part) && !Playable(part.inlineData.value.data)
      ensures hasAudioContext && IsAudio(part) && !threw ==>
                var start := StartTime(now, old(nextPlayTime));
                && scheduled == old(scheduled) + [Segment(start, Pcm.Samples(part.inlineData.value.data))]
                && nextPlayTime == start + |part.inlineData.value.data| / 2
      ensures !(hasAudioContext && IsAudio(part) && !threw) ==>
                scheduled == old(scheduled) && nextPlayTime == old(nextPlayTime)
    {
      threw := false;
      if part.inlineData.Some? && StartsWith(part.inlineData.value.mimeType, AUDIO_MIME_PREFIX) {
        var outcome := PlayAudioChunk(now, part.inlineData.value.data);
        threw := outcome == Threw;
      }
    }

    /** The loop of `handleServerMessage` over the parts of the model turn: each audio part's
        chunk is played in order; the loop stops at the first chunk that throws. */
    method PlayParts(parts: seq<Part>, clock: seq<nat>) returns (rejected: Option<nat>)
      requires Valid()
      requires |clock| == |parts|
      modifies this`nextPlayTime, this`scheduled
      ensures Valid()
      ensures var upto := if rejected.Some? then rejected.value else |parts|;
        && upto <= |parts|
        && PlayedThrough(parts, clock, upto, hasAudioContext,
                         old(nextPlayTime), old(scheduled), nextPlayTime, scheduled)
      ensures rejected.Some? ==>
        && hasAudioContext
        && rejected.value < |parts| && IsAudio(parts[rejected.value])
        && !Playable(parts[rejected.value].inlineData.value.data)
    {
      for i := 0 to |parts|
        invariant Valid()
        invariant PlayedThrough(parts, clock, i, hasAudioContext,
                                old(nextPlayTime), old(scheduled), nextPlayTime, scheduled)
      {
        ghost var cursor, timeline := nextPlayTime, scheduled;
        var threw := PlayPart(parts[i], clock[i]);
        if threw {
          return Some(i);
        }
        PlayedThroughStep(parts, clock, i, hasAudioContext, old(nextPlayTime), old(scheduled),
                          cursor, timeline, nextPlayTime, scheduled);
      }
      rejected := None;
    }

    /** Handles one server message: its audio parts are played in order, then its tool
        call, if any, is answered. If an audio chunk throws, the handler's promise rejects
        there: later parts and the tool call are not handled. */
    method HandleServerMessage(msg: ServerMessage, clock: seq<nat>, worlds: seq<World>) returns (settled: Settled)
      requires Valid()
      requires |clock| == |PartsOf(msg)|
      requires |worlds| == |CallsOf(msg)|
      modifies this`nextPlayTime, this`scheduled, this`logs, this`scheduleBoard, this`requests, this`sent
      ensures Valid()
      ensures var parts := PartsOf(msg);
        var upto := if settled.Rejected? then settled.at else |parts|;
        && upto <= |parts|
        && PlayedThrough(parts, clock, upto, hasAudioContext,
                         old(nextPlayTime), old(scheduled), nextPlayTime, scheduled)
      ensures settled.Rejected? ==>
        var parts := PartsOf(msg);
        && hasAudioContext
        && settled.at < |parts| && IsAudio(parts[settled.at])
        && !Playable(parts[settled.at].inlineData.value.data)
        && logs == old(logs) && scheduleBoard == old(scheduleBoard)
        && requests == old(requests) && sent == old(sent)
      ensures settled.Resolved? ==>
        var calls := CallsOf(msg);
        && logs == old(logs) + LogsFor(calls, worlds)
        && scheduleBoard == BoardAfter(old(scheduleBoard), calls, worlds)
        && requests == old(requests) + RequestsFor(calls)
        && sent == if msg.toolCall.Some? && old(socket).Socket?
                   then old(sent) + [ToolResponse(Responses(calls, worlds))]
                   else old(sent)
    {
      var rejected := PlayParts(PartsOf(msg), clock);
      if rejected.Some? {
        return Rejected(rejected.value);
      }
      if msg.toolCall.Some? {
        HandleToolCall(msg.toolCall.value, worlds);
      }
      settled := Resolved;
    }
  }

  /** Connects, plays one second of audio, disconnects as the component does, connects again
      (the new context's clock starts at zero) and plays a chunk at time zero: the chunk starts
      one second late. */
  method ReconnectAsWritten() returns (firstStart: int)
    ensures firstStart == SAMPLE_RATE
  {
    var agent := new GeminiAgent();
    agent.Connect(Some("key"));
    agent.OnOpen(true);
    var played := agent.PlayAudioChunk(0, seq(2 * SAMPLE_RATE, _ => 0 as byte));
    agent.Disconnect();
    agent.Connect(Some("key"));
    agent.OnOpen(true);
    played := agent.PlayAudioChunk(0, [0, 0]);
    firstStart := agent.scheduled[0].start;
  }

  /** The same session with the disconnect that resets the cursor: the chunk starts at once. */
  method Reconnect() returns (firstStart: int)
    ensures firstStart == 0
  {
    var agent := new GeminiAgent();
    agent.Connect(Some("key"));
    agent.OnOpen(true);
    var played := agent.PlayAudioChunk(0, seq(2 * SAMPLE_RATE, _ => 0 as byte));
    agent.DisconnectResettingCursor();
    agent.Connect(Some("key"));
    agent.OnOpen(true);
    played := agent.PlayAudioChunk(0, [0, 0]);
    firstStart := agent.scheduled[0].start;
  }
}
