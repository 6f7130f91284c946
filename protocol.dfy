/** Shapes of the messages exchanged with the Live API over the session's socket:
    the inbound server messages (the shape declared in lib/gemini-types.ts) and the
    outbound envelopes the agent builds (setup, realtime_input, toolResponse). */
module Protocol {

  datatype Option<+T> = None | Some(value: T)

  newtype byte = x: int | 0 <= x < 256

  /** Prefix an inline part's MIME type must carry to be treated as playable audio. */
  const AUDIO_MIME_PREFIX: string := "audio/pcm"

  /** MIME type of every captured frame the agent sends. */
  const CAPTURE_MIME_TYPE: string := "audio/pcm"

  const MODEL: string := "models/gemini-2.5-flash-native-audio-preview-09-2025"

  const CHECK_SCHEDULE_CACHE: string := "check_schedule_cache"
  const CACHE_SCHEDULE_ENTRY: string := "cache_schedule_entry"
  const GET_USER_LOCATION: string := "get_user_location"

  predicate StartsWith(s: string, prefix: string)
  {
    |prefix| <= |s| && s[..|prefix|] == prefix
  }

  // ---------------------------------------------------------------- inbound

  /** Inline media of a model part. `data` is the payload after base64 decoding. */
  datatype InlineData = InlineData(mimeType: string, data: seq<byte>)

  datatype Part = Part(text: Option<string>, inlineData: Option<InlineData>)

  datatype ModelTurn = ModelTurn(parts: Option<seq<Part>>)

  datatype ServerContent = ServerContent(
    modelTurn: Option<ModelTurn>,
    turnComplete: Option<bool>,
    interrupted: Option<bool>)

  /** The arguments a function call may carry; which ones a tool reads depends on its name. */
  datatype Args = Args(
    origin: string,
    destination: string,
    dayType: string,
    departureTime: string,
    trainNumber: Option<string>)

  datatype FunctionCall = FunctionCall(name: string, id: string, args: Args)

  datatype ToolCall = ToolCall(functionCalls: seq<FunctionCall>)

  datatype ServerMessage = ServerMessage(serverContent: Option<ServerContent>, toolCall: Option<ToolCall>)

  /** `data.serverContent?.modelTurn?.parts`, or no parts when any link is absent. */
  function PartsOf(msg: ServerMessage): seq<Part>
  {
    if msg.serverContent.Some? && msg.serverContent.value.modelTurn.Some?
       && msg.serverContent.value.modelTurn.value.parts.Some?
    then msg.serverContent.value.modelTurn.value.parts.value
    else []
  }

  /** The function calls of the message's `toolCall`, or none when it has no `toolCall`. */
  function CallsOf(msg: ServerMessage): seq<FunctionCall>
  {
    if msg.toolCall.Some? then msg.toolCall.value.functionCalls else []
  }

  /** A part the demultiplexer forwards to playback: it has inline data of an audio/pcm type. */
  predicate IsAudio(p: Part)
  {
    p.inlineData.Some? && StartsWith(p.inlineData.value.mimeType, AUDIO_MIME_PREFIX)
  }

  // --------------------------------------------------------------- outbound

  /** The result object a tool produces, before it is wrapped as `{result: ...}`. */
  datatype Payload =
    | Empty                                   // {}
    | Found(times: seq<string>)               // {found: true, times}
    | NotFound                                // {found: false}
    | Saved                                   // {success: true}
    | Located(latitude: real, longitude: real) // {latitude, longitude}
    | Failed(error: string)                   // {error: message}

  /** `response: {result: payload}` */
  datatype ResponseBody = ResponseBody(result: Payload)

  datatype FunctionResponse = FunctionResponse(id: string, name: string, response: ResponseBody)

  /** One base64-encoded capture frame; the encoding itself is not modelled. */
  datatype MediaChunk = MediaChunk(mimeType: string, data: string)

  datatype Outbound =
    | Setup(model: string, responseModalities: seq<string>, functionNames: seq<string>, googleSearch: bool)
    | RealtimeInput(mediaChunks: seq<MediaChunk>)
    | ToolResponse(functionResponses: seq<FunctionResponse>)

  /** The configuration envelope sent once the socket opens (system instruction text omitted). */
  const SETUP: Outbound :=
    Setup(MODEL, ["AUDIO"], [CHECK_SCHEDULE_CACHE, CACHE_SCHEDULE_ENTRY, GET_USER_LOCATION], true)
}
