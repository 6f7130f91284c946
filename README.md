# Voice agent session core, modelled in Dafny

This project models the session logic of the `GeminiAgent` component of a
Caltrain voice assistant. The component streams microphone audio to a live
multimodal model over one socket, plays the model's spoken answer back without
gaps or overlaps, and answers the model's function calls: a schedule lookup, a
schedule insert and a device-location request. It keeps an append-only activity
log and a departure board.

The component is imperative: refs and React state updated by event handlers.
The model is a class, `Session.GeminiAgent`, whose fields are those refs and
that state. Its methods are the handlers. Each method is proved against pure
definitions, shown below with the modules they live in:

- `Protocol`: the shapes of the inbound server messages and the outbound
  envelopes.
- `Pcm`: little-endian 16-bit decoding and normalisation of a chunk.
- `Playback`: the playback timeline, one cursor and `max(now, cursor)`
  scheduling.
- `Dispatch`: the dispatcher's answer, board update, log lines and outside
  request for each call and for a batch of calls.
- `Board`: the board rows and the log entries.

Time is counted in ticks of the 24 kHz playback clock. A chunk of `b` bytes
therefore lasts exactly `b / 2` ticks. The value `k / 32768` that the
component stores for a 16-bit sample `k` is exact in single precision, so it
is modelled exactly as a `real`.

The outside world enters only as parameters:

- the audio clock reading when each part is handled (`clock`, a non-negative number of ticks);
- whether microphone access was granted;
- for each function call, a `World` holding the schedule store's reply to a
  query, its reply to an insert, and the geolocation provider's reply.

The requests the dispatcher makes are recorded in `requests`. The envelopes
handed to the socket's `send` are recorded in `sent`.

Some behaviour follows from the code and differs from what a reader might
expect:

- `playAudioChunk` throws when a chunk has an odd byte length (the
  `Int16Array` view) or no samples at all (`createBuffer` with length 0). The
  message handler is async and nobody awaits it, so its promise rejects. The
  remaining parts of that message and its `toolCall` are then never handled:
  no response is sent for those calls. `HandleServerMessage` states this case
  as `Rejected(at)`.
- The server-content flags `turnComplete` and `interrupted` are declared but
  never read. Nothing cancels playback that is already scheduled.
- A tool name the dispatcher does not know gets the empty result `{}`. It does
  not get a "no such tool" error.
- The calls of one batch are answered one after the other, each awaited in
  turn. They are not run concurrently.
- `onclose` does not clear the socket reference. Tool responses are therefore
  still handed to `send` on a closed socket. Capture frames are not: their
  guard also checks that the socket is open.

## Model

| member | source | states |
|---|---|---|
| `Pcm.Int16At` | components/gemini-agent.tsx:285 | the sample read from bytes 2i and 2i+1 is a signed 16-bit value |
| `Pcm.Normalize` | components/gemini-agent.tsx:288 | a normalised sample lies in [-1, 1) and times 32768 gives back the 16-bit sample |
| `Pcm.DecodeEncode` | components/gemini-agent.tsx:285 | decoding the little-endian encoding of any 16-bit samples gives back those samples |
| `Pcm.EncodeDecode` | components/gemini-agent.tsx:285 | re-encoding the decoded samples of an even-length chunk gives back every byte |
| `Pcm.SamplesInjective` | components/gemini-agent.tsx:285-289 | two even-length chunks that fill the same float buffer are the same bytes: decoding loses nothing |
| `Playback.StartTime` | components/gemini-agent.tsx:298-299 | a chunk starts no earlier than now and no earlier than the cursor, at one of the two |
| `Playback.ScheduleAllTimeline` | components/gemini-agent.tsx:298-302 | over any run of chunks, chunk i+1 starts at max(now, end of chunk i), lasts bytes/2 ticks, no two chunks overlap, none starts before the initial cursor, and the final cursor covers every chunk and never lies below the start cursor |
| `Playback.ScheduleAllAt` | components/gemini-agent.tsx:298-302 | chunk i of any run starts at max(its clock reading, end of chunk i-1), with chunk 0 measured against the initial cursor, and holds that chunk's decoded samples |
| `Playback.ScheduleAllOrdered` | components/gemini-agent.tsx:298-302 | over any run of chunks no two overlap, none starts before the initial cursor, and the final cursor lies behind all of them and not below the initial cursor |
| `Playback.CursorMonotone` | components/gemini-agent.tsx:302 | the cursor after a prefix of a run never exceeds the cursor after the whole run |
| `Board.Upper` | components/gemini-agent.tsx:334-335 | upper-casing keeps the length, leaves no lower-case letter, maps each lower-case letter to its capital and keeps every other character |
| `Dispatch.Answer` | components/gemini-agent.tsx:311-394 | a call's result is an error exactly when its store or location request failed, carrying the store's message or "Location access denied"; `{}` exactly for an unknown tool; the rows' departure times in store order exactly on a cache hit; `{found: false}` exactly on a lookup whose rows are absent or empty; `{success: true}` exactly on a saved entry; the provider's latitude and longitude exactly on a granted position |
| `Dispatch.BoardAfterCall` | components/gemini-agent.tsx:333-374 | a cache hit replaces the board by one on-time CACHE row per answered time, in order, with upper-cased origin and destination; a save appends exactly one on-time WEB row and keeps the earlier rows; misses and failures leave the board unchanged |
| `Dispatch.LogFor` | components/gemini-agent.tsx:310-393 | each call logs "Calling" first, then exactly one outcome line for a known tool, an error line exactly when its collaborator failed; the outcome line is the hit's row count, the miss, the learned origin, destination and time, the position, the denial, or the store's error message; an unknown tool logs only "Calling" |
| `Dispatch.RequestFor` | components/gemini-agent.tsx:317-378 | a known tool makes exactly one outside request and an unknown tool none: a lookup by origin, destination and day type; an insert of a record with origin, destination, departure time and day type, and no train number; a position request |
| `Dispatch.ResponsesCorrelate` | components/gemini-agent.tsx:396-400 | response i of a batch carries call i's id and name and call i's own result wrapped as `{result: ...}` |
| `Dispatch.ResponseIds` | components/gemini-agent.tsx:396-400 | the responses of a batch carry exactly the set of identifiers of its calls |
| `Dispatch.BoardGrowsWithoutHit` | components/gemini-agent.tsx:365-374 | in a batch without a cache hit the board only grows: earlier rows stay and every added row is an on-time WEB row |
| `Dispatch.HitReplacesBoard` | components/gemini-agent.tsx:340 | once a batch contains a cache hit, the board it leaves does not depend on the board it started from |
| `Dispatch.OneErrorLinePerFailure` | components/gemini-agent.tsx:385-394 | a batch's log has exactly one error line per call whose collaborator failed |
| `Session.AudioIndices` | components/gemini-agent.tsx:268-269 | the indices of exactly the parts with audio/pcm inline data, ascending |
| `Session.AudioArrivalsAreAudioParts` | components/gemini-agent.tsx:267-273 | the chunks handed to playback are exactly the audio parts' payloads, in part order, each with its clock reading |
| `Session.GeminiAgent.constructor` | components/gemini-agent.tsx:92-104 | a fresh agent: disconnected, not recording, empty log and board, volume 0, no socket and no capture handles, cursor 0 |
| `Session.GeminiAgent.AddLog` | components/gemini-agent.tsx:112-114 | the log grows by exactly one entry at its end |
| `Session.GeminiAgent.Connect` | components/gemini-agent.tsx:116-124 | without an API key, one error line and no socket change; with one, a socket in the connecting state |
| `Session.GeminiAgent.StartAudioInput` | components/gemini-agent.tsx:178-247 | with microphone access, the context, input and processor handles are set and recording is on; without it, one error line and nothing else changes |
| `Session.GeminiAgent.OnOpen` | components/gemini-agent.tsx:126-143 | opening logs "Connected", marks the session connected, sends the setup envelope, then starts capture |
| `Session.GeminiAgent.OnAudioProcess` | components/gemini-agent.tsx:214-232 | a capture frame is sent as one audio/pcm media chunk only while the socket exists and is open |
| `Session.GeminiAgent.StopAudioInputAsWritten` | components/gemini-agent.tsx:249-264 | teardown as written: handles released, recording off, volume 0, the context's sources gone, the cursor left unchanged; idempotent |
| `Session.GeminiAgent.StopAudioInput` | components/gemini-agent.tsx:249-264 | teardown: handles released, recording off, volume 0, the context's sources gone, and the cursor reset; a second call changes nothing |
| `Session.GeminiAgent.Disconnect` | components/gemini-agent.tsx:170-176 | the socket reference is cleared and capture is torn down as written: everything released, the context's sources gone, the cursor unchanged |
| `Session.GeminiAgent.DisconnectResettingCursor` | components/gemini-agent.tsx:170-176 | the same disconnect with the corrected teardown: the cursor is reset to 0 |
| `Session.GeminiAgent.OnClose` | components/gemini-agent.tsx:161-165 | logs "Disconnected", marks the session disconnected, keeps a closed socket reference, tears capture down as written, the cursor unchanged |
| `Session.GeminiAgent.OnCloseResettingCursor` | components/gemini-agent.tsx:161-165 | the same close handler with the corrected teardown: the cursor is reset to 0 |
| `Session.GeminiAgent.OnError` | components/gemini-agent.tsx:156-159 | one "Connection Error" line is appended |
| `Session.GeminiAgent.PlayAudioChunk` | components/gemini-agent.tsx:281-303 | without a context nothing changes; an odd-length or empty chunk throws and nothing changes; otherwise the chunk's decoded samples start at max(now, cursor), the cursor moves to their end, and the timeline stays non-overlapping and behind the cursor |
| `Session.GeminiAgent.CallTool` | components/gemini-agent.tsx:310-394 | one iteration of the dispatch loop produces the dispatcher's result, log lines, board and outside request for that call |
| `Session.GeminiAgent.HandleToolCall` | components/gemini-agent.tsx:305-412 | the log, board and requests follow the batch definitions; exactly one envelope holding the correlated responses is sent, only when a socket reference exists |
| `Session.GeminiAgent.PlayPart` | components/gemini-agent.tsx:269-272 | an audio part's chunk is played as `playAudioChunk` plays it; the part throws exactly when there is a context and its chunk is not playable; any other part changes nothing |
| `Session.GeminiAgent.PlayParts` | components/gemini-agent.tsx:267-274 | the audio parts before the first chunk that throws are scheduled in order as the timeline defines, and each of them was playable; the part it stops at is an unplayable audio chunk; without a context nothing changes |
| `Session.GeminiAgent.HandleServerMessage` | components/gemini-agent.tsx:266-279 | audio first, then the tool call; if a chunk throws, the tool call is not handled and log, board, requests and outbox are unchanged |
| `Session.ReconnectAsWritten` | components/gemini-agent.tsx:104 | connect, one second of audio, `disconnect` as written, connect again: the first chunk at time 0 of the new context starts one second late |
| `Session.Reconnect` | components/gemini-agent.tsx:249-264 | the same session with the disconnect that resets the cursor: that chunk starts at once |

## Left out

- Network I/O is left out: opening the WebSocket, receiving frames, Blob and JSON parsing, base64 decoding of payloads, and what the browser does with a `send` on a closed socket. The socket is a reference with a ready state, and `sent` holds what was handed to `send`.
- The capture graph is reduced to its state effect: `getUserMedia`, the audio context, the script processor and the mute node. A failure part-way through `startAudioInput` (after some handles are set) is not modelled. Neither is starting capture while an older context is still open.
- The volume analyser loop is left out: it is driven by `requestAnimationFrame` and averages floats. `volume` is only ever reset to 0.
- Floating point is left out. The capture-side `floatTo16BitPCM`/base64 encoding is not part of this model. The clock readings are whole ticks of the 24 kHz playback clock, not float seconds. The rounding of `playTime + buffer.duration` is not modelled.
- `Int16Array` reads with the host's byte order. The model fixes it to little-endian, which is the wire format. The decoded array is assumed to own exactly its payload's bytes.
- The schedule store (its query filters, ascending order and case-insensitive match) and the geolocation provider are oracles. Their replies are parameters.
- Concurrency is left out: overlapping async message handlers, and an older socket's handlers firing after a reconnect. Each message is handled to completion before the next one.
- Tool arguments are a typed record of strings. Missing or ill-typed arguments, and the `TypeError`s they would raise inside the `try`, are not modelled.
- Log lines are structured values. Their text, including `toFixed(4)` for coordinates, is not modelled.
- The setup envelope carries the model name, the response modality and the tool names. The system instruction text and the parameter schemas are not modelled.
- Rendering (JSX, the board and log views), page routing and the map animation are UI.
- Board.Upper: covers only ASCII letters; `toUpperCase`'s full Unicode case mapping (which can change a string's length) is not modelled.

## Findings

| source | as written | input that shows it | evidently intended | confidence | as-written member | corrected member |
|---|---|---|---|---|---|---|
| components/gemini-agent.tsx:249-264 | `stopAudioInput` closes the audio context but never resets `nextPlayTimeRef` (line 104). No other code resets it either. | Play 1 s of audio (cursor at 24000 ticks), disconnect, reconnect. The new context's clock restarts at 0, and a chunk arriving at time 0 is scheduled at 24000: one second of silence. | Reset the cursor together with the context it counts in, so the first chunk of a new session starts at once. | medium, not executed | `Session.ReconnectAsWritten` | `Session.Reconnect` |

`Session.ReconnectAsWritten` runs that sequence through `Connect`, `OnOpen` and
`Disconnect`. `Disconnect` and `OnClose` tear capture down with
`Session.GeminiAgent.StopAudioInputAsWritten`, as the component does.
`Session.Reconnect` runs the same sequence through
`Session.GeminiAgent.DisconnectResettingCursor`. That method and
`OnCloseResettingCursor` use the corrected `Session.GeminiAgent.StopAudioInput`.
