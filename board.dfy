/** What the session shows: rows of the departure board and entries of the
    append-only activity log. Log texts are kept as structured values; how the
    page renders them (number formatting included) is not modelled. */
module Board {

  datatype Status = OnTime | Delayed | Scheduled   // "ON TIME" | "DELAYED" | "SCHEDULED"

  datatype Source = Cache | Web                    // "CACHE" | "WEB"

  datatype ScheduleItem = ScheduleItem(
    origin: string,
    destination: string,
    time: string,
    status: Status,
    source: Source)

  datatype LogKind = Info | Tool | Error | Agent

  datatype LogMessage =
    | ApiKeyMissing                  // "API Key not found in environment variables."
    | Connected                      // "Connected to Caltrain Ops"
    | ConnectionError                // "Connection Error"
    | Disconnected                   // "Disconnected"
    | AudioInputFailed               // "Failed to start audio input"
    | Calling(name: string)          // "Calling <name>"
    | CacheHit(count: nat)           // "Cache HIT: Found <count> trains"
    | CacheMiss                      // "Cache MISS"
    | Learned(origin: string, destination: string, time: string)  // "Learned: <o> -> <d> @ <t>"
    | Location(latitude: real, longitude: real)                    // "Location: <lat>, <lon>"
    | LocationDenied                 // "Location access denied"
    | ToolError(message: string)     // "Tool Error: <message>"

  datatype LogEntry = LogEntry(kind: LogKind, message: LogMessage)

  predicate IsLower(c: char)
  {
    'a' <= c <= 'z'
  }

  function UpperChar(c: char): char
  {
    if IsLower(c) then (c as int - 32) as char else c
  }

  /** `toUpperCase` restricted to ASCII letters: the result has the same length, no
      lower-case letter, each lower-case letter replaced by its capital and every
      other character kept. */
  function Upper(s: string): (u: string)
    ensures |u| == |s|
    ensures forall i :: 0 <= i < |u| ==> !IsLower(u[i])
    ensures forall i :: 0 <= i < |s| ==> (IsLower(s[i]) ==> u[i] as int == s[i] as int - 32)
    ensures forall i :: 0 <= i < |s| ==> (!IsLower(s[i]) ==> u[i] == s[i])
  {
    seq(|s|, i requires 0 <= i < |s| => UpperChar(s[i]))
  }
}
