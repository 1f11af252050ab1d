/**
  The event-stream client of remote mode (src/services/sseClient.ts). The
  wire framing and JSON decoding belong to libraries; the client sees each
  message either as a decoded event or as a payload that failed to parse.
  Callbacks are identified by registration handles and a dispatch is the
  ordered list of invocations it makes.
 */
module SseClient {
  import opened Wrappers

  /** `EventSource.readyState`. */
  datatype ReadyState = Connecting | Open | Closed

  /** `eventSource` is `source` (None for null); callbacks in registration order. */
  datatype Client = Client(
    source: Option<ReadyState>,
    url: Option<string>,
    partCallbacks: seq<nat>,
    idleCallbacks: seq<nat>,
    errorCallbacks: seq<nat>)

  const NewClient := Client(None, None, [], [], [])

  /** `isConnected`: an event source exists and is open. */
  predicate IsConnected(c: Client) {
    c.source == Some(Open)
  }

  /** `connect`: a new event source on `{baseUrl}/event`, still connecting. */
  function Connect(c: Client, baseUrl: string): (r: Client)
    ensures r.url == Some(baseUrl + "/event")
    ensures !IsConnected(r)
    ensures r == c.(source := Some(Connecting), url := r.url)
  {
    c.(source := Some(Connecting), url := Some(baseUrl + "/event"))
  }

  /** The transport changing the ready state of the current event source, if any. */
  function TransportState(c: Client, state: ReadyState): (r: Client)
    ensures c.source.None? ==> r == c
    ensures c.source.Some? ==> (IsConnected(r) <==> state == Open)
  {
    if c.source.Some? then c.(source := Some(state)) else c
  }

  /** `disconnect`: closes and drops the event source; harmless when there is none. */
  function Disconnect(c: Client): (r: Client)
    ensures !IsConnected(r) && r.source.None?
    ensures r == c.(source := None)
  {
    c.(source := None)
  }

  /** A client is not connected before `connect`, and `disconnect` is idempotent. */
  lemma ConnectionLifecycle(c: Client)
    ensures !IsConnected(NewClient)
    ensures Disconnect(Disconnect(c)) == Disconnect(c)
    ensures Disconnect(NewClient) == NewClient
  {
  }

  function OnPartUpdated(c: Client, cb: nat): (r: Client)
    ensures r.partCallbacks == c.partCallbacks + [cb]
    ensures r == c.(partCallbacks := r.partCallbacks)
  {
    c.(partCallbacks := c.partCallbacks + [cb])
  }

  function OnSessionIdle(c: Client, cb: nat): (r: Client)
    ensures r.idleCallbacks == c.idleCallbacks + [cb]
    ensures r == c.(idleCallbacks := r.idleCallbacks)
  {
    c.(idleCallbacks := c.idleCallbacks + [cb])
  }

  function OnError(c: Client, cb: nat): (r: Client)
    ensures r.errorCallbacks == c.errorCallbacks + [cb]
    ensures r == c.(errorCallbacks := r.errorCallbacks)
  {
    c.(errorCallbacks := c.errorCallbacks + [cb])
  }

  // ---- events ----

  datatype Part = Part(partType: string, id: string, sessionID: string, messageID: string, text: string)

  datatype TextPart = TextPart(id: string, sessionID: string, messageID: string, text: string)

  datatype Properties = Properties(part: Option<Part>, sessionID: Option<string>)

  /** The `properties` member of a decoded event: absent, `null`, or an object. */
  datatype PropertiesField = Undefined | Null | Present(props: Properties)

  datatype SseEvent = SseEvent(eventType: string, properties: PropertiesField)

  datatype Payload = Unparseable(reason: string) | Decoded(event: SseEvent)

  /** The key the listener reads from `properties` for an event type it handles. */
  function ReadKey(eventType: string): string {
    if eventType == "message.part.updated" then "part" else "sessionID"
  }

  /**
    What `${error}` renders for the TypeError thrown by reading `key` from an
    absent or `null` `properties`, in the wording of V8, the engine Node runs.
   */
  function MissingPropertiesReason(field: PropertiesField, key: string): string
    requires !field.Present?
  {
    "TypeError: Cannot read properties of " + (if field.Undefined? then "undefined" else "null")
    + " (reading '" + key + "')"
  }

  function ParseFailure(reason: string): string {
    "Failed to parse SSE event: " + reason
  }

  /** What a message makes the client do. */
  datatype Dispatch = PartText(part: TextPart) | Idle(sessionId: string) | Error(message: string) | Ignore

  /**
    The message listener: a `message.part.updated` event with a text part
    dispatches the whole part, a `session.idle` event with a non-empty session
    id dispatches that id, an unparseable payload (or an event of those two
    types without properties) is a parse error, and everything else is ignored.
   */
  function Classify(p: Payload): (d: Dispatch)
    ensures d.PartText? <==>
              && p.Decoded? && p.event.eventType == "message.part.updated"
              && p.event.properties.Present? && p.event.properties.props.part.Some?
              && p.event.properties.props.part.value.partType == "text"
    ensures d.PartText? ==>
              var part := p.event.properties.props.part.value;
              d.part == TextPart(part.id, part.sessionID, part.messageID, part.text)
    ensures d.Idle? <==>
              && p.Decoded? && p.event.eventType == "session.idle" && p.event.properties.Present?
              && p.event.properties.props.sessionID.Some? && p.event.properties.props.sessionID.value != ""
    ensures d.Idle? ==> d.sessionId == p.event.properties.props.sessionID.value
    ensures d.Error? <==>
              p.Unparseable? || (p.event.eventType in {"message.part.updated", "session.idle"} && !p.event.properties.Present?)
    ensures d.Error? && p.Unparseable? ==> d.message == ParseFailure(p.reason)
    ensures d.Error? && p.Decoded? ==>
              && !p.event.properties.Present?
              && d.message == ParseFailure(MissingPropertiesReason(p.event.properties, ReadKey(p.event.eventType)))
  {
    match p
    case Unparseable(reason) => Error(ParseFailure(reason))
    case Decoded(event) =>
      if event.eventType == "message.part.updated" then
        match event.properties
        case Present(props) =>
          if props.part.Some? && props.part.value.partType == "text" then
            var part := props.part.value;
            PartText(TextPart(part.id, part.sessionID, part.messageID, part.text))
          else Ignore
        case _ => Error(ParseFailure(MissingPropertiesReason(event.properties, "part")))
      else if event.eventType == "session.idle" then
        match event.properties
        case Present(props) =>
          if props.sessionID.Some? && props.sessionID.value != "" then Idle(props.sessionID.value) else Ignore
        case _ => Error(ParseFailure(MissingPropertiesReason(event.properties, "sessionID")))
      else Ignore
  }

  datatype Invocation = PartCall(cb: nat, part: TextPart) | IdleCall(cb: nat, sessionId: string) | ErrorCall(cb: nat, message: string)

  function InvocationOf(cb: nat, d: Dispatch): Invocation
    requires !d.Ignore?
  {
    match d
    case PartText(part) => PartCall(cb, part)
    case Idle(id) => IdleCall(cb, id)
    case Error(m) => ErrorCall(cb, m)
  }

  /** One call per registered callback, in registration order. */
  function FanOut(cbs: seq<nat>, d: Dispatch): (calls: seq<Invocation>)
    requires !d.Ignore?
    ensures |calls| == |cbs|
    ensures forall i :: 0 <= i < |cbs| ==> calls[i] == InvocationOf(cbs[i], d)
  {
    if |cbs| == 0 then [] else [InvocationOf(cbs[0], d)] + FanOut(cbs[1..], d)
  }

  /** The callbacks a dispatch goes to. */
  function Listeners(c: Client, d: Dispatch): seq<nat> {
    match d
    case PartText(_) => c.partCallbacks
    case Idle(_) => c.idleCallbacks
    case Error(_) => c.errorCallbacks
    case Ignore => []
  }

  /**
    Handling one message: every callback of the matching list is called once,
    in registration order, with the same argument; an ignored message calls
    nothing.
   */
  function HandleMessage(c: Client, p: Payload): (calls: seq<Invocation>)
    ensures Classify(p).Ignore? ==> calls == []
    ensures !Classify(p).Ignore? ==>
              && |calls| == |Listeners(c, Classify(p))|
              && forall i :: 0 <= i < |calls| ==> calls[i] == InvocationOf(Listeners(c, Classify(p))[i], Classify(p))
  {
    var d := Classify(p);
    if d.Ignore? then [] else FanOut(Listeners(c, d), d)
  }

  /** The `error` listener: the transport's error, or a generic connection error, to every error callback. */
  function HandleTransportError(c: Client, error: Option<string>): (calls: seq<Invocation>)
    ensures |calls| == |c.errorCallbacks|
    ensures forall i :: 0 <= i < |calls| ==>
              calls[i] == ErrorCall(c.errorCallbacks[i], error.GetOr("SSE connection error"))
  {
    FanOut(c.errorCallbacks, Error(error.GetOr("SSE connection error")))
  }
}
