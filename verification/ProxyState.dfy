/** The frontend proxy: it correlates responses with the callers' handlers and replicates the bridge's
    controller and provider state. As for the bridge, the transitions below specify the methods of a class,
    FrontendProxy (ProxyMachine.dfy). Handler invocations are recorded in `calls`, one history per request. */
module ProxyState {
  import opened Wrappers
  import opened JsonRpc
  import opened BridgeState

  /** What the proxy believes about the bridge. */
  datatype View = View(connectionId: Option<string>, controller: Option<string>, role: Option<Role>,
                       generation: nat, ready: bool)

  const Detached: View := View(None, None, None, 0, false)

  datatype Proxy = Proxy(
    view: View,
    pending: map<string, JsonId>,
    calls: map<string, seq<Payload>>,
    nextRequest: nat,
    serverMethods: set<string>)

  function InitialProxy(): Proxy {
    Proxy(Detached, map[], map[], 1, {})
  }

  /** The part of a bridge event that changes what the proxy believes. */
  function Observe(v: View, e: Event): View {
    match e
    case Opened(c, role, _) => v.(connectionId := Some(c), role := Some(role))
    case ControllerIs(controller, _) =>
      v.(controller := controller,
         role := if v.connectionId.None? then v.role
                 else if controller == v.connectionId then Some(Controller) else Some(Observer))
    case Provider(phase, generation, _) =>
      if generation < v.generation then v else v.(generation := generation, ready := phase.Ready?)
    case Diagnostic(_, _, _) => v
    case Envelope(_, _, _, _) => v
  }

  function Calls(p: Proxy, key: string): seq<Payload> {
    if key in p.calls then p.calls[key] else []
  }

  /** Runs one handler. */
  function Call(p: Proxy, key: string, reply: Payload): Proxy {
    p.(calls := p.calls[key := Calls(p, key) + [reply]])
  }

  /** The histories once the handlers of `done`, pending before, have run with an error. */
  function CallsFailed(p: Proxy, done: set<string>, code: int): map<string, seq<Payload>> {
    map k | k in p.calls.Keys + (p.pending.Keys * done) ::
      if k in p.pending && k in done then Calls(p, k) + [ErrorResponse(p.pending[k], code)] else p.calls[k]
  }

  /** Empties the table first, then runs every handler that was in it with an error. */
  function FailPending(p: Proxy, code: int): Proxy {
    p.(pending := map[], calls := CallsFailed(p, p.pending.Keys, code))
  }

  /** A provider event of a newer generation, or one saying the provider is gone, fails what is pending. */
  predicate Interrupts(v: View, e: Event) {
    e.Provider? && e.generation >= v.generation &&
    (e.phase.Disconnected? || (v.generation != 0 && e.generation > v.generation))
  }

  function UpdateBridgeState(p: Proxy, e: Event): Proxy {
    (if Interrupts(p.view, e) then FailPending(p, -32002) else p).(view := Observe(p.view, e))
  }

  function TransportDisconnected(p: Proxy, code: int): Proxy {
    FailPending(p, code).(view := Detached)
  }

  // ----- requests -------------------------------------------------------------------------------

  function RequestPrefix(v: View): string {
    (if v.connectionId.Some? then v.connectionId.value else "unconnected-frontend") + "-request"
  }

  function RequestId(p: Proxy): string {
    Numbered(RequestPrefix(p.view), p.nextRequest)
  }

  predicate Usable(v: View) {
    v.connectionId.Some? && v.ready
  }

  /** Issues a request; `taken` tells whether the transport takes the message. */
  function IssueRequest(p: Proxy, taken: bool): Proxy {
    var id := RequestId(p);
    var key := StringKey(id);
    var p1 := p.(nextRequest := p.nextRequest + 1, calls := p.calls[key := []]);
    if !Usable(p.view) then
      Call(p1, key, ErrorResponse(Str(id), if p.view.connectionId.Some? then -32002 else -32021))
    else if taken then p1.(pending := p1.pending[key := Str(id)])
    else Call(p1.(pending := p1.pending - {key}), key, ErrorResponse(Str(id), -32020))
  }

  /** The message a request puts on the wire, if any. */
  function RequestMessage(p: Proxy, verb: string, body: string, taken: bool): seq<FrontendMessage> {
    if Usable(p.view) && taken then [AppServerMessage(Some(Request(Str(RequestId(p)), verb, body, true)))] else []
  }

  // ----- receiving ------------------------------------------------------------------------------

  function ReceiveResponse(p: Proxy, payload: Payload): Proxy
    requires payload.Response?
  {
    var key := IdKey(payload.id);
    if key.Some? && key.value in p.pending
    then Call(p.(pending := p.pending - {key.value}), key.value, payload)
    else p
  }

  function Receive(p: Proxy, e: Event): Proxy {
    if !e.Envelope? then UpdateBridgeState(p, e)
    else if e.payload.Response? then ReceiveResponse(p, e.payload)
    else p
  }

  /** The error the proxy answers a server request with when it has no handler, or the handler throws. */
  function ServerRequestReply(p: Proxy, e: Event, throws: bool): Option<Payload> {
    if !e.Envelope? || !e.payload.Request? || IdKey(e.payload.id).None? || p.view.connectionId.None? then None
    else if e.payload.verb !in p.serverMethods then Some(ErrorResponse(e.payload.id, -32601))
    else if throws then Some(ErrorResponse(e.payload.id, -32603))
    else None
  }

  function ReplyMessage(p: Proxy, e: Event, throws: bool, taken: bool): seq<FrontendMessage> {
    var reply := ServerRequestReply(p, e, throws);
    if reply.Some? && taken then [AppServerMessage(reply)] else []
  }
}
