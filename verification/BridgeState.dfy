/** The multi-client bridge: its tables, and the state transition each of its operations makes.

    The transitions below specify the methods of the class CodexBridge (BridgeMachine.dfy); everything
    that is proved about whole runs is proved about them. Two histories are part of the state: `down`
    holds, for each connection, every event handed to its endpoint, and `up` every message the bridge
    tried to send to the app-server. */
module BridgeState {
  import opened Wrappers
  import opened JsonRpc
  import Decimal

  datatype Role = Controller | Observer

  datatype Options = Options(firstFrontendBecomesController: bool, observersMayRead: bool, maximumFrontends: nat)

  datatype FrontendRequest = FrontendRequest(connectionId: string, frontendId: JsonId, frontendKey: string)

  /** The callback of a request issued by the bridge's own process; `InitializeHandler` is the provider handshake's. */
  datatype Handler = NoHandler | UserHandler | InitializeHandler

  datatype LocalRequest = LocalRequest(id: JsonId, handler: Handler)

  datatype ServerOwner =
    | LocalApplication(id: JsonId)
    | Frontend(connectionId: string, id: JsonId)

  datatype ProviderPhase = Disconnected | Connected | Ready

  /** What the bridge sends to a frontend. */
  datatype Event =
    | Opened(connectionId: string, role: Role, seqNo: nat)
    | ControllerIs(controller: Option<string>, seqNo: nat)
    | Provider(phase: ProviderPhase, generation: nat, seqNo: nat)
    | Diagnostic(code: string, about: Option<string>, seqNo: nat)
    | Envelope(connectionId: string, role: Role, seqNo: nat, payload: Payload)

  /** What a frontend sends to the bridge. */
  datatype Action = Claim | Release | Transfer(target: string) | UnknownAction

  datatype FrontendMessage =
    | AppServerMessage(payload: Option<Payload>)
    | Command(action: Action)
    | Unsupported

  datatype Origin = FromBridge | FromLocal | FromFrontend(connectionId: string)

  datatype Sent = Sent(payload: Payload, origin: Origin, accepted: bool)

  /** The app-server endpoint during one step: attached and connected or not, and which of the messages
      handed to it (numbered over the whole run) it takes. */
  datatype Link = Link(reachable: bool, takes: nat -> bool)

  datatype Tables = Tables(
    options: Options,
    frontends: map<string, Role>,
    controller: Option<string>,
    requestOwners: map<string, FrontendRequest>,
    requestKeys: map<string, string>,
    localRequests: map<string, LocalRequest>,
    serverOwners: map<string, ServerOwner>,
    localMethods: set<string>,
    nextConnection: nat,
    nextLocal: nat,
    nextFrontend: nat,
    generation: nat,
    ready: bool)

  datatype State = State(tables: Tables, sequence: nat, down: map<string, seq<Event>>, up: seq<Sent>)

  function Initial(options: Options): State {
    State(Tables(options, map[], None, map[], map[], map[], map[], {}, 1, 1, 1, 0, false), 0, map[], [])
  }

  // ----- identifiers ----------------------------------------------------------------------------

  function ConnectionName(n: nat): string {
    "frontend" + "-" + Decimal.ToString(n)
  }

  function StringKey(text: string): string {
    "\"" + Escape(text) + "\""
  }

  function Numbered(prefix: string, n: nat): string {
    prefix + "-" + Decimal.ToString(n)
  }

  function RemotePrefix(generation: nat, connectionId: string): string {
    "codex-remote-" + Decimal.ToString(generation) + "-" + connectionId
  }

  function LocalPrefix(generation: nat): string {
    "codex-local-" + Decimal.ToString(generation)
  }

  function FrontendKey(connectionId: string, key: string): string {
    connectionId + "\n" + key
  }

  /** The number the id generators settle on: they count up until the key is in neither request table. */
  function FirstFree(prefix: string, n: nat, taken: set<string>): nat
    decreases taken
  {
    var key := StringKey(Numbered(prefix, n));
    if key in taken then FirstFree(prefix, n + 1, taken - {key}) else n
  }

  function Outstanding(t: Tables): set<string> {
    t.requestOwners.Keys + t.localRequests.Keys
  }

  // ----- sending --------------------------------------------------------------------------------

  function Log(s: State, c: string): seq<Event> {
    if c in s.down then s.down[c] else []
  }

  /** Sending to frontends changes no table, sends nothing to the app-server and nothing to an unregistered name. */
  ghost predicate Quiet(s: State, t: State) {
    t.tables == s.tables && t.up == s.up && t.down.Keys <= s.down.Keys + s.tables.frontends.Keys
  }

  /** Sends the event to one connection, if it is registered. */
  function SendTo(s: State, c: string, e: Event): (t: State)
    ensures Quiet(s, t)
  {
    if c in s.tables.frontends then s.(down := s.down[c := Log(s, c) + [e]]) else s
  }

  /** The logs once the connections of `told` have been sent the event. */
  function Told(s: State, told: set<string>, e: Event): map<string, seq<Event>> {
    map c | c in s.down.Keys + told :: if c in told then Log(s, c) + [e] else s.down[c]
  }

  function Broadcast(s: State, e: Event): (t: State)
    ensures Quiet(s, t)
  {
    s.(down := Told(s, s.tables.frontends.Keys, e))
  }

  function Tick(s: State): State {
    s.(sequence := s.sequence + 1)
  }

  function BroadcastController(s: State): (t: State)
    ensures Quiet(s, t)
  {
    Broadcast(Tick(s), ControllerIs(s.tables.controller, s.sequence + 1))
  }

  function BroadcastProvider(s: State, phase: ProviderPhase): (t: State)
    ensures Quiet(s, t)
  {
    Broadcast(Tick(s), Provider(phase, s.tables.generation, s.sequence + 1))
  }

  function Diagnose(s: State, code: string, about: Option<string>): (t: State)
    ensures Quiet(s, t)
  {
    var e := Diagnostic(code, about, s.sequence + 1);
    if about.Some? then SendTo(Tick(s), about.value, e) else Broadcast(Tick(s), e)
  }

  /** Wraps a JSON-RPC message for one registered frontend and sends it. */
  function Deliver(s: State, c: string, p: Payload): (t: State)
    ensures Quiet(s, t)
  {
    if c in s.tables.frontends
    then SendTo(Tick(s), c, Envelope(c, s.tables.frontends[c], s.sequence + 1, p))
    else s
  }

  function Reject(s: State, c: string, id: Option<JsonId>, code: int): (t: State)
    ensures Quiet(s, t)
  {
    if id.Some? && c in s.tables.frontends then Deliver(s, c, ErrorResponse(id.value, code))
    else Diagnose(s, "frontend-message-rejected", Some(c))
  }

  predicate Takes(s: State, link: Link) {
    link.reachable && link.takes(|s.up|)
  }

  function Transmit(s: State, link: Link, p: Payload, origin: Origin): State {
    s.(up := s.up + [Sent(p, origin, Takes(s, link))])
  }

  // ----- registration ---------------------------------------------------------------------------

  /** The table entries of a new connection. */
  function Enroll(t: Tables): Tables {
    var c := ConnectionName(t.nextConnection);
    var role := if t.options.firstFrontendBecomesController && t.controller.None? then Controller else Observer;
    t.(nextConnection := t.nextConnection + 1,
       frontends := t.frontends[c := role],
       controller := if role.Controller? then Some(c) else t.controller)
  }

  /** The three events that tell a new connection where the bridge stands. */
  function Greet(s: State, link: Link, c: string, role: Role): (t: State)
    ensures Quiet(s, t)
  {
    var s1 := SendTo(Tick(s), c, Opened(c, role, s.sequence + 1));
    var phase := if s1.tables.ready then Ready else if link.reachable then Connected else Disconnected;
    BroadcastController(SendTo(Tick(s1), c, Provider(phase, s1.tables.generation, s1.sequence + 1)))
  }

  function Register(s: State, link: Link): State {
    if |s.tables.frontends| >= s.tables.options.maximumFrontends then s
    else
      var c := ConnectionName(s.tables.nextConnection);
      var t := Enroll(s.tables);
      Greet(s.(tables := t, down := s.down[c := []]), link, c, t.frontends[c])
  }

  function OwnedBy(t: Tables, c: string): set<string> {
    set k | k in t.serverOwners && t.serverOwners[k].Frontend? && t.serverOwners[k].connectionId == c
  }

  function Strike(t: Tables, key: string): Tables {
    t.(serverOwners := t.serverOwners - {key})
  }

  /** Answers, in the given order, the server requests a departing frontend leaves behind. */
  function FailServerRequests(s: State, link: Link, order: seq<string>): State {
    if order == [] then s
    else
      var before := FailServerRequests(s, link, order[..|order| - 1]);
      var key := order[|order| - 1];
      if key in before.tables.serverOwners then
        var sent := Transmit(before, link, ErrorResponse(before.tables.serverOwners[key].id, -32011), FromBridge);
        sent.(tables := Strike(sent.tables, key))
      else before
  }

  function DropRequests(t: Tables, c: string): Tables {
    t.(requestOwners := map u | u in t.requestOwners && t.requestOwners[u].connectionId != c :: t.requestOwners[u],
       requestKeys := map f | f in t.requestKeys && !(c + "\n" <= f) :: t.requestKeys[f])
  }

  function Withdraw(t: Tables, c: string): Tables {
    t.(frontends := t.frontends - {c}, controller := if t.controller == Some(c) then None else t.controller)
  }

  function Unregister(s: State, link: Link, c: string, order: seq<string>): State {
    if c !in s.tables.frontends then s
    else
      var s1 := FailServerRequests(s, link, order);
      var s2 := s1.(tables := Withdraw(DropRequests(s1.tables, c), c));
      if s.tables.controller == Some(c) then BroadcastController(s2) else s2
  }

  // ----- messages from a frontend ---------------------------------------------------------------

  const ReadOnlyMethods: set<string> := {
      "account/bedrock/discover",
      "account/read",
      "account/rateLimits/read",
      "account/usage/read",
      "account/workspaceMessages/read",
      "app/installed",
      "app/list",
      "app/read",
      "collaborationMode/list",
      "config/read",
      "configRequirements/read",
      "environment/status",
      "experimentalFeature/list",
      "externalAgentConfig/import/readHistories",
      "fs/getMetadata",
      "fs/readDirectory",
      "fs/readFile",
      "hooks/list",
      "mcpServer/resource/read",
      "mcpServerStatus/list",
      "model/list",
      "modelProvider/capabilities/read",
      "permissionProfile/list",
      "plugin/installed",
      "plugin/list",
      "plugin/read",
      "plugin/search",
      "plugin/share/list",
      "plugin/skill/read",
      "project/list",
      "project/read",
      "remoteControl/client/list",
      "remoteControl/status/read",
      "server/diagnostics",
      "skills/list",
      "thread/backgroundTerminals/list",
      "thread/goal/get",
      "thread/list",
      "thread/loaded/list",
      "thread/items/list",
      "thread/queue/list",
      "thread/read",
      "thread/realtime/listVoices",
      "thread/search",
      "thread/searchOccurrences",
      "thread/timeline/list",
      "thread/turns/list",
      "threadSection/list",
      "userVerification/status",
      "windowsSandbox/readiness"}

  predicate MayForward(t: Tables, c: string, p: Payload) {
    c in t.frontends &&
    (t.frontends[c].Controller? ||
     (t.options.observersMayRead && p.Request? && p.verb in ReadOnlyMethods))
  }

  predicate Owns(t: Tables, c: string, key: string) {
    key in t.serverOwners && t.serverOwners[key].Frontend? && t.serverOwners[key].connectionId == c
  }

  function AnswerServerRequest(s: State, link: Link, c: string, p: Payload): State
    requires p.Response?
  {
    var key := IdKey(p.id);
    if key.None? then Reject(s, c, Some(p.id), -32600)
    else if !Owns(s.tables, c, key.value) then Reject(s, c, Some(p.id), -32004)
    else
      var sent := Transmit(s, link, p, FromFrontend(c)).(tables := Strike(s.tables, key.value));
      if Takes(s, link) then sent else Reject(sent, c, Some(p.id), -32005)
  }

  function RemoteNumber(t: Tables, c: string): nat {
    FirstFree(RemotePrefix(t.generation, c), t.nextFrontend, Outstanding(t))
  }

  function RemoteId(t: Tables, c: string): string {
    Numbered(RemotePrefix(t.generation, c), RemoteNumber(t, c))
  }

  /** Files a forwarded request under its upstream id and, the other way round, under the frontend's own id. */
  function FileRequest(t: Tables, c: string, id: JsonId): Tables
    requires IdKey(id).Some?
  {
    var key := FrontendKey(c, IdKey(id).value);
    var upstreamKey := StringKey(RemoteId(t, c));
    t.(requestOwners := t.requestOwners[upstreamKey := FrontendRequest(c, id, key)],
       requestKeys := t.requestKeys[key := upstreamKey],
       nextFrontend := RemoteNumber(t, c) + 1)
  }

  function ForwardRequest(s: State, link: Link, c: string, p: Payload): State
    requires p.Request?
  {
    var key := IdKey(p.id);
    if key.None? || FrontendKey(c, key.value) in s.tables.requestKeys then Reject(s, c, Some(p.id), -32600)
    else
      var upstream := Request(Str(RemoteId(s.tables, c)), p.verb, p.body, p.strict);
      var sent := Transmit(s, link, upstream, FromFrontend(c));
      if Takes(s, link) then sent.(tables := FileRequest(s.tables, c, p.id))
      else
        Reject(sent.(tables := s.tables.(nextFrontend := RemoteNumber(s.tables, c) + 1)), c, Some(p.id), -32005)
  }

  function ForwardNotification(s: State, link: Link, c: string, p: Payload): State {
    var sent := Transmit(s, link, p, FromFrontend(c));
    if Takes(s, link) then sent else Reject(sent, c, Ident(p), -32005)
  }

  /** Why the bridge refuses to forward a request or notification, if it does. */
  function Refusal(t: Tables, link: Link, c: string, p: Payload): Option<int>
    requires p.Request? || p.Notification?
  {
    if p.verb == "initialize" || p.verb == "initialized" then Some(-32003)
    else if !MayForward(t, c, p) then Some(-32001)
    else if !link.reachable || !t.ready then Some(-32002)
    else None
  }

  function HandleAppServerMessage(s: State, link: Link, c: string, payload: Option<Payload>): State {
    if payload.None? then Reject(s, c, None, -32600)
    else
      var p := payload.value;
      match ClassifyStrict(p)
      case InvalidKind => Reject(s, c, Ident(p), -32600)
      case ResponseKind => AnswerServerRequest(s, link, c, p)
      case RequestKind =>
        var refusal := Refusal(s.tables, link, c, p);
        if refusal.Some? then Reject(s, c, Ident(p), refusal.value) else ForwardRequest(s, link, c, p)
      case NotificationKind =>
        var refusal := Refusal(s.tables, link, c, p);
        if refusal.Some? then Reject(s, c, Ident(p), refusal.value) else ForwardNotification(s, link, c, p)
  }

  function Appoint(t: Tables, c: Option<string>): Tables {
    var demoted := if t.controller.Some? && t.controller.value in t.frontends
                   then t.frontends[t.controller.value := Observer] else t.frontends;
    t.(frontends := if c.Some? then demoted[c.value := Controller] else demoted, controller := c)
  }

  function SetController(s: State, c: Option<string>): State {
    BroadcastController(s.(tables := Appoint(s.tables, c)))
  }

  function HandleCommand(s: State, c: string, action: Action): State {
    var controller := s.tables.controller;
    match action
    case Claim =>
      if controller.None? || controller == Some(c) then SetController(s, Some(c))
      else Diagnose(s, "controller-claim-rejected", Some(c))
    case Release =>
      if controller == Some(c) then SetController(s, None)
      else Diagnose(s, "controller-release-rejected", Some(c))
    case Transfer(target) =>
      if controller != Some(c) || target !in s.tables.frontends
      then Diagnose(s, "controller-transfer-rejected", Some(c))
      else SetController(s, Some(target))
    case UnknownAction => Diagnose(s, "controller-command-invalid", Some(c))
  }

  function ReceiveFromFrontend(s: State, link: Link, c: string, m: FrontendMessage): State {
    if c !in s.tables.frontends then s
    else match m
      case AppServerMessage(payload) => HandleAppServerMessage(s, link, c, payload)
      case Command(action) => HandleCommand(s, c, action)
      case Unsupported => Reject(s, c, None, -32600)
  }

  // ----- messages from the app-server -----------------------------------------------------------

  function SetReady(s: State, link: Link): State {
    if !link.reachable || s.tables.ready then s
    else Diagnose(BroadcastProvider(s.(tables := s.tables.(ready := true)), Ready), "appserver-ready", None)
  }

  const InitializedNotification: Payload := Notification("initialized", "", None, true)

  /** The provider handshake's callback: a successful answer is acknowledged, then the session is ready. */
  function CompleteHandshake(s: State, link: Link, outcome: Outcome): State {
    if outcome.Error? then s
    else
      var sent := Transmit(s, link, InitializedNotification, FromLocal);
      if Takes(s, link) then SetReady(sent, link) else sent
  }

  function Settle(t: Tables, key: string): Tables
    requires key in t.requestOwners
  {
    t.(requestOwners := t.requestOwners - {key},
       requestKeys := t.requestKeys - {t.requestOwners[key].frontendKey})
  }

  function RouteResponse(s: State, link: Link, key: string, p: Payload): State
    requires p.Response?
  {
    var t := s.tables;
    if key in t.localRequests then
      var s1 := s.(tables := t.(localRequests := t.localRequests - {key}));
      if t.localRequests[key].handler.InitializeHandler? then CompleteHandshake(s1, link, p.outcome) else s1
    else if key in t.requestOwners then
      var request := t.requestOwners[key];
      Deliver(s.(tables := Settle(t, key)), request.connectionId, Response(request.frontendId, p.outcome, p.strict))
    else Diagnose(s, "unmatched-appserver-response", None)
  }

  function RouteServerRequest(s: State, link: Link, key: string, p: Payload, throws: bool): State
    requires p.Request?
  {
    var t := s.tables;
    if key in t.serverOwners then
      Diagnose(Transmit(s, link, ErrorResponse(p.id, -32600), FromBridge), "duplicate-appserver-request-id", None)
    else if p.verb in t.localMethods then
      if throws then Transmit(s, link, ErrorResponse(p.id, -32603), FromLocal)
      else s.(tables := t.(serverOwners := t.serverOwners[key := LocalApplication(p.id)]))
    else if t.controller.Some? && t.controller.value in t.frontends then
      var c := t.controller.value;
      Deliver(s.(tables := t.(serverOwners := t.serverOwners[key := Frontend(c, p.id)])), c, p)
    else
      Diagnose(Transmit(s, link, ErrorResponse(p.id, -32010), FromBridge), "appserver-request-without-handler", None)
  }

  /** The key a `serverRequest/resolved` notification releases. */
  function ResolvedKey(p: Payload): Option<string> {
    if p.Notification? && p.verb == "serverRequest/resolved" && p.resolves.Some? then IdKey(p.resolves.value) else None
  }

  /** Delivers one message to each frontend of `order`, every copy with its own sequence number. */
  function Fanout(s: State, order: seq<string>, p: Payload): (t: State)
    ensures Quiet(s, t)
  {
    if order == [] then s else Deliver(Fanout(s, order[..|order| - 1], p), order[|order| - 1], p)
  }

  function RouteNotification(s: State, p: Payload, order: seq<string>): State {
    var key := ResolvedKey(p);
    Fanout(if key.Some? then s.(tables := Strike(s.tables, key.value)) else s, order, p)
  }

  function ReceiveFromAppServer(s: State, link: Link, p: Payload, throws: bool, order: seq<string>): State {
    if p.Response? && IdKey(p.id).Some? then RouteResponse(s, link, IdKey(p.id).value, p)
    else if p.Request? && IdKey(p.id).Some? then RouteServerRequest(s, link, IdKey(p.id).value, p, throws)
    else if p.Notification? then RouteNotification(s, p, order)
    else Diagnose(s, "invalid-appserver-message", None)
  }

  // ----- requests of the bridge's own process ---------------------------------------------------

  function LocalNumber(t: Tables): nat {
    FirstFree(LocalPrefix(t.generation), t.nextLocal, Outstanding(t))
  }

  function LocalId(t: Tables): JsonId {
    Str(Numbered(LocalPrefix(t.generation), LocalNumber(t)))
  }

  function FileLocally(t: Tables, handler: Handler): Tables {
    var id := LocalId(t);
    t.(localRequests := t.localRequests[StringKey(id.text) := LocalRequest(id, handler)],
       nextLocal := LocalNumber(t) + 1)
  }

  function RequestLocally(s: State, link: Link, verb: string, body: string, handler: Handler): State {
    var sent := Transmit(s, link, Request(LocalId(s.tables), verb, body, true), FromLocal);
    sent.(tables := if Takes(s, link) then FileLocally(s.tables, handler)
                    else s.tables.(nextLocal := LocalNumber(s.tables) + 1))
  }

  function SendRaw(s: State, link: Link, p: Payload): State {
    var t := s.tables;
    var sent := Transmit(s, link, p, FromLocal);
    match p
    case Invalid(_) => s
    case Request(id, _, _, _) =>
      var key := IdKey(id);
      if key.None? || key.value in Outstanding(t) then s
      else if !Takes(s, link) then sent
      else sent.(tables := t.(localRequests := t.localRequests[key.value := LocalRequest(id, NoHandler)]))
    case Response(id, _, _) =>
      var key := IdKey(id);
      if key.None? || key.value !in t.serverOwners || !t.serverOwners[key.value].LocalApplication? then s
      else if !Takes(s, link) then sent
      else sent.(tables := Strike(t, key.value))
    case Notification(_, _, _, _) => sent
  }

  function SetLocalHandler(t: Tables, verb: string, present: bool): Tables {
    t.(localMethods := if present then t.localMethods + {verb} else t.localMethods - {verb})
  }

  // ----- provider lifecycle ---------------------------------------------------------------------

  /** The app-server transport came up: a new generation begins and the provider handshake starts. */
  function AppServerConnected(s: State, link: Link): State {
    var s1 := s.(tables := s.tables.(ready := false, generation := s.tables.generation + 1));
    var s2 := Diagnose(BroadcastProvider(s1, Connected), "appserver-connected", None);
    RequestLocally(s2, link, "initialize", "clientInfo", InitializeHandler)
  }

  /** Answers, in the given order of their upstream keys, the forwarded requests of a lost generation. */
  function FailRequests(s: State, lost: map<string, FrontendRequest>, order: seq<string>): (t: State)
    ensures Quiet(s, t)
  {
    if order == [] then s
    else
      var before := FailRequests(s, lost, order[..|order| - 1]);
      var key := order[|order| - 1];
      if key in lost then Deliver(before, lost[key].connectionId, ErrorResponse(lost[key].frontendId, -32002))
      else before
  }

  function Forget(t: Tables): Tables {
    t.(ready := false, localRequests := map[], requestOwners := map[], requestKeys := map[], serverOwners := map[])
  }

  function AppServerDisconnected(s: State, order: seq<string>): State {
    var s1 := FailRequests(s.(tables := Forget(s.tables)), s.tables.requestOwners, order);
    Diagnose(BroadcastProvider(s1, Disconnected), "appserver-disconnected", None)
  }

  // ----- steps ----------------------------------------------------------------------------------

  datatype Input =
    | DoRegister
    | DoUnregister(connectionId: string, order: seq<string>)
    | DoReceiveFromFrontend(connectionId: string, message: FrontendMessage)
    | DoReceiveFromAppServer(payload: Payload, throws: bool, order: seq<string>)
    | DoConnected
    | DoDisconnected(order: seq<string>)
    | DoRequestLocally(verb: string, body: string)
    | DoSendRaw(payload: Payload)
    | DoSetLocalHandler(verb: string, present: bool)

  function Step(s: State, link: Link, input: Input): State {
    match input
    case DoRegister => Register(s, link)
    case DoUnregister(c, order) => Unregister(s, link, c, order)
    case DoReceiveFromFrontend(c, m) => ReceiveFromFrontend(s, link, c, m)
    case DoReceiveFromAppServer(p, throws, order) => ReceiveFromAppServer(s, link, p, throws, order)
    case DoConnected => AppServerConnected(s, link)
    case DoDisconnected(order) => AppServerDisconnected(s, order)
    case DoRequestLocally(verb, body) => RequestLocally(s, link, verb, body, UserHandler)
    case DoSendRaw(p) => SendRaw(s, link, p)
    case DoSetLocalHandler(verb, present) => s.(tables := SetLocalHandler(s.tables, verb, present))
  }

  /** `order` runs once through the elements of `elements`: the iteration order of a hash table. */
  ghost predicate Enumerates(order: seq<string>, elements: set<string>) {
    (forall i, j :: 0 <= i < j < |order| ==> order[i] != order[j]) &&
    (forall x :: x in order <==> x in elements)
  }

  /** The only thing a step leaves to the environment: the iteration orders cover the tables they iterate. */
  ghost predicate Enabled(s: State, input: Input) {
    match input
    case DoUnregister(c, order) => Enumerates(order, OwnedBy(s.tables, c))
    case DoReceiveFromAppServer(_, _, order) => Enumerates(order, s.tables.frontends.Keys)
    case DoDisconnected(order) => Enumerates(order, s.tables.requestOwners.Keys)
    case _ => true
  }
}
