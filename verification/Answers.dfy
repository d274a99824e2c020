/** Every response a frontend is sent: which ones a step adds to each connection's log, and why. */
module Answers {
  import opened Wrappers
  import opened JsonRpc
  import opened BridgeState
  import opened BridgeInvariant

  /** The responses in a log, in order. */
  function Responses(log: seq<Event>): seq<Payload> {
    if log == [] then []
    else
      var last := log[|log| - 1];
      Responses(log[..|log| - 1]) + if last.Envelope? && last.payload.Response? then [last.payload] else []
  }

  /** From `s` to `t` the connection was sent exactly these responses. */
  ghost predicate Says(s: State, t: State, c: string, more: seq<Payload>) {
    Responses(Log(t, c)) == Responses(Log(s, c)) + more
  }

  // ----- what a step answers --------------------------------------------------------------------

  /** The error a frontend's message draws, if it draws one under an id. */
  function Rejection(s: State, link: Link, c: string, m: FrontendMessage): Option<Payload> {
    if c !in s.tables.frontends || !m.AppServerMessage? || m.payload.None? then None
    else
      var p := m.payload.value;
      match ClassifyStrict(p)
      case InvalidKind => if Ident(p).Some? then Some(ErrorResponse(Ident(p).value, -32600)) else None
      case ResponseKind =>
        if IdKey(p.id).None? then Some(ErrorResponse(p.id, -32600))
        else if !Owns(s.tables, c, IdKey(p.id).value) then Some(ErrorResponse(p.id, -32004))
        else if !Takes(s, link) then Some(ErrorResponse(p.id, -32005))
        else None
      case RequestKind =>
        var refusal := Refusal(s.tables, link, c, p);
        if refusal.Some? then Some(ErrorResponse(p.id, refusal.value))
        else if IdKey(p.id).None? || FrontendKey(c, IdKey(p.id).value) in s.tables.requestKeys
        then Some(ErrorResponse(p.id, -32600))
        else if !Takes(s, link) then Some(ErrorResponse(p.id, -32005))
        else None
      case NotificationKind => None
  }

  function Optional(p: Option<Payload>): seq<Payload> {
    if p.Some? then [p.value] else []
  }

  /** The owner's copy of an app-server response. */
  function OwnersCopy(t: Tables, p: Payload, c: string): Option<Payload> {
    if p.Response? && IdKey(p.id).Some? && IdKey(p.id).value !in t.localRequests &&
       IdKey(p.id).value in t.requestOwners && t.requestOwners[IdKey(p.id).value].connectionId == c
    then Some(Response(t.requestOwners[IdKey(p.id).value].frontendId, p.outcome, p.strict))
    else None
  }

  /** The errors for a connection when the app-server is lost, in the given order of the upstream keys. */
  function LostTo(lost: map<string, FrontendRequest>, order: seq<string>, c: string): seq<Payload> {
    if order == [] then []
    else
      var u := order[|order| - 1];
      LostTo(lost, order[..|order| - 1], c) +
      if u in lost && lost[u].connectionId == c then [ErrorResponse(lost[u].frontendId, -32002)] else []
  }

  /** The responses a step sends to one registered connection. */
  function StepAnswers(s: State, link: Link, input: Input, c: string): seq<Payload> {
    if c !in s.tables.frontends then []
    else
      match input
      case DoReceiveFromFrontend(d, m) => if d == c then Optional(Rejection(s, link, c, m)) else []
      case DoReceiveFromAppServer(p, _, _) => Optional(OwnersCopy(s.tables, p, c))
      case DoDisconnected(order) => LostTo(s.tables.requestOwners, order, c)
      case _ => []
  }

  // ----- sending --------------------------------------------------------------------------------

  lemma ResponsesSnoc(log: seq<Event>, e: Event)
    ensures Responses(log + [e]) == Responses(log) + if e.Envelope? && e.payload.Response? then [e.payload] else []
  {
    assert (log + [e])[..|log|] == log;
  }

  lemma SaysNothing(s: State, t: State, c: string)
    requires Log(t, c) == Log(s, c)
    ensures Says(s, t, c, [])
  {
  }

  lemma SaysBoth(s: State, t: State, u: State, c: string, first: seq<Payload>, second: seq<Payload>)
    requires Says(s, t, c, first) && Says(t, u, c, second)
    ensures Says(s, u, c, first + second)
    ensures first == [] ==> Says(s, u, c, second)
    ensures second == [] ==> Says(s, u, c, first)
  {
    hide Responses;
    assert (Responses(Log(s, c)) + first) + second == Responses(Log(s, c)) + (first + second);
    assert [] + second == second && first + [] == first;
  }

  lemma SendSays(s: State, d: string, e: Event, c: string)
    ensures Says(s, SendTo(s, d, e), c,
                 if d == c && d in s.tables.frontends && e.Envelope? && e.payload.Response? then [e.payload] else [])
  {
    hide Responses;
    ResponsesSnoc(Log(s, c), e);
  }

  lemma BroadcastSays(s: State, e: Event, c: string)
    requires !e.Envelope?
    ensures Says(s, Broadcast(s, e), c, [])
  {
    hide Responses;
    ResponsesSnoc(Log(s, c), e);
  }

  lemma AnnounceSays(s: State, phase: ProviderPhase, c: string)
    ensures Says(s, BroadcastController(s), c, []) && Says(s, BroadcastProvider(s, phase), c, [])
  {
    hide Responses, Broadcast;
    BroadcastSays(Tick(s), ControllerIs(s.tables.controller, s.sequence + 1), c);
    BroadcastSays(Tick(s), Provider(phase, s.tables.generation, s.sequence + 1), c);
  }

  lemma DiagnoseSays(s: State, code: string, about: Option<string>, c: string)
    ensures Says(s, Diagnose(s, code, about), c, [])
  {
    hide Responses, Broadcast, SendTo;
    var e := Diagnostic(code, about, s.sequence + 1);
    if about.Some? {
      SendSays(Tick(s), about.value, e, c);
    } else {
      BroadcastSays(Tick(s), e, c);
    }
  }

  lemma DeliverSays(s: State, d: string, p: Payload, c: string)
    ensures Says(s, Deliver(s, d, p), c, if d == c && d in s.tables.frontends && p.Response? then [p] else [])
  {
    hide Responses, SendTo;
    if d in s.tables.frontends {
      SendSays(Tick(s), d, Envelope(d, s.tables.frontends[d], s.sequence + 1, p), c);
    } else {
      SaysNothing(s, s, c);
    }
  }

  lemma RejectSays(s: State, d: string, id: Option<JsonId>, code: int, c: string)
    ensures Says(s, Reject(s, d, id, code), c,
                 if d == c && d in s.tables.frontends && id.Some? then [ErrorResponse(id.value, code)] else [])
  {
    hide Says, Deliver, Diagnose;
    if id.Some? {
      DeliverSays(s, d, ErrorResponse(id.value, code), c);
    }
    DiagnoseSays(s, "frontend-message-rejected", Some(d), c);
  }

  lemma {:induction false} FanoutSays(s: State, order: seq<string>, p: Payload, c: string)
    requires !p.Response?
    ensures Says(s, Fanout(s, order, p), c, [])
  {
    hide Says, Deliver;
    if order == [] {
      SaysNothing(s, s, c);
    } else {
      var before := Fanout(s, order[..|order| - 1], p);
      FanoutSays(s, order[..|order| - 1], p, c);
      DeliverSays(before, order[|order| - 1], p, c);
      SaysBoth(s, before, Fanout(s, order, p), c, [], []);
    }
  }

  lemma {:induction false} FailRequestsSays(s: State, lost: map<string, FrontendRequest>, order: seq<string>, c: string)
    requires c in s.tables.frontends
    ensures Says(s, FailRequests(s, lost, order), c, LostTo(lost, order, c))
  {
    hide Says, Deliver;
    if order == [] {
      SaysNothing(s, s, c);
    } else {
      var before, u := FailRequests(s, lost, order[..|order| - 1]), order[|order| - 1];
      FailRequestsSays(s, lost, order[..|order| - 1], c);
      var prior := LostTo(lost, order[..|order| - 1], c);
      if u in lost {
        var reply := ErrorResponse(lost[u].frontendId, -32002);
        DeliverSays(before, lost[u].connectionId, reply, c);
        SaysBoth(s, before, Deliver(before, lost[u].connectionId, reply), c, prior,
                 if lost[u].connectionId == c then [reply] else []);
      }
      assert prior + [] == prior;
    }
  }

  lemma {:induction false} NobodyLost(s: State, lost: map<string, FrontendRequest>, order: seq<string>, c: string)
    requires c !in s.tables.frontends
    ensures Log(FailRequests(s, lost, order), c) == Log(s, c)
  {
    if order != [] {
      NobodyLost(s, lost, order[..|order| - 1], c);
    }
  }

  // ----- the operations -------------------------------------------------------------------------

  lemma GreetSays(s: State, link: Link, d: string, role: Role, c: string)
    ensures Says(s, Greet(s, link, d, role), c, [])
  {
    hide Says, SendTo, BroadcastController;
    var s1 := SendTo(Tick(s), d, Opened(d, role, s.sequence + 1));
    var phase := if s1.tables.ready then Ready else if link.reachable then Connected else Disconnected;
    var s2 := SendTo(Tick(s1), d, Provider(phase, s1.tables.generation, s1.sequence + 1));
    SaysNothing(s, Tick(s), c);
    SendSays(Tick(s), d, Opened(d, role, s.sequence + 1), c);
    SaysNothing(s1, Tick(s1), c);
    SendSays(Tick(s1), d, Provider(phase, s1.tables.generation, s1.sequence + 1), c);
    AnnounceSays(s2, phase, c);
    SaysBoth(s, Tick(s), s1, c, [], []);
    SaysBoth(s, s1, Tick(s1), c, [], []);
    SaysBoth(s, Tick(s1), s2, c, [], []);
    SaysBoth(s, s2, BroadcastController(s2), c, [], []);
  }

  lemma RegisterSays(s: State, link: Link, c: string)
    requires c == ConnectionName(s.tables.nextConnection) ==> Log(s, c) == []
    ensures Says(s, Register(s, link), c, [])
  {
    hide Says, Greet, ConnectionName;
    SaysNothing(s, s, c);
    if |s.tables.frontends| < s.tables.options.maximumFrontends {
      var d := ConnectionName(s.tables.nextConnection);
      var s0 := s.(tables := Enroll(s.tables), down := s.down[d := []]);
      SaysNothing(s, s0, c);
      GreetSays(s0, link, d, s0.tables.frontends[d], c);
      SaysBoth(s, s0, Register(s, link), c, [], []);
    }
  }

  lemma UnregisterSays(s: State, link: Link, d: string, order: seq<string>, c: string)
    ensures Says(s, Unregister(s, link, d, order), c, [])
  {
    hide Says, BroadcastController, DropRequests, Withdraw;
    FailServerRequestsTables(s, link, order);
    var s1 := FailServerRequests(s, link, order);
    var s2 := s1.(tables := Withdraw(DropRequests(s1.tables, d), d));
    SaysNothing(s, s, c);
    SaysNothing(s, s2, c);
    AnnounceSays(s2, Ready, c);
    SaysBoth(s, s2, BroadcastController(s2), c, [], []);
  }

  lemma CommandSays(s: State, d: string, action: Action, c: string)
    ensures Says(s, HandleCommand(s, d, action), c, [])
  {
    hide Says, BroadcastController, Diagnose, Appoint;
    forall target: Option<string>
      ensures Says(s, SetController(s, target), c, [])
    {
      var s1 := s.(tables := Appoint(s.tables, target));
      SaysNothing(s, s1, c);
      AnnounceSays(s1, Ready, c);
      SaysBoth(s, s1, SetController(s, target), c, [], []);
    }
    hide SetController;
    forall code
      ensures Says(s, Diagnose(s, code, Some(d)), c, [])
    {
      DiagnoseSays(s, code, Some(d), c);
    }
  }

  /** A rejection from a state whose logs are those of `s`. */
  lemma RejectSaysFrom(s: State, t: State, d: string, id: Option<JsonId>, code: int, c: string)
    requires t.down == s.down && t.tables.frontends == s.tables.frontends
    ensures Says(s, Reject(t, d, id, code), c,
                 if d == c && d in s.tables.frontends && id.Some? then [ErrorResponse(id.value, code)] else [])
  {
    hide Says, Reject;
    RejectSays(t, d, id, code, c);
    SaysNothing(s, t, c);
    SaysBoth(s, t, Reject(t, d, id, code), c, [],
             if d == c && d in s.tables.frontends && id.Some? then [ErrorResponse(id.value, code)] else []);
  }

  lemma AppServerMessageSays(s: State, link: Link, d: string, payload: Option<Payload>, c: string)
    requires d in s.tables.frontends
    ensures Says(s, HandleAppServerMessage(s, link, d, payload), c,
                 if d == c then Optional(Rejection(s, link, d, AppServerMessage(payload))) else [])
  {
    hide Says, Reject, IdKey, FrontendKey, RemoteId, RemoteNumber, StringKey, Refusal, Takes;
    forall t: State, id, code | t.down == s.down && t.tables.frontends == s.tables.frontends
      ensures Says(s, Reject(t, d, id, code), c, if d == c && id.Some? then [ErrorResponse(id.value, code)] else [])
    {
      RejectSaysFrom(s, t, d, id, code, c);
    }
    forall t: State | t.down == s.down
      ensures Says(s, t, c, [])
    {
      SaysNothing(s, t, c);
    }
  }

  lemma FromFrontendSays(s: State, link: Link, d: string, m: FrontendMessage, c: string)
    ensures Says(s, ReceiveFromFrontend(s, link, d, m), c,
                 if d == c then Optional(Rejection(s, link, d, m)) else [])
  {
    hide Says, HandleAppServerMessage, HandleCommand, Reject, ClassifyStrict;
    if d in s.tables.frontends {
      match m
      case AppServerMessage(payload) => AppServerMessageSays(s, link, d, payload, c);
      case Command(action) => CommandSays(s, d, action, c);
      case Unsupported => RejectSays(s, d, None, -32600, c);
    } else {
      SaysNothing(s, s, c);
    }
  }

  lemma CompleteHandshakeSays(s: State, link: Link, outcome: Outcome, c: string)
    ensures Says(s, CompleteHandshake(s, link, outcome), c, [])
  {
    hide Says, BroadcastProvider, Diagnose;
    var sent := Transmit(s, link, InitializedNotification, FromLocal);
    var ready := sent.(tables := sent.tables.(ready := true));
    SaysNothing(s, s, c);
    SaysNothing(s, sent, c);
    SaysNothing(s, ready, c);
    AnnounceSays(ready, Ready, c);
    var announced := BroadcastProvider(ready, Ready);
    DiagnoseSays(announced, "appserver-ready", None, c);
    SaysBoth(s, ready, announced, c, [], []);
    SaysBoth(s, announced, Diagnose(announced, "appserver-ready", None), c, [], []);
  }

  lemma RouteResponseSays(s: State, link: Link, key: string, p: Payload, c: string)
    requires p.Response? && IdKey(p.id) == Some(key) && OwnersAreFrontends(s.tables)
    ensures Says(s, RouteResponse(s, link, key, p), c, Optional(OwnersCopy(s.tables, p, c)))
  {
    hide Says, IdKey, Deliver, Diagnose, CompleteHandshake;
    var t := s.tables;
    if key in t.localRequests {
      var s1 := s.(tables := t.(localRequests := t.localRequests - {key}));
      SaysNothing(s, s1, c);
      CompleteHandshakeSays(s1, link, p.outcome, c);
      SaysBoth(s, s1, CompleteHandshake(s1, link, p.outcome), c, [], []);
    } else if key in t.requestOwners {
      var r, s1 := t.requestOwners[key], s.(tables := Settle(t, key));
      var reply := Response(r.frontendId, p.outcome, p.strict);
      SaysNothing(s, s1, c);
      DeliverSays(s1, r.connectionId, reply, c);
      SaysBoth(s, s1, Deliver(s1, r.connectionId, reply), c, [], Optional(OwnersCopy(t, p, c)));
    } else {
      DiagnoseSays(s, "unmatched-appserver-response", None, c);
    }
  }

  ghost predicate OwnersAreFrontends(t: Tables) {
    forall u :: u in t.requestOwners ==> t.requestOwners[u].connectionId in t.frontends
  }

  lemma RouteServerRequestSays(s: State, link: Link, key: string, p: Payload, throws: bool, c: string)
    requires p.Request?
    ensures Says(s, RouteServerRequest(s, link, key, p, throws), c, [])
  {
    hide Says, Deliver, Diagnose, Takes;
    var t := s.tables;
    if key in t.serverOwners {
      var sent := Transmit(s, link, ErrorResponse(p.id, -32600), FromBridge);
      SaysNothing(s, sent, c);
      DiagnoseSays(sent, "duplicate-appserver-request-id", None, c);
      SaysBoth(s, sent, Diagnose(sent, "duplicate-appserver-request-id", None), c, [], []);
    } else if p.verb in t.localMethods {
      SaysNothing(s, RouteServerRequest(s, link, key, p, throws), c);
    } else if t.controller.Some? && t.controller.value in t.frontends {
      var s1 := s.(tables := t.(serverOwners := t.serverOwners[key := Frontend(t.controller.value, p.id)]));
      SaysNothing(s, s1, c);
      DeliverSays(s1, t.controller.value, p, c);
      SaysBoth(s, s1, Deliver(s1, t.controller.value, p), c, [], []);
    } else {
      var sent := Transmit(s, link, ErrorResponse(p.id, -32010), FromBridge);
      SaysNothing(s, sent, c);
      DiagnoseSays(sent, "appserver-request-without-handler", None, c);
      SaysBoth(s, sent, Diagnose(sent, "appserver-request-without-handler", None), c, [], []);
    }
  }

  lemma FromAppServerSays(s: State, link: Link, p: Payload, throws: bool, order: seq<string>, c: string)
    requires OwnersAreFrontends(s.tables)
    ensures Says(s, ReceiveFromAppServer(s, link, p, throws, order), c, Optional(OwnersCopy(s.tables, p, c)))
  {
    hide Says, IdKey, Diagnose, Fanout, RouteResponse, RouteServerRequest, OwnersAreFrontends;
    if p.Response? && IdKey(p.id).Some? {
      RouteResponseSays(s, link, IdKey(p.id).value, p, c);
    } else if p.Request? && IdKey(p.id).Some? {
      RouteServerRequestSays(s, link, IdKey(p.id).value, p, throws, c);
    } else if p.Notification? {
      var key := ResolvedKey(p);
      var s1 := if key.Some? then s.(tables := Strike(s.tables, key.value)) else s;
      SaysNothing(s, s1, c);
      FanoutSays(s1, order, p, c);
      SaysBoth(s, s1, Fanout(s1, order, p), c, [], []);
    } else {
      DiagnoseSays(s, "invalid-appserver-message", None, c);
    }
  }

  lemma ConnectedSays(s: State, link: Link, c: string)
    ensures Says(s, AppServerConnected(s, link), c, [])
  {
    hide Says, BroadcastProvider, Diagnose, LocalId, FileLocally, LocalNumber;
    var s1 := s.(tables := s.tables.(ready := false, generation := s.tables.generation + 1));
    var s2 := BroadcastProvider(s1, Connected);
    var s3 := Diagnose(s2, "appserver-connected", None);
    SaysNothing(s, s1, c);
    AnnounceSays(s1, Connected, c);
    DiagnoseSays(s2, "appserver-connected", None, c);
    SaysNothing(s3, AppServerConnected(s, link), c);
    SaysBoth(s, s1, s2, c, [], []);
    SaysBoth(s, s2, s3, c, [], []);
    SaysBoth(s, s3, AppServerConnected(s, link), c, [], []);
  }

  lemma DisconnectedSays(s: State, order: seq<string>, c: string)
    ensures Says(s, AppServerDisconnected(s, order), c,
                 if c in s.tables.frontends then LostTo(s.tables.requestOwners, order, c) else [])
  {
    hide Says, BroadcastProvider, Diagnose, FailRequests, LostTo;
    var s0 := s.(tables := Forget(s.tables));
    var s1 := FailRequests(s0, s.tables.requestOwners, order);
    var s2 := BroadcastProvider(s1, Disconnected);
    var more := if c in s.tables.frontends then LostTo(s.tables.requestOwners, order, c) else [];
    SaysNothing(s, s0, c);
    if c in s.tables.frontends {
      FailRequestsSays(s0, s.tables.requestOwners, order, c);
    } else {
      NobodyLost(s0, s.tables.requestOwners, order, c);
      SaysNothing(s0, s1, c);
    }
    AnnounceSays(s1, Disconnected, c);
    DiagnoseSays(s2, "appserver-disconnected", None, c);
    SaysBoth(s, s0, s1, c, [], more);
    SaysBoth(s, s1, s2, c, more, []);
    SaysBoth(s, s2, AppServerDisconnected(s, order), c, more, []);
  }

  /** The responses each connection is sent in a step, exactly: an error its own message draws, the app-server's
      response to a request of its own, or an error for each of its requests when the app-server is lost. A
      connection that registers starts with an empty log. */
  lemma StepSays(s: State, link: Link, input: Input, c: string)
    requires OwnersAreFrontends(s.tables)
    requires c == ConnectionName(s.tables.nextConnection) ==> Log(s, c) == []
    ensures Says(s, Step(s, link, input), c, StepAnswers(s, link, input, c))
  {
    hide Says, Register, Unregister, ReceiveFromFrontend, ReceiveFromAppServer, AppServerConnected,
      AppServerDisconnected, Rejection, LostTo, LocalId, LocalNumber, FileLocally, IdKey, ConnectionName, Takes;
    match input
    case DoRegister => RegisterSays(s, link, c);
    case DoUnregister(d, order) => UnregisterSays(s, link, d, order, c);
    case DoReceiveFromFrontend(d, m) =>
      FromFrontendSays(s, link, d, m, c);
      NoRejection(s, link, d, m);
    case DoReceiveFromAppServer(p, throws, order) => FromAppServerSays(s, link, p, throws, order, c);
    case DoConnected => ConnectedSays(s, link, c);
    case DoDisconnected(order) => DisconnectedSays(s, order, c);
    case DoRequestLocally(_, _) => SaysNothing(s, Step(s, link, input), c);
    case DoSendRaw(_) => SaysNothing(s, Step(s, link, input), c);
    case DoSetLocalHandler(_, _) => SaysNothing(s, Step(s, link, input), c);
  }

  lemma NoRejection(s: State, link: Link, c: string, m: FrontendMessage)
    ensures c !in s.tables.frontends ==> Rejection(s, link, c, m).None?
  {
  }
}
