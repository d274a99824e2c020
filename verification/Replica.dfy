/** The events the bridge sends determine its state: a frontend that folds them holds an exact replica. */
module Replica {
  import opened Wrappers
  import opened JsonRpc
  import opened BridgeState
  import opened BridgeInvariant
  import opened ProxyState

  function Fold(v: View, events: seq<Event>): View {
    if events == [] then v else Observe(Fold(v, events[..|events| - 1]), events[|events| - 1])
  }

  /** What the bridge wants one frontend to believe. */
  function ViewOf(t: Tables, c: string): View
    requires c in t.frontends
  {
    View(Some(c), t.controller, Some(t.frontends[c]), t.generation, t.ready)
  }

  /** No provider event of the log is older than what its reader has already seen. */
  ghost predicate NeverStale(log: seq<Event>) {
    log == [] ||
    var before, last := log[..|log| - 1], log[|log| - 1];
    NeverStale(before) && (last.Provider? ==> Fold(Detached, before).generation <= last.generation)
  }

  /** The reader of the whole log ends up with the view `v`, without ever meeting a stale event. */
  ghost predicate Tells(log: seq<Event>, v: View) {
    NeverStale(log) && Fold(Detached, log) == v
  }

  /** Every registered frontend has been told exactly the bridge's state. */
  ghost predicate ReplicasExact(s: State) {
    forall c :: c in s.tables.frontends ==> Tells(Log(s, c), ViewOf(s.tables, c))
  }

  lemma TellMore(log: seq<Event>, v: View, e: Event)
    requires Tells(log, v) && (e.Provider? ==> v.generation <= e.generation)
    ensures Tells(log + [e], Observe(v, e))
  {
    assert (log + [e])[..|log|] == log;
  }

  // ----- announcing a change --------------------------------------------------------------------

  ghost predicate ToldBefore(s: State, before: Tables) {
    forall c :: c in s.tables.frontends ==> c in before.frontends && Tells(Log(s, c), ViewOf(before, c))
  }

  /** After a change of control, one broadcast brings every replica up to date. */
  lemma AnnounceController(s: State, before: Tables)
    requires RolesAgree(s.tables) && ToldBefore(s, before)
    requires before.generation == s.tables.generation && before.ready == s.tables.ready
    ensures ReplicasExact(BroadcastController(s))
  {
    hide Tells, IsConnectionName;
    var e := ControllerIs(s.tables.controller, s.sequence + 1);
    forall c | c in s.tables.frontends ensures Tells(Log(BroadcastController(s), c), ViewOf(s.tables, c)) {
      TellMore(Log(s, c), ViewOf(before, c), e);
    }
  }

  /** After a change of the provider, one broadcast brings every replica up to date. */
  lemma AnnounceProvider(s: State, before: Tables, phase: ProviderPhase)
    requires ToldBefore(s, before) && (phase.Ready? <==> s.tables.ready)
    requires before.controller == s.tables.controller && before.frontends == s.tables.frontends
    requires before.generation <= s.tables.generation
    ensures ReplicasExact(BroadcastProvider(s, phase))
  {
    hide Tells;
    var e := Provider(phase, s.tables.generation, s.sequence + 1);
    forall c | c in s.tables.frontends ensures Tells(Log(BroadcastProvider(s, phase), c), ViewOf(s.tables, c)) {
      TellMore(Log(s, c), ViewOf(before, c), e);
    }
  }

  // ----- everything else says nothing -----------------------------------------------------------

  lemma SendNeutral(s: State, c: string, e: Event)
    requires ReplicasExact(s) && (e.Diagnostic? || e.Envelope?)
    ensures ReplicasExact(SendTo(s, c, e))
  {
    hide Tells;
    if c in s.tables.frontends {
      TellMore(Log(s, c), ViewOf(s.tables, c), e);
    }
  }

  lemma DiagnoseNeutral(s: State, code: string, about: Option<string>)
    requires ReplicasExact(s)
    ensures ReplicasExact(Diagnose(s, code, about))
  {
    hide Tells;
    var e := Diagnostic(code, about, s.sequence + 1);
    forall c | c in s.tables.frontends ensures Tells(Log(Diagnose(s, code, about), c), ViewOf(s.tables, c)) {
      TellMore(Log(s, c), ViewOf(s.tables, c), e);
    }
  }

  /** Tables that differ only where no event reports them, and logs that do not differ. */
  lemma Unobserved(s: State, t: State)
    requires ReplicasExact(s) && t.down == s.down
    requires t.tables.frontends == s.tables.frontends && t.tables.controller == s.tables.controller
    requires t.tables.generation == s.tables.generation && t.tables.ready == s.tables.ready
    ensures ReplicasExact(t)
  {
    hide Tells;
    forall c | c in t.tables.frontends ensures Tells(Log(t, c), ViewOf(t.tables, c)) {
      assert Tells(Log(s, c), ViewOf(s.tables, c));
    }
  }

  lemma DeliverNeutral(s: State, c: string, p: Payload)
    requires ReplicasExact(s)
    ensures ReplicasExact(Deliver(s, c, p))
  {
    hide ReplicasExact, SendTo;
    Unobserved(s, Tick(s));
    if c in s.tables.frontends {
      SendNeutral(Tick(s), c, Envelope(c, s.tables.frontends[c], s.sequence + 1, p));
    }
  }

  lemma RejectNeutral(s: State, c: string, id: Option<JsonId>, code: int)
    requires ReplicasExact(s)
    ensures ReplicasExact(Reject(s, c, id, code))
  {
    hide ReplicasExact, Deliver, Diagnose;
    if id.Some? {
      DeliverNeutral(s, c, ErrorResponse(id.value, code));
    }
    DiagnoseNeutral(s, "frontend-message-rejected", Some(c));
  }

  lemma {:induction false} FanoutNeutral(s: State, order: seq<string>, p: Payload)
    requires ReplicasExact(s)
    ensures ReplicasExact(Fanout(s, order, p))
  {
    hide ReplicasExact, Deliver;
    if order != [] {
      FanoutNeutral(s, order[..|order| - 1], p);
      DeliverNeutral(Fanout(s, order[..|order| - 1], p), order[|order| - 1], p);
    }
  }

  lemma {:induction false} FailRequestsToldBefore(s: State, before: Tables, lost: map<string, FrontendRequest>,
                                                  order: seq<string>)
    requires ToldBefore(s, before)
    ensures ToldBefore(FailRequests(s, lost, order), before)
  {
    if order != [] {
      var prior := order[..|order| - 1];
      FailRequestsToldBefore(s, before, lost, prior);
      var s1 := FailRequests(s, lost, prior);
      var key := order[|order| - 1];
      if key in lost && lost[key].connectionId in s1.tables.frontends {
        var c := lost[key].connectionId;
        TellMore(Log(s1, c), ViewOf(before, c),
                 Envelope(c, s1.tables.frontends[c], s1.sequence + 1, ErrorResponse(lost[key].frontendId, -32002)));
      }
    }
  }

  // ----- each step ------------------------------------------------------------------------------

  lemma RegisterExact(s: State, link: Link)
    requires Inv(s) && ReplicasExact(s)
    ensures ReplicasExact(Register(s, link))
  {
    if |s.tables.frontends| < s.tables.options.maximumFrontends {
      EnrollConsistent(s.tables);
      ConnectionNameIsNew(s.tables.nextConnection);
      hide TablesInverse, KeysFresh, OwnersRegistered;
      var c := ConnectionName(s.tables.nextConnection);
      var t := Enroll(s.tables);
      var s0 := s.(tables := t, down := s.down[c := []]);
      GreetExact(s0, s.tables, link, c);
    }
  }

  /** The three greeting events alone already tell a newcomer everything. */
  lemma GreetingTells(c: string, role: Role, phase: ProviderPhase, generation: nat, controller: Option<string>, n: nat)
    ensures Tells([] + [Opened(c, role, n)] + [Provider(phase, generation, n + 1)] + [ControllerIs(controller, n + 2)],
                  View(Some(c), controller, Some(if controller == Some(c) then Controller else Observer),
                       generation, phase.Ready?))
  {
    TellMore([], Detached, Opened(c, role, n));
    var v1 := View(Some(c), None, Some(role), 0, false);
    TellMore([] + [Opened(c, role, n)], v1, Provider(phase, generation, n + 1));
    var v2 := View(Some(c), None, Some(role), generation, phase.Ready?);
    TellMore([] + [Opened(c, role, n)] + [Provider(phase, generation, n + 1)], v2, ControllerIs(controller, n + 2));
  }

  lemma GreetLog(s: State, link: Link, c: string, role: Role)
    requires c in s.tables.frontends && Log(s, c) == []
    ensures var phase := if s.tables.ready then Ready else if link.reachable then Connected else Disconnected;
      var n := s.sequence + 1; var final := Greet(s, link, c, role);
      && final.tables == s.tables
      && Log(final, c) == [] + [Opened(c, role, n)] + [Provider(phase, s.tables.generation, n + 1)]
                          + [ControllerIs(s.tables.controller, n + 2)]
      && forall d :: d in s.tables.frontends && d != c ==>
           Log(final, d) == Log(s, d) + [ControllerIs(s.tables.controller, n + 2)]
  {
    hide SendTo, Broadcast, Log;
    var s1 := SendTo(Tick(s), c, Opened(c, role, s.sequence + 1));
    var phase := if s1.tables.ready then Ready else if link.reachable then Connected else Disconnected;
    var provider := Provider(phase, s1.tables.generation, s1.sequence + 1);
    TickLogs(s);
    SendLogs(Tick(s), c, Opened(c, role, s.sequence + 1));
    TickLogs(s1);
    SendLogs(Tick(s1), c, provider);
    var s2 := SendTo(Tick(s1), c, provider);
    TickLogs(s2);
    BroadcastLogs(Tick(s2), ControllerIs(s2.tables.controller, s2.sequence + 1));
  }

  lemma TickLogs(s: State)
    ensures forall d :: Log(Tick(s), d) == Log(s, d)
  {
  }

  lemma SendLogs(s: State, c: string, e: Event)
    requires c in s.tables.frontends
    ensures var t := SendTo(s, c, e);
      && t.sequence == s.sequence && Log(t, c) == Log(s, c) + [e]
      && forall d :: d != c ==> Log(t, d) == Log(s, d)
  {
  }

  lemma BroadcastLogs(s: State, e: Event)
    ensures var t := Broadcast(s, e); forall d :: d in s.tables.frontends ==> Log(t, d) == Log(s, d) + [e]
  {
  }

  lemma GreetExact(s: State, before: Tables, link: Link, c: string)
    requires RolesAgree(s.tables) && c in s.tables.frontends && Log(s, c) == []
    requires before.generation == s.tables.generation && before.ready == s.tables.ready
    requires forall d :: d in s.tables.frontends && d != c ==>
               d in before.frontends && Tells(Log(s, d), ViewOf(before, d))
    ensures ReplicasExact(Greet(s, link, c, s.tables.frontends[c]))
  {
    hide Greet, Tells;
    var role := s.tables.frontends[c];
    GreetLog(s, link, c, role);
    var phase := if s.tables.ready then Ready else if link.reachable then Connected else Disconnected;
    GreetingTells(c, role, phase, s.tables.generation, s.tables.controller, s.sequence + 1);
    forall d | d in s.tables.frontends && d != c ensures Tells(Log(Greet(s, link, c, role), d), ViewOf(s.tables, d)) {
      TellMore(Log(s, d), ViewOf(before, d), ControllerIs(s.tables.controller, s.sequence + 3));
    }
  }

  lemma UnregisterExact(s: State, link: Link, c: string, order: seq<string>)
    requires Inv(s) && Enabled(s, DoUnregister(c, order)) && ReplicasExact(s)
    ensures ReplicasExact(Unregister(s, link, c, order))
  {
    hide TablesInverse, KeysFresh, OwnersRegistered, Tells, BroadcastController, DropRequests, FailServerRequests,
      IsConnectionName;
    if c in s.tables.frontends {
      StepInv(s, link, DoUnregister(c, order));
      FailServerRequestsTables(s, link, order);
      var s1 := FailServerRequests(s, link, order);
      var s2 := s1.(tables := Withdraw(DropRequests(s1.tables, c), c));
      DroppedTables(s1.tables, c);
      if s.tables.controller == Some(c) {
        AnnounceController(s2, s.tables);
      }
    }
  }

  lemma DroppedTables(t: Tables, c: string)
    ensures var u := DropRequests(t, c);
      u.frontends == t.frontends && u.controller == t.controller && u.generation == t.generation && u.ready == t.ready
  {
  }

  lemma SetControllerExact(s: State, c: Option<string>)
    requires Inv(s) && ReplicasExact(s) && (c.Some? ==> c.value in s.tables.frontends)
    ensures ReplicasExact(SetController(s, c))
  {
    hide TablesInverse, KeysFresh, OwnersRegistered;
    AppointConsistent(s.tables, c);
    AnnounceController(s.(tables := Appoint(s.tables, c)), s.tables);
  }

  lemma CommandExact(s: State, c: string, action: Action)
    requires Inv(s) && ReplicasExact(s) && c in s.tables.frontends
    ensures ReplicasExact(HandleCommand(s, c, action))
  {
    hide Consistent, SetController, ReplicasExact, Diagnose;
    SetControllerExact(s, None);
    SetControllerExact(s, Some(c));
    if action.Transfer? && action.target in s.tables.frontends {
      SetControllerExact(s, Some(action.target));
    }
    DiagnoseNeutral(s, "controller-claim-rejected", Some(c));
    DiagnoseNeutral(s, "controller-release-rejected", Some(c));
    DiagnoseNeutral(s, "controller-transfer-rejected", Some(c));
    DiagnoseNeutral(s, "controller-command-invalid", Some(c));
  }

  lemma AppServerMessageExact(s: State, link: Link, c: string, payload: Option<Payload>)
    requires ReplicasExact(s)
    ensures ReplicasExact(HandleAppServerMessage(s, link, c, payload))
  {
    hide ReplicasExact, Reject, IdKey, FrontendKey, RemoteId, RemoteNumber, StringKey, MayForward;
    forall t: State, id, code | ReplicasExact(t) ensures ReplicasExact(Reject(t, c, id, code)) {
      RejectNeutral(t, c, id, code);
    }
    if payload.Some? && !payload.value.Invalid? {
      var p := payload.value;
      var sent := Transmit(s, link, p, FromFrontend(c));
      Unobserved(s, sent);
      if p.Response? && IdKey(p.id).Some? {
        Unobserved(s, sent.(tables := Strike(s.tables, IdKey(p.id).value)));
      } else if p.Request? && IdKey(p.id).Some? {
        var sent := Transmit(s, link, Request(Str(RemoteId(s.tables, c)), p.verb, p.body, p.strict), FromFrontend(c));
        Unobserved(s, sent.(tables := FileRequest(s.tables, c, p.id)));
        Unobserved(s, sent.(tables := s.tables.(nextFrontend := RemoteNumber(s.tables, c) + 1)));
      }
    }
  }

  lemma FromFrontendExact(s: State, link: Link, c: string, m: FrontendMessage)
    requires Inv(s) && ReplicasExact(s)
    ensures ReplicasExact(ReceiveFromFrontend(s, link, c, m))
  {
    hide Consistent, ReplicasExact, HandleAppServerMessage, HandleCommand, Reject;
    if c in s.tables.frontends {
      match m
      case AppServerMessage(payload) => AppServerMessageExact(s, link, c, payload);
      case Command(action) => CommandExact(s, c, action);
      case Unsupported => RejectNeutral(s, c, None, -32600);
    }
  }

  lemma CompleteHandshakeExact(s: State, link: Link, outcome: Outcome)
    requires ReplicasExact(s)
    ensures ReplicasExact(CompleteHandshake(s, link, outcome))
  {
    hide Tells, BroadcastProvider, Diagnose;
    var sent := Transmit(s, link, InitializedNotification, FromLocal);
    Unobserved(s, sent);
    if link.reachable && !s.tables.ready {
      var ready := sent.(tables := sent.tables.(ready := true));
      AnnounceProvider(ready, s.tables, Ready);
      DiagnoseNeutral(BroadcastProvider(ready, Ready), "appserver-ready", None);
    }
  }

  lemma RouteResponseExact(s: State, link: Link, key: string, p: Payload)
    requires ReplicasExact(s) && p.Response?
    ensures ReplicasExact(RouteResponse(s, link, key, p))
  {
    hide ReplicasExact, Diagnose, Deliver, CompleteHandshake;
    var t := s.tables;
    if key in t.localRequests {
      var s1 := s.(tables := t.(localRequests := t.localRequests - {key}));
      Unobserved(s, s1);
      CompleteHandshakeExact(s1, link, p.outcome);
    } else if key in t.requestOwners {
      var r := t.requestOwners[key];
      var s1 := s.(tables := Settle(t, key));
      Unobserved(s, s1);
      DeliverNeutral(s1, r.connectionId, Response(r.frontendId, p.outcome, p.strict));
    }
    DiagnoseNeutral(s, "unmatched-appserver-response", None);
  }

  lemma RouteServerRequestExact(s: State, link: Link, key: string, p: Payload, throws: bool)
    requires ReplicasExact(s) && p.Request?
    ensures ReplicasExact(RouteServerRequest(s, link, key, p, throws))
  {
    hide ReplicasExact, Diagnose, Deliver, Takes;
    var t := s.tables;
    if key in t.serverOwners {
      var sent := Transmit(s, link, ErrorResponse(p.id, -32600), FromBridge);
      Unobserved(s, sent);
      DiagnoseNeutral(sent, "duplicate-appserver-request-id", None);
    } else if p.verb in t.localMethods {
      Unobserved(s, RouteServerRequest(s, link, key, p, throws));
    } else if t.controller.Some? && t.controller.value in t.frontends {
      var s1 := s.(tables := t.(serverOwners := t.serverOwners[key := Frontend(t.controller.value, p.id)]));
      Unobserved(s, s1);
      DeliverNeutral(s1, t.controller.value, p);
    } else {
      var sent := Transmit(s, link, ErrorResponse(p.id, -32010), FromBridge);
      Unobserved(s, sent);
      DiagnoseNeutral(sent, "appserver-request-without-handler", None);
    }
  }

  lemma FromAppServerExact(s: State, link: Link, p: Payload, throws: bool, order: seq<string>)
    requires ReplicasExact(s)
    ensures ReplicasExact(ReceiveFromAppServer(s, link, p, throws, order))
  {
    hide ReplicasExact, IdKey, Diagnose, Fanout, RouteResponse, RouteServerRequest;
    if p.Response? && IdKey(p.id).Some? {
      RouteResponseExact(s, link, IdKey(p.id).value, p);
    } else if p.Request? && IdKey(p.id).Some? {
      RouteServerRequestExact(s, link, IdKey(p.id).value, p, throws);
    } else if p.Notification? {
      var key := ResolvedKey(p);
      var s1 := if key.Some? then s.(tables := Strike(s.tables, key.value)) else s;
      Unobserved(s, s1);
      FanoutNeutral(s1, order, p);
    } else {
      DiagnoseNeutral(s, "invalid-appserver-message", None);
    }
  }

  lemma RequestLocallyExact(s: State, link: Link, verb: string, body: string, handler: Handler)
    requires ReplicasExact(s)
    ensures ReplicasExact(RequestLocally(s, link, verb, body, handler))
  {
    hide ReplicasExact, LocalNumber, LocalId;
    Unobserved(s, RequestLocally(s, link, verb, body, handler));
  }

  lemma ConnectedExact(s: State, link: Link)
    requires ReplicasExact(s)
    ensures ReplicasExact(AppServerConnected(s, link))
  {
    hide Tells, RequestLocally, Diagnose, BroadcastProvider;
    var s1 := s.(tables := s.tables.(ready := false, generation := s.tables.generation + 1));
    AnnounceProvider(s1, s.tables, Connected);
    DiagnoseNeutral(BroadcastProvider(s1, Connected), "appserver-connected", None);
    RequestLocallyExact(Diagnose(BroadcastProvider(s1, Connected), "appserver-connected", None),
                        link, "initialize", "clientInfo", InitializeHandler);
  }

  lemma DisconnectedExact(s: State, order: seq<string>)
    requires ReplicasExact(s)
    ensures ReplicasExact(AppServerDisconnected(s, order))
  {
    var s0 := s.(tables := Forget(s.tables));
    FailRequestsToldBefore(s0, s.tables, s.tables.requestOwners, order);
    var s1 := FailRequests(s0, s.tables.requestOwners, order);
    AnnounceProvider(s1, s.tables, Disconnected);
    DiagnoseNeutral(BroadcastProvider(s1, Disconnected), "appserver-disconnected", None);
  }

  /** Replica refinement: after every step, folding the events sent to a registered frontend yields exactly
      the bridge's controller, that frontend's role, the provider generation and its readiness, and the
      reader never takes the branch for events of an older generation. */
  lemma StepExact(s: State, link: Link, input: Input)
    requires Inv(s) && Enabled(s, input) && ReplicasExact(s)
    ensures ReplicasExact(Step(s, link, input))
  {
    hide Consistent, ReplicasExact, Register, Unregister, ReceiveFromFrontend, ReceiveFromAppServer, AppServerConnected,
      AppServerDisconnected, LocalId, LocalNumber, IdKey;
    match input
    case DoRegister => RegisterExact(s, link);
    case DoUnregister(c, order) => UnregisterExact(s, link, c, order);
    case DoReceiveFromFrontend(c, m) => FromFrontendExact(s, link, c, m);
    case DoReceiveFromAppServer(p, throws, order) => FromAppServerExact(s, link, p, throws, order);
    case DoConnected => ConnectedExact(s, link);
    case DoDisconnected(order) => DisconnectedExact(s, order);
    case DoRequestLocally(verb, body) => RequestLocallyExact(s, link, verb, body, UserHandler);
    case DoSendRaw(p) => Unobserved(s, Step(s, link, input));
    case DoSetLocalHandler(verb, present) => Unobserved(s, Step(s, link, input));
  }
}
