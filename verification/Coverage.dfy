/** No request is dropped by the bridge: what it awaits for a frontend it goes on awaiting, until the
    frontend's log holds the answer. */
module Coverage {
  import opened Wrappers
  import opened JsonRpc
  import opened BridgeState
  import opened BridgeInvariant

  /** The bridge has an outstanding request of connection `c` with the frontend's own id key `k`. */
  ghost predicate Awaits(s: State, c: string, k: string) {
    FrontendKey(c, k) in s.tables.requestKeys
  }

  ghost predicate IsAnswer(e: Event, k: string) {
    e.Envelope? && e.payload.Response? && IdKey(e.payload.id) == Some(k)
  }

  ghost predicate AnsweredSince(s: State, t: State, c: string, k: string) {
    exists i :: |Log(s, c)| <= i < |Log(t, c)| && IsAnswer(Log(t, c)[i], k)
  }

  /** Between `s` and `t` the log of `c` only grew, and a request awaited at `s` is still awaited or was answered. */
  ghost predicate Covered(s: State, t: State, c: string, k: string) {
    Log(s, c) <= Log(t, c) && (Awaits(s, c, k) ==> Awaits(t, c, k) || AnsweredSince(s, t, c, k))
  }

  lemma CoveredTransitive(s: State, t: State, u: State, c: string, k: string)
    requires Covered(s, t, c, k) && Covered(t, u, c, k)
    ensures Covered(s, u, c, k)
    ensures AnsweredSince(s, t, c, k) || AnsweredSince(t, u, c, k) ==> AnsweredSince(s, u, c, k)
  {
    if AnsweredSince(s, t, c, k) {
      var i :| |Log(s, c)| <= i < |Log(t, c)| && IsAnswer(Log(t, c)[i], k);
      assert Log(u, c)[i] == Log(t, c)[i];
    }
  }

  // ----- sending covers -------------------------------------------------------------------------

  lemma SendCovers(s: State, d: string, e: Event, c: string, k: string)
    ensures Covered(s, SendTo(s, d, e), c, k)
    ensures c == d && d in s.tables.frontends && IsAnswer(e, k) ==> AnsweredSince(s, SendTo(s, d, e), c, k)
  {
    hide IdKey, FrontendKey;
    var t := SendTo(s, d, e);
    if c == d && d in s.tables.frontends && IsAnswer(e, k) {
      assert Log(t, c)[|Log(s, c)|] == e;
    }
  }

  lemma BroadcastCovers(s: State, e: Event, c: string, k: string)
    ensures Covered(s, Broadcast(s, e), c, k)
  {
    hide IdKey, FrontendKey;
  }

  lemma DiagnoseCovers(s: State, code: string, about: Option<string>, c: string, k: string)
    ensures Covered(s, Diagnose(s, code, about), c, k)
  {
    hide IdKey, FrontendKey, Covered;
    var e := Diagnostic(code, about, s.sequence + 1);
    if about.Some? {
      SendCovers(Tick(s), about.value, e, c, k);
    } else {
      BroadcastCovers(Tick(s), e, c, k);
    }
    TickCovers(s, c, k);
    CoveredTransitive(s, Tick(s), Diagnose(s, code, about), c, k);
  }

  lemma TickCovers(s: State, c: string, k: string)
    ensures Covered(s, Tick(s), c, k)
  {
  }

  lemma DeliverCovers(s: State, d: string, p: Payload, c: string, k: string)
    ensures Covered(s, Deliver(s, d, p), c, k)
    ensures c == d && d in s.tables.frontends && p.Response? && IdKey(p.id) == Some(k)
      ==> AnsweredSince(s, Deliver(s, d, p), c, k)
  {
    hide IdKey, FrontendKey;
    if d in s.tables.frontends {
      SendCovers(Tick(s), d, Envelope(d, s.tables.frontends[d], s.sequence + 1, p), c, k);
      TickCovers(s, c, k);
      CoveredTransitive(s, Tick(s), Deliver(s, d, p), c, k);
    }
  }

  lemma RejectCovers(s: State, d: string, id: Option<JsonId>, code: int, c: string, k: string)
    ensures Covered(s, Reject(s, d, id, code), c, k)
    ensures c == d && d in s.tables.frontends && id.Some? && IdKey(id.value) == Some(k)
      ==> AnsweredSince(s, Reject(s, d, id, code), c, k)
  {
    hide IdKey, FrontendKey, Covered, AnsweredSince;
    if id.Some? {
      DeliverCovers(s, d, ErrorResponse(id.value, code), c, k);
    }
    DiagnoseCovers(s, "frontend-message-rejected", Some(d), c, k);
  }

  lemma {:induction false} FanoutCovers(s: State, order: seq<string>, p: Payload, c: string, k: string)
    ensures Covered(s, Fanout(s, order, p), c, k)
  {
    hide IdKey, FrontendKey;
    if order != [] {
      var before := Fanout(s, order[..|order| - 1], p);
      FanoutCovers(s, order[..|order| - 1], p, c, k);
      DeliverCovers(before, order[|order| - 1], p, c, k);
      CoveredTransitive(s, before, Fanout(s, order, p), c, k);
    }
  }

  /** A step that keeps the log and the awaited requests of `c`. */
  lemma KeepCovers(s: State, t: State, c: string, k: string)
    requires t.down == s.down && (Awaits(s, c, k) ==> Awaits(t, c, k))
    ensures Covered(s, t, c, k)
  {
  }

  lemma BroadcastControllerCovers(s: State, c: string, k: string)
    ensures Covered(s, BroadcastController(s), c, k)
  {
    hide Covered;
    TickCovers(s, c, k);
    BroadcastCovers(Tick(s), ControllerIs(s.tables.controller, s.sequence + 1), c, k);
    CoveredTransitive(s, Tick(s), BroadcastController(s), c, k);
  }

  lemma BroadcastProviderCovers(s: State, phase: ProviderPhase, c: string, k: string)
    ensures Covered(s, BroadcastProvider(s, phase), c, k)
  {
    hide Covered;
    TickCovers(s, c, k);
    BroadcastCovers(Tick(s), Provider(phase, s.tables.generation, s.sequence + 1), c, k);
    CoveredTransitive(s, Tick(s), BroadcastProvider(s, phase), c, k);
  }

  // ----- each step covers -----------------------------------------------------------------------

  lemma RegisterCovers(s: State, link: Link, c: string, k: string)
    requires Inv(s) && IsConnectionName(c, s.tables.nextConnection)
    ensures Covered(s, Register(s, link), c, k)
  {
    hide Covered, FrontendKey, BroadcastController, Consistent, IsConnectionName;
    if |s.tables.frontends| < s.tables.options.maximumFrontends {
      var d := ConnectionName(s.tables.nextConnection);
      ConnectionNameIsNew(s.tables.nextConnection);
      var s0 := s.(tables := Enroll(s.tables), down := s.down[d := []]);
      var role := s0.tables.frontends[d];
      assert Covered(s, s0, c, k) by { EnrollCovers(s, c, k); }
      var s1 := SendTo(Tick(s0), d, Opened(d, role, s0.sequence + 1));
      var phase := if s1.tables.ready then Ready else if link.reachable then Connected else Disconnected;
      var s2 := SendTo(Tick(s1), d, Provider(phase, s1.tables.generation, s1.sequence + 1));
      TickCovers(s0, c, k);
      SendCovers(Tick(s0), d, Opened(d, role, s0.sequence + 1), c, k);
      TickCovers(s1, c, k);
      SendCovers(Tick(s1), d, Provider(phase, s1.tables.generation, s1.sequence + 1), c, k);
      BroadcastControllerCovers(s2, c, k);
      CoveredTransitive(s, s0, Tick(s0), c, k);
      CoveredTransitive(s, Tick(s0), s1, c, k);
      CoveredTransitive(s, s1, Tick(s1), c, k);
      CoveredTransitive(s, Tick(s1), s2, c, k);
      CoveredTransitive(s, s2, BroadcastController(s2), c, k);
    } else {
      KeepCovers(s, s, c, k);
    }
  }

  lemma EnrollCovers(s: State, c: string, k: string)
    requires c != ConnectionName(s.tables.nextConnection)
    ensures var down := s.down[ConnectionName(s.tables.nextConnection) := []];
      Covered(s, s.(tables := Enroll(s.tables), down := down), c, k)
  {
    hide FrontendKey;
  }

  lemma UnregisterCovers(s: State, link: Link, d: string, order: seq<string>, c: string, k: string)
    requires Inv(s) && Enabled(s, DoUnregister(d, order)) && IsConnectionName(c, s.tables.nextConnection) && c != d
    ensures Covered(s, Unregister(s, link, d, order), c, k)
  {
    hide Covered, FrontendKey, BroadcastController, FailServerRequests, KeysFresh, OwnersRegistered, IdKey,
      IsConnectionName;
    KeepCovers(s, s, c, k);
    if d in s.tables.frontends {
      FailServerRequestsTables(s, link, order);
      var s1 := FailServerRequests(s, link, order);
      var s2 := s1.(tables := Withdraw(DropRequests(s1.tables, d), d));
      if Awaits(s, c, k) {
        ConnectionNameHasNoNewline(c, s.tables.nextConnection);
        ConnectionNameHasNoNewline(d, s.tables.nextConnection);
        FrontendKeyPrefix(d, c, k);
      }
      KeepCovers(s, s2, c, k);
      BroadcastControllerCovers(s2, c, k);
      CoveredTransitive(s, s2, BroadcastController(s2), c, k);
    }
  }

  lemma AppServerMessageCovers(s: State, link: Link, d: string, payload: Option<Payload>, c: string, k: string)
    ensures Covered(s, HandleAppServerMessage(s, link, d, payload), c, k)
  {
    hide Covered, Reject, IdKey, FrontendKey, RemoteId, RemoteNumber, StringKey, MayForward;
    forall t: State, id, code | Covered(s, t, c, k) ensures Covered(s, Reject(t, d, id, code), c, k) {
      RejectCovers(t, d, id, code, c, k);
      CoveredTransitive(s, t, Reject(t, d, id, code), c, k);
    }
    KeepCovers(s, s, c, k);
    if payload.Some? && !payload.value.Invalid? {
      var p := payload.value;
      var sent := Transmit(s, link, p, FromFrontend(d));
      KeepCovers(s, sent, c, k);
      if p.Response? && IdKey(p.id).Some? {
        KeepCovers(s, sent.(tables := Strike(s.tables, IdKey(p.id).value)), c, k);
      } else if p.Request? && IdKey(p.id).Some? {
        var sent := Transmit(s, link, Request(Str(RemoteId(s.tables, d)), p.verb, p.body, p.strict), FromFrontend(d));
        KeepCovers(s, sent.(tables := FileRequest(s.tables, d, p.id)), c, k);
        KeepCovers(s, sent.(tables := s.tables.(nextFrontend := RemoteNumber(s.tables, d) + 1)), c, k);
      }
    }
  }

  lemma SetControllerCovers(s: State, d: Option<string>, c: string, k: string)
    ensures Covered(s, SetController(s, d), c, k)
  {
    hide Covered;
    var s1 := s.(tables := Appoint(s.tables, d));
    KeepCovers(s, s1, c, k);
    BroadcastControllerCovers(s1, c, k);
    CoveredTransitive(s, s1, SetController(s, d), c, k);
  }

  lemma CommandCovers(s: State, d: string, action: Action, c: string, k: string)
    ensures Covered(s, HandleCommand(s, d, action), c, k)
  {
    hide Covered, SetController, Diagnose;
    forall target ensures Covered(s, SetController(s, target), c, k) {
      SetControllerCovers(s, target, c, k);
    }
    forall code, about ensures Covered(s, Diagnose(s, code, about), c, k) {
      DiagnoseCovers(s, code, about, c, k);
    }
  }

  lemma FromFrontendCovers(s: State, link: Link, d: string, m: FrontendMessage, c: string, k: string)
    ensures Covered(s, ReceiveFromFrontend(s, link, d, m), c, k)
  {
    hide Covered, HandleAppServerMessage, HandleCommand, Reject;
    if d in s.tables.frontends {
      match m
      case AppServerMessage(payload) => AppServerMessageCovers(s, link, d, payload, c, k);
      case Command(action) => CommandCovers(s, d, action, c, k);
      case Unsupported => RejectCovers(s, d, None, -32600, c, k);
    } else {
      KeepCovers(s, s, c, k);
    }
  }

  lemma CompleteHandshakeCovers(s: State, link: Link, outcome: Outcome, c: string, k: string)
    ensures Covered(s, CompleteHandshake(s, link, outcome), c, k)
  {
    hide Covered, BroadcastProvider, Diagnose;
    var sent := Transmit(s, link, InitializedNotification, FromLocal);
    var ready := sent.(tables := sent.tables.(ready := true));
    KeepCovers(s, s, c, k);
    KeepCovers(s, sent, c, k);
    KeepCovers(s, ready, c, k);
    BroadcastProviderCovers(ready, Ready, c, k);
    DiagnoseCovers(BroadcastProvider(ready, Ready), "appserver-ready", None, c, k);
    CoveredTransitive(s, ready, BroadcastProvider(ready, Ready), c, k);
    CoveredTransitive(s, BroadcastProvider(ready, Ready),
                      Diagnose(BroadcastProvider(ready, Ready), "appserver-ready", None), c, k);
  }

  /** The one entry a response settles is answered to its owner under the owner's own id. */
  lemma SettleCovers(s: State, key: string, p: Payload, c: string, k: string)
    requires TablesInverse(s.tables) && p.Response? && key in s.tables.requestOwners
    requires RolesAgree(s.tables) && IsConnectionName(c, s.tables.nextConnection)
    ensures var r := s.tables.requestOwners[key];
      var t := s.(tables := Settle(s.tables, key));
      Covered(s, Deliver(t, r.connectionId, Response(r.frontendId, p.outcome, p.strict)), c, k)
  {
    var r := s.tables.requestOwners[key];
    var s1 := s.(tables := Settle(s.tables, key));
    var reply := Response(r.frontendId, p.outcome, p.strict);
    DeliverCovers(s1, r.connectionId, reply, c, k);
    if Awaits(s, c, k) && !Awaits(s1, c, k) {
      FrontendKeyInjective(c, k, r.connectionId, IdKey(r.frontendId).value, s.tables);
      assert AnsweredSince(s1, Deliver(s1, r.connectionId, reply), c, k);
      assert AnsweredSince(s, Deliver(s1, r.connectionId, reply), c, k);
    }
  }

  lemma FrontendKeyInjective(c: string, k: string, d: string, l: string, t: Tables)
    requires RolesAgree(t) && IsConnectionName(c, t.nextConnection) && d in t.frontends
    requires FrontendKey(c, k) == FrontendKey(d, l)
    ensures c == d && k == l
  {
    ConnectionNameHasNoNewline(c, t.nextConnection);
    ConnectionNameHasNoNewline(d, t.nextConnection);
    FrontendKeyPrefix(c, d, l);
    assert c + "\n" <= FrontendKey(c, k);
    assert k == FrontendKey(c, k)[|c| + 1..] == FrontendKey(d, l)[|d| + 1..] == l;
  }

  lemma RouteResponseCovers(s: State, link: Link, key: string, p: Payload, c: string, k: string)
    requires Inv(s) && IsConnectionName(c, s.tables.nextConnection) && p.Response?
    ensures Covered(s, RouteResponse(s, link, key, p), c, k)
  {
    if key in s.tables.requestOwners {
      SettleCovers(s, key, p, c, k);
    }
    hide Consistent, Covered, FrontendKey, Diagnose, Deliver, CompleteHandshake;
    if key in s.tables.localRequests {
      var s1 := s.(tables := s.tables.(localRequests := s.tables.localRequests - {key}));
      KeepCovers(s, s1, c, k);
      CompleteHandshakeCovers(s1, link, p.outcome, c, k);
      CoveredTransitive(s, s1, CompleteHandshake(s1, link, p.outcome), c, k);
    }
    DiagnoseCovers(s, "unmatched-appserver-response", None, c, k);
  }

  lemma RouteServerRequestCovers(s: State, link: Link, key: string, p: Payload, throws: bool, c: string, k: string)
    requires p.Request?
    ensures Covered(s, RouteServerRequest(s, link, key, p, throws), c, k)
  {
    hide Covered, FrontendKey, Diagnose, Deliver, Takes;
    var t := s.tables;
    if key in t.serverOwners {
      var sent := Transmit(s, link, ErrorResponse(p.id, -32600), FromBridge);
      KeepCovers(s, sent, c, k);
      DiagnoseCovers(sent, "duplicate-appserver-request-id", None, c, k);
      CoveredTransitive(s, sent, Diagnose(sent, "duplicate-appserver-request-id", None), c, k);
    } else if p.verb in t.localMethods {
      KeepCovers(s, RouteServerRequest(s, link, key, p, throws), c, k);
    } else if t.controller.Some? && t.controller.value in t.frontends {
      var s1 := s.(tables := t.(serverOwners := t.serverOwners[key := Frontend(t.controller.value, p.id)]));
      KeepCovers(s, s1, c, k);
      DeliverCovers(s1, t.controller.value, p, c, k);
      CoveredTransitive(s, s1, Deliver(s1, t.controller.value, p), c, k);
    } else {
      var sent := Transmit(s, link, ErrorResponse(p.id, -32010), FromBridge);
      KeepCovers(s, sent, c, k);
      DiagnoseCovers(sent, "appserver-request-without-handler", None, c, k);
      CoveredTransitive(s, sent, Diagnose(sent, "appserver-request-without-handler", None), c, k);
    }
  }

  lemma FromAppServerCovers(s: State, link: Link, p: Payload, throws: bool, order: seq<string>, c: string, k: string)
    requires Inv(s) && IsConnectionName(c, s.tables.nextConnection)
    ensures Covered(s, ReceiveFromAppServer(s, link, p, throws, order), c, k)
  {
    hide Consistent, Covered, IdKey, FrontendKey, Diagnose, Fanout, RouteResponse, RouteServerRequest;
    if p.Response? && IdKey(p.id).Some? {
      RouteResponseCovers(s, link, IdKey(p.id).value, p, c, k);
    } else if p.Request? && IdKey(p.id).Some? {
      RouteServerRequestCovers(s, link, IdKey(p.id).value, p, throws, c, k);
    } else if p.Notification? {
      var key := ResolvedKey(p);
      var s1 := if key.Some? then s.(tables := Strike(s.tables, key.value)) else s;
      KeepCovers(s, s1, c, k);
      FanoutCovers(s1, order, p, c, k);
      CoveredTransitive(s, s1, Fanout(s1, order, p), c, k);
    } else {
      DiagnoseCovers(s, "invalid-appserver-message", None, c, k);
    }
  }

  lemma RequestLocallyCovers(s: State, link: Link, verb: string, body: string, handler: Handler, c: string, k: string)
    ensures Covered(s, RequestLocally(s, link, verb, body, handler), c, k)
  {
    hide LocalNumber, LocalId, FrontendKey;
    KeepCovers(s, RequestLocally(s, link, verb, body, handler), c, k);
  }

  lemma ConnectedCovers(s: State, link: Link, c: string, k: string)
    ensures Covered(s, AppServerConnected(s, link), c, k)
  {
    hide Covered, RequestLocally, Diagnose, BroadcastProvider;
    var s1 := s.(tables := s.tables.(ready := false, generation := s.tables.generation + 1));
    var s2 := BroadcastProvider(s1, Connected);
    var s3 := Diagnose(s2, "appserver-connected", None);
    KeepCovers(s, s1, c, k);
    BroadcastProviderCovers(s1, Connected, c, k);
    DiagnoseCovers(s2, "appserver-connected", None, c, k);
    RequestLocallyCovers(s3, link, "initialize", "clientInfo", InitializeHandler, c, k);
    CoveredTransitive(s, s1, s2, c, k);
    CoveredTransitive(s, s2, s3, c, k);
    CoveredTransitive(s, s3, AppServerConnected(s, link), c, k);
  }

  lemma {:induction false} FailRequestsAnswers(s: State, lost: map<string, FrontendRequest>, order: seq<string>,
                                               c: string, k: string)
    ensures Covered(s, FailRequests(s, lost, order), c, k)
    ensures c in s.tables.frontends &&
      (exists u :: u in order && u in lost && lost[u].connectionId == c && IdKey(lost[u].frontendId) == Some(k))
      ==> AnsweredSince(s, FailRequests(s, lost, order), c, k)
  {
    hide IdKey, FrontendKey, Deliver;
    if order != [] {
      var prior, last := order[..|order| - 1], order[|order| - 1];
      var before, after := FailRequests(s, lost, prior), FailRequests(s, lost, order);
      FailRequestsAnswers(s, lost, prior, c, k);
      if last in lost {
        DeliverCovers(before, lost[last].connectionId, ErrorResponse(lost[last].frontendId, -32002), c, k);
      }
      CoveredTransitive(s, before, after, c, k);
      assert order == prior + [last];
    }
  }

  /** Losing the app-server answers every request it leaves unanswered. */
  lemma DisconnectedCovers(s: State, order: seq<string>, c: string, k: string)
    requires Inv(s) && Enabled(s, DoDisconnected(order)) && IsConnectionName(c, s.tables.nextConnection)
    ensures Covered(s, AppServerDisconnected(s, order), c, k)
  {
    hide RolesAgree, KeysFresh, OwnersRegistered, IdKey, FrontendKey, IsConnectionName, FailRequests;
    var s0 := s.(tables := Forget(s.tables));
    var lost := s.tables.requestOwners;
    var s1 := FailRequests(s0, lost, order);
    FailRequestsAnswers(s0, lost, order, c, k);
    if Awaits(s, c, k) {
      var u := s.tables.requestKeys[FrontendKey(c, k)];
      FrontendKeyInjective(c, k, lost[u].connectionId, IdKey(lost[u].frontendId).value, s.tables);
      assert u in order && u in lost && lost[u].connectionId == c && IdKey(lost[u].frontendId) == Some(k);
    }
    assert Covered(s, s1, c, k);
    hide Covered, Consistent;
    BroadcastProviderCovers(s1, Disconnected, c, k);
    DiagnoseCovers(BroadcastProvider(s1, Disconnected), "appserver-disconnected", None, c, k);
    CoveredTransitive(s, s1, BroadcastProvider(s1, Disconnected), c, k);
    CoveredTransitive(s, BroadcastProvider(s1, Disconnected), AppServerDisconnected(s, order), c, k);
  }

  lemma UnregisterGrows(s: State, link: Link, d: string, order: seq<string>, c: string)
    ensures Log(s, c) <= Log(Unregister(s, link, d, order), c)
  {
    FailServerRequestsTables(s, link, order);
  }

  /** Whatever step the bridge takes, a request it awaits for a connection that is not unregistered is afterwards
      still awaited, or its answer has been sent on that connection; and no sent event is ever retracted. */
  lemma StepCovers(s: State, link: Link, input: Input, c: string, k: string)
    requires Inv(s) && Enabled(s, input) && IsConnectionName(c, s.tables.nextConnection)
    requires input.DoUnregister? ==> input.connectionId != c
    ensures Covered(s, Step(s, link, input), c, k)
  {
    hide Consistent, Covered, Register, Unregister, ReceiveFromFrontend, ReceiveFromAppServer, AppServerConnected,
      AppServerDisconnected, RequestLocally, IdKey, FrontendKey;
    match input
    case DoRegister => RegisterCovers(s, link, c, k);
    case DoUnregister(d, order) => UnregisterCovers(s, link, d, order, c, k);
    case DoReceiveFromFrontend(d, m) => FromFrontendCovers(s, link, d, m, c, k);
    case DoReceiveFromAppServer(p, throws, order) => FromAppServerCovers(s, link, p, throws, order, c, k);
    case DoConnected => ConnectedCovers(s, link, c, k);
    case DoDisconnected(order) => DisconnectedCovers(s, order, c, k);
    case DoRequestLocally(verb, body) => RequestLocallyCovers(s, link, verb, body, UserHandler, c, k);
    case DoSendRaw(p) => KeepCovers(s, Step(s, link, input), c, k);
    case DoSetLocalHandler(verb, present) => KeepCovers(s, Step(s, link, input), c, k);
  }

  /** A request the bridge receives is awaited afterwards, or answered at once. */
  lemma RequestAccounted(s: State, link: Link, c: string, p: Payload, k: string)
    requires c in s.tables.frontends && p.Request? && IdKey(p.id) == Some(k)
    ensures var t := ReceiveFromFrontend(s, link, c, AppServerMessage(Some(p)));
      Awaits(t, c, k) || AnsweredSince(s, t, c, k)
  {
    hide Reject, IdKey, FrontendKey, RemoteId, RemoteNumber, StringKey, MayForward, AnsweredSince;
    forall code ensures AnsweredSince(s, Reject(s, c, Some(p.id), code), c, k) {
      RejectCovers(s, c, Some(p.id), code, c, k);
    }
    var upstream := Request(Str(RemoteId(s.tables, c)), p.verb, p.body, p.strict);
    var sent := Transmit(s, link, upstream, FromFrontend(c))
      .(tables := s.tables.(nextFrontend := RemoteNumber(s.tables, c) + 1));
    KeepCovers(s, sent, c, k);
    RejectCovers(sent, c, Some(p.id), -32005, c, k);
    CoveredTransitive(s, sent, Reject(sent, c, Some(p.id), -32005), c, k);
  }
}
