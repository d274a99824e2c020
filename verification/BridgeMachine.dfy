/** The bridge itself: the router of the app-server's JSON-RPC traffic among many frontends. */
module BridgeMachine {
  import opened Wrappers
  import opened JsonRpc
  import opened BridgeState
  import opened BridgeInvariant

  /** Every public method is one step of BridgeState. The endpoints answer through `link` and are recorded in
      `down` and `up`; `order` is the iteration order of the hash table a method walks through, and `throws`
      tells whether the application's handler throws. */
  class CodexBridge {
    const options: Options
    var frontends: map<string, Role>
    var controller: Option<string>
    var requestOwners: map<string, FrontendRequest>
    var requestKeys: map<string, string>
    var localRequests: map<string, LocalRequest>
    var serverOwners: map<string, ServerOwner>
    var localMethods: set<string>
    var nextConnection: nat
    var nextLocal: nat
    var nextFrontend: nat
    var sequence: nat
    var generation: nat
    var ready: bool
    var down: map<string, seq<Event>>
    var up: seq<Sent>

    ghost function Contents(): Tables
      reads this
    {
      Tables(options, frontends, controller, requestOwners, requestKeys, localRequests, serverOwners, localMethods,
             nextConnection, nextLocal, nextFrontend, generation, ready)
    }

    ghost function Abstract(): State
      reads this
    {
      State(Contents(), sequence, down, up)
    }

    constructor (options: Options)
      ensures Abstract() == Initial(options)
    {
      this.options := options;
      frontends, controller := map[], None;
      requestOwners, requestKeys, localRequests, serverOwners, localMethods := map[], map[], map[], map[], {};
      nextConnection, nextLocal, nextFrontend, sequence, generation, ready := 1, 1, 1, 0, 0, false;
      down, up := map[], [];
    }

    // ----- sending ------------------------------------------------------------------------------

    method NextSequence() returns (n: nat)
      modifies this`sequence
      ensures sequence == old(sequence) + 1 && n == sequence
    {
      sequence := sequence + 1;
      n := sequence;
    }

    method SendTo(c: string, e: Event)
      modifies this`down
      ensures Abstract() == BridgeState.SendTo(old(Abstract()), c, e)
    {
      if c in frontends {
        down := down[c := (if c in down then down[c] else []) + [e]];
      }
    }

    method Broadcast(e: Event)
      modifies this`down
      ensures Abstract() == BridgeState.Broadcast(old(Abstract()), e)
    {
      hide Told;
      var remaining := frontends.Keys;
      ghost var before := Abstract();
      NobodyTold(before, e);
      while remaining != {}
        invariant remaining <= frontends.Keys
        invariant Abstract() == before.(down := Told(before, frontends.Keys - remaining, e))
        decreases remaining
      {
        var c :| c in remaining;
        OneMoreTold(before, frontends.Keys - remaining, c, e);
        assert frontends.Keys - (remaining - {c}) == frontends.Keys - remaining + {c};
        SendTo(c, e);
        remaining := remaining - {c};
      }
      assert frontends.Keys - remaining == frontends.Keys;
    }

    method BroadcastController()
      modifies this`sequence, this`down
      ensures Abstract() == BridgeState.BroadcastController(old(Abstract()))
    {
      var n := NextSequence();
      Broadcast(ControllerIs(controller, n));
    }

    method BroadcastProvider(phase: ProviderPhase)
      modifies this`sequence, this`down
      ensures Abstract() == BridgeState.BroadcastProvider(old(Abstract()), phase)
    {
      var n := NextSequence();
      Broadcast(Provider(phase, generation, n));
    }

    method EmitDiagnostic(code: string, about: Option<string>)
      modifies this`sequence, this`down
      ensures Abstract() == Diagnose(old(Abstract()), code, about)
    {
      var n := NextSequence();
      if about.Some? {
        SendTo(about.value, Diagnostic(code, about, n));
      } else {
        Broadcast(Diagnostic(code, about, n));
      }
    }

    method Deliver(c: string, p: Payload)
      modifies this`sequence, this`down
      ensures Abstract() == BridgeState.Deliver(old(Abstract()), c, p)
    {
      if c in frontends {
        var n := NextSequence();
        SendTo(c, Envelope(c, frontends[c], n, p));
      }
    }

    method Reject(c: string, id: Option<JsonId>, code: int)
      modifies this`sequence, this`down
      ensures Abstract() == BridgeState.Reject(old(Abstract()), c, id, code)
    {
      if id.Some? && c in frontends {
        Deliver(c, ErrorResponse(id.value, code));
      } else {
        EmitDiagnostic("frontend-message-rejected", Some(c));
      }
    }

    method SendToAppServer(link: Link, p: Payload, origin: Origin) returns (accepted: bool)
      modifies this`up
      ensures Abstract() == Transmit(old(Abstract()), link, p, origin) && accepted == Takes(old(Abstract()), link)
    {
      accepted := link.reachable && link.takes(|up|);
      up := up + [Sent(p, origin, accepted)];
    }

    // ----- registration -------------------------------------------------------------------------

    method RegisterFrontend(link: Link) returns (id: Option<string>)
      modifies this
      ensures Abstract() == Register(old(Abstract()), link)
      ensures id == if |old(frontends)| < options.maximumFrontends then Some(ConnectionName(old(nextConnection)))
        else None
    {
      hide Greet, Enroll, ConnectionName;
      if |frontends| >= options.maximumFrontends {
        return None;
      }
      var c := EnrollFrontend();
      AnnounceConnection(link, c);
      return Some(c);
    }

    method EnrollFrontend() returns (c: string)
      modifies this
      ensures c == ConnectionName(old(nextConnection)) && c in frontends
      ensures Contents() == Enroll(old(Contents()))
      ensures Abstract() == old(Abstract()).(tables := Contents(), down := old(down)[c := []])
    {
      hide ConnectionName;
      c := ConnectionName(nextConnection);
      nextConnection := nextConnection + 1;
      var becomesController := options.firstFrontendBecomesController && controller.None?;
      frontends := frontends[c := if becomesController then Controller else Observer];
      if becomesController {
        controller := Some(c);
      }
      down := down[c := []];
    }

    method AnnounceConnection(link: Link, c: string)
      requires c in frontends
      modifies this`sequence, this`down
      ensures Abstract() == Greet(old(Abstract()), link, c, frontends[c])
    {
      hide BridgeState.BroadcastController, BridgeState.SendTo;
      var n := NextSequence();
      SendTo(c, Opened(c, frontends[c], n));
      n := NextSequence();
      SendTo(c, Provider(if ready then Ready else if link.reachable then Connected else Disconnected, generation, n));
      BroadcastController();
    }

    method FailFrontendServerRequests(link: Link, order: seq<string>)
      modifies this`serverOwners, this`up
      ensures Abstract() == FailServerRequests(old(Abstract()), link, order)
    {
      ghost var before := Abstract();
      var i := 0;
      while i < |order|
        invariant i <= |order|
        invariant Abstract() == FailServerRequests(before, link, order[..i])
      {
        assert order[..i + 1][..i] == order[..i];
        if order[i] in serverOwners {
          var _ := SendToAppServer(link, ErrorResponse(serverOwners[order[i]].id, -32011), FromBridge);
          serverOwners := serverOwners - {order[i]};
        }
        i := i + 1;
      }
      assert order[..i] == order;
    }

    method UnregisterFrontend(link: Link, c: string, order: seq<string>)
      modifies this
      ensures Abstract() == Unregister(old(Abstract()), link, c, order)
    {
      hide FailServerRequests, BridgeState.BroadcastController, DropRequests;
      if c !in frontends {
        return;
      }
      FailFrontendServerRequests(link, order);
      DropFrontendRequests(c);
      var wasController := controller == Some(c);
      frontends := frontends - {c};
      if wasController {
        controller := None;
        BroadcastController();
      }
    }

    method DropFrontendRequests(c: string)
      modifies this`requestOwners, this`requestKeys
      ensures Abstract() == old(Abstract()).(tables := DropRequests(old(Contents()), c))
    {
      requestOwners := map u | u in requestOwners && requestOwners[u].connectionId != c :: requestOwners[u];
      requestKeys := map f | f in requestKeys && !(c + "\n" <= f) :: requestKeys[f];
    }

    // ----- messages from a frontend -------------------------------------------------------------

    method ReceiveFromFrontend(link: Link, c: string, m: FrontendMessage)
      modifies this
      ensures Abstract() == BridgeState.ReceiveFromFrontend(old(Abstract()), link, c, m)
    {
      if c !in frontends {
        return;
      }
      match m
      case AppServerMessage(payload) => HandleAppServerMessage(link, c, payload);
      case Command(action) => HandleControllerCommand(c, action);
      case Unsupported => Reject(c, None, -32600);
    }

    method HandleAppServerMessage(link: Link, c: string, payload: Option<Payload>)
      modifies this
      ensures Abstract() == BridgeState.HandleAppServerMessage(old(Abstract()), link, c, payload)
    {
      if payload.None? {
        Reject(c, None, -32600);
        return;
      }
      var p := payload.value;
      var kind := ClassifyStrict(p);
      if kind.InvalidKind? {
        Reject(c, Ident(p), -32600);
        return;
      }
      if kind.ResponseKind? {
        HandleServerResponse(link, c, p);
        return;
      }
      if p.verb == "initialize" || p.verb == "initialized" {
        Reject(c, Ident(p), -32003);
        return;
      }
      var allowed := MayForward(c, p);
      if !allowed {
        Reject(c, Ident(p), -32001);
        return;
      }
      if !link.reachable || !ready {
        Reject(c, Ident(p), -32002);
        return;
      }
      if kind.RequestKind? {
        ForwardRequest(link, c, p);
        return;
      }
      var accepted := SendToAppServer(link, p, FromFrontend(c));
      if !accepted {
        Reject(c, Ident(p), -32005);
      }
    }

    method MayForward(c: string, p: Payload) returns (allowed: bool)
      ensures allowed == BridgeState.MayForward(Contents(), c, p)
      ensures allowed <==>
        && c in frontends
        && (frontends[c].Controller? || (options.observersMayRead && p.Request? && p.verb in ReadOnlyMethods))
    {
      if c !in frontends {
        return false;
      }
      if frontends[c].Controller? {
        return true;
      }
      return options.observersMayRead && p.Request? && p.verb in ReadOnlyMethods;
    }

    method HandleServerResponse(link: Link, c: string, p: Payload)
      requires p.Response?
      modifies this
      ensures Abstract() == AnswerServerRequest(old(Abstract()), link, c, p)
    {
      var key := IdKey(p.id);
      if key.None? {
        Reject(c, Some(p.id), -32600);
        return;
      }
      if key.value !in serverOwners || !serverOwners[key.value].Frontend? || serverOwners[key.value].connectionId != c {
        Reject(c, Some(p.id), -32004);
        return;
      }
      var accepted := SendToAppServer(link, p, FromFrontend(c));
      serverOwners := serverOwners - {key.value};
      if !accepted {
        Reject(c, Some(p.id), -32005);
      }
    }

    /** Counts up until the id is in neither request table; every collision uses up one of their finitely many keys. */
    method NextFrontendRequestId(c: string) returns (id: string)
      modifies this`nextFrontend
      ensures id == RemoteId(old(Contents()), c) && nextFrontend == RemoteNumber(old(Contents()), c) + 1
    {
      var prefix := RemotePrefix(generation, c);
      id := Numbered(prefix, nextFrontend);
      nextFrontend := nextFrontend + 1;
      ghost var untried := Outstanding(Contents());
      while StringKey(id) in requestOwners || StringKey(id) in localRequests
        invariant nextFrontend > 0 && id == Numbered(prefix, nextFrontend - 1)
        invariant FirstFree(prefix, nextFrontend - 1, untried) == RemoteNumber(old(Contents()), c)
        invariant untried <= Outstanding(Contents())
        invariant AllTried(prefix, nextFrontend - 1, Outstanding(Contents()) - untried)
        decreases untried
      {
        CollisionUntried(prefix, nextFrontend - 1, Outstanding(Contents()), untried);
        untried := untried - {StringKey(id)};
        id := Numbered(prefix, nextFrontend);
        nextFrontend := nextFrontend + 1;
      }
    }

    method ForwardRequest(link: Link, c: string, p: Payload)
      requires p.Request?
      modifies this
      ensures Abstract() == BridgeState.ForwardRequest(old(Abstract()), link, c, p)
    {
      hide IdKey, FrontendKey, StringKey, RemoteId, RemoteNumber, BridgeState.FileRequest, BridgeState.Reject;
      var key := IdKey(p.id);
      if key.None? {
        Reject(c, Some(p.id), -32600);
        return;
      }
      if FrontendKey(c, key.value) in requestKeys {
        Reject(c, Some(p.id), -32600);
        return;
      }
      Unfile(Contents(), c, p.id);
      var upstreamId := FileRequest(c, p.id);
      var accepted := SendToAppServer(link, Request(Str(upstreamId), p.verb, p.body, p.strict), FromFrontend(c));
      if !accepted {
        requestOwners := requestOwners - {StringKey(upstreamId)};
        requestKeys := requestKeys - {FrontendKey(c, key.value)};
        Reject(c, Some(p.id), -32005);
      }
    }

    /** Enters a request under the next upstream id. */
    method FileRequest(c: string, id: JsonId) returns (upstreamId: string)
      requires IdKey(id).Some?
      modifies this`requestOwners, this`requestKeys, this`nextFrontend
      ensures upstreamId == RemoteId(old(Contents()), c)
      ensures Contents() == BridgeState.FileRequest(old(Contents()), c, id)
    {
      hide IdKey, FrontendKey, StringKey, Numbered, RemotePrefix, FirstFree;
      var frontendKey := FrontendKey(c, IdKey(id).value);
      upstreamId := NextFrontendRequestId(c);
      requestOwners := requestOwners[StringKey(upstreamId) := FrontendRequest(c, id, frontendKey)];
      requestKeys := requestKeys[frontendKey := StringKey(upstreamId)];
    }

    method HandleControllerCommand(c: string, action: Action)
      modifies this
      ensures Abstract() == HandleCommand(old(Abstract()), c, action)
    {
      match action
      case Claim =>
        if controller.None? || controller == Some(c) {
          SetController(Some(c));
        } else {
          EmitDiagnostic("controller-claim-rejected", Some(c));
        }
      case Release =>
        if controller == Some(c) {
          SetController(None);
        } else {
          EmitDiagnostic("controller-release-rejected", Some(c));
        }
      case Transfer(target) =>
        if controller != Some(c) {
          EmitDiagnostic("controller-transfer-rejected", Some(c));
        } else if target !in frontends {
          EmitDiagnostic("controller-transfer-rejected", Some(c));
        } else {
          SetController(Some(target));
        }
      case UnknownAction => EmitDiagnostic("controller-command-invalid", Some(c));
    }

    method SetController(c: Option<string>)
      modifies this
      ensures Abstract() == BridgeState.SetController(old(Abstract()), c)
    {
      if controller.Some? && controller.value in frontends {
        frontends := frontends[controller.value := Observer];
      }
      controller := c;
      if c.Some? {
        frontends := frontends[c.value := Controller];
      }
      BroadcastController();
    }

    // ----- messages from the app-server ---------------------------------------------------------

    method ReceiveFromAppServer(link: Link, p: Payload, throws: bool, order: seq<string>)
      modifies this
      ensures Abstract() == BridgeState.ReceiveFromAppServer(old(Abstract()), link, p, throws, order)
    {
      var key := Key(p);
      if p.Response? && key.Some? {
        RouteResponse(link, key.value, p);
      } else if p.Request? && key.Some? {
        RouteServerRequest(link, key.value, p, throws);
      } else if p.Notification? {
        RouteNotification(p, order);
      } else {
        EmitDiagnostic("invalid-appserver-message", None);
      }
    }

    method RouteResponse(link: Link, key: string, p: Payload)
      requires p.Response?
      modifies this
      ensures Abstract() == BridgeState.RouteResponse(old(Abstract()), link, key, p)
    {
      if key in localRequests {
        var handler := localRequests[key].handler;
        localRequests := localRequests - {key};
        if handler.InitializeHandler? {
          CompleteHandshake(link, p.outcome);
        }
        return;
      }
      if key in requestOwners {
        var request := requestOwners[key];
        requestOwners := requestOwners - {key};
        requestKeys := requestKeys - {request.frontendKey};
        Deliver(request.connectionId, Response(request.frontendId, p.outcome, p.strict));
        return;
      }
      EmitDiagnostic("unmatched-appserver-response", None);
    }

    method CompleteHandshake(link: Link, outcome: Outcome)
      modifies this
      ensures Abstract() == BridgeState.CompleteHandshake(old(Abstract()), link, outcome)
    {
      if outcome.Error? {
        return;
      }
      var accepted := SendToAppServer(link, InitializedNotification, FromLocal);
      if accepted {
        SetAppServerReady(link);
      }
    }

    method SetAppServerReady(link: Link)
      modifies this
      ensures Abstract() == SetReady(old(Abstract()), link)
    {
      if !link.reachable || ready {
        return;
      }
      ready := true;
      BroadcastProvider(Ready);
      EmitDiagnostic("appserver-ready", None);
    }

    method RouteServerRequest(link: Link, key: string, p: Payload, throws: bool)
      requires p.Request?
      modifies this
      ensures Abstract() == BridgeState.RouteServerRequest(old(Abstract()), link, key, p, throws)
    {
      if key in serverOwners {
        var _ := SendToAppServer(link, ErrorResponse(p.id, -32600), FromBridge);
        EmitDiagnostic("duplicate-appserver-request-id", None);
        return;
      }
      if p.verb in localMethods {
        ghost var before := serverOwners;
        serverOwners := serverOwners[key := LocalApplication(p.id)];
        if throws {
          var _ := SendToAppServer(link, ErrorResponse(p.id, -32603), FromLocal);
          serverOwners := serverOwners - {key};
          assert serverOwners == before;
        }
        return;
      }
      if controller.Some? && controller.value in frontends {
        serverOwners := serverOwners[key := Frontend(controller.value, p.id)];
        Deliver(controller.value, p);
        return;
      }
      var _ := SendToAppServer(link, ErrorResponse(p.id, -32010), FromBridge);
      EmitDiagnostic("appserver-request-without-handler", None);
    }

    method RouteNotification(p: Payload, order: seq<string>)
      requires p.Notification?
      modifies this
      ensures Abstract() == BridgeState.RouteNotification(old(Abstract()), p, order)
    {
      if p.verb == "serverRequest/resolved" && p.resolves.Some? && IdKey(p.resolves.value).Some? {
        serverOwners := serverOwners - {IdKey(p.resolves.value).value};
      }
      ghost var before := Abstract();
      var i := 0;
      while i < |order|
        invariant i <= |order|
        invariant Abstract() == Fanout(before, order[..i], p)
      {
        assert order[..i + 1][..i] == order[..i];
        Deliver(order[i], p);
        i := i + 1;
      }
      assert order[..i] == order;
    }

    // ----- requests of the bridge's own process -------------------------------------------------

    method NextLocalRequestId() returns (id: JsonId)
      modifies this`nextLocal
      ensures id == LocalId(old(Contents())) && nextLocal == LocalNumber(old(Contents())) + 1
    {
      var prefix := LocalPrefix(generation);
      var text := Numbered(prefix, nextLocal);
      nextLocal := nextLocal + 1;
      ghost var untried := Outstanding(Contents());
      while StringKey(text) in localRequests || StringKey(text) in requestOwners
        invariant nextLocal > 0 && text == Numbered(prefix, nextLocal - 1)
        invariant FirstFree(prefix, nextLocal - 1, untried) == LocalNumber(old(Contents()))
        invariant untried <= Outstanding(Contents())
        invariant AllTried(prefix, nextLocal - 1, Outstanding(Contents()) - untried)
        decreases untried
      {
        CollisionUntried(prefix, nextLocal - 1, Outstanding(Contents()), untried);
        untried := untried - {StringKey(text)};
        text := Numbered(prefix, nextLocal);
        nextLocal := nextLocal + 1;
      }
      id := Str(text);
    }

    method RequestTyped(link: Link, verb: string, body: string, handler: Handler) returns (id: JsonId)
      modifies this
      ensures Abstract() == RequestLocally(old(Abstract()), link, verb, body, handler)
    {
      hide StringKey, Numbered, LocalPrefix, FirstFree, LocalNumber;
      LocalIdUnused(Contents());
      ghost var before := Contents();
      id := NextLocalRequestId();
      var key := StringKey(id.text);
      UnfileLocally(before, key, LocalRequest(id, handler));
      localRequests := localRequests[key := LocalRequest(id, handler)];
      var accepted := SendToAppServer(link, Request(id, verb, body, true), FromLocal);
      if !accepted {
        localRequests := localRequests - {key};
      }
    }

    method SendRawJson(link: Link, p: Payload) returns (sent: bool)
      modifies this
      ensures Abstract() == SendRaw(old(Abstract()), link, p)
      ensures sent <==> |up| == |old(up)| + 1 && up[|old(up)|].accepted
    {
      match p
      case Invalid(_) => sent := false;
      case Request(id, _, _, _) =>
        var key := IdKey(id);
        if key.None? || key.value in localRequests || key.value in requestOwners {
          return false;
        }
        ghost var before := localRequests;
        localRequests := localRequests[key.value := LocalRequest(id, NoHandler)];
        sent := SendToAppServer(link, p, FromLocal);
        if !sent {
          localRequests := localRequests - {key.value};
          assert localRequests == before;
        }
      case Response(id, _, _) =>
        var key := IdKey(id);
        if key.None? || key.value !in serverOwners || !serverOwners[key.value].LocalApplication? {
          return false;
        }
        sent := SendToAppServer(link, p, FromLocal);
        if sent {
          serverOwners := serverOwners - {key.value};
        }
      case Notification(_, _, _, _) =>
        sent := SendToAppServer(link, p, FromLocal);
    }

    method RegisterServerRequestHandler(verb: string, present: bool)
      modifies this`localMethods
      ensures Abstract() == old(Abstract()).(tables := SetLocalHandler(old(Contents()), verb, present))
    {
      localMethods := if present then localMethods + {verb} else localMethods - {verb};
    }

    // ----- provider lifecycle -------------------------------------------------------------------

    method AppServerConnected(link: Link)
      modifies this
      ensures Abstract() == BridgeState.AppServerConnected(old(Abstract()), link)
    {
      hide RequestLocally, Diagnose, BridgeState.BroadcastProvider;
      ready := false;
      generation := generation + 1;
      BroadcastProvider(Connected);
      EmitDiagnostic("appserver-connected", None);
      var _ := RequestTyped(link, "initialize", "clientInfo", InitializeHandler);
    }

    method FailFrontendRequests(order: seq<string>)
      modifies this
      ensures Abstract() ==
        FailRequests(old(Abstract().(tables := Contents().(requestOwners := map[], requestKeys := map[]))),
                     old(requestOwners), order)
    {
      var requests := requestOwners;
      requestOwners := map[];
      requestKeys := map[];
      ghost var before := Abstract();
      var i := 0;
      while i < |order|
        invariant i <= |order|
        invariant Abstract() == FailRequests(before, requests, order[..i])
      {
        assert order[..i + 1][..i] == order[..i];
        if order[i] in requests {
          var request := requests[order[i]];
          Deliver(request.connectionId, ErrorResponse(request.frontendId, -32002));
        }
        i := i + 1;
      }
      assert order[..i] == order;
    }

    method AppServerDisconnected(order: seq<string>)
      modifies this
      ensures Abstract() == BridgeState.AppServerDisconnected(old(Abstract()), order)
    {
      hide FailRequests, Diagnose, BridgeState.BroadcastProvider;
      ghost var before := Abstract();
      ready := false;
      localRequests := map[];
      FailFrontendRequests(order);
      serverOwners := map[];
      FailRequestsIgnoreOwners(before.(tables := before.tables.(ready := false, localRequests := map[],
                                       requestOwners := map[], requestKeys := map[])),
                               before.tables.requestOwners, order);
      BroadcastProvider(Disconnected);
      EmitDiagnostic("appserver-disconnected", None);
    }
  }

  /** Taking a filed request back leaves only the counter changed. */
  lemma Unfile(t: Tables, c: string, id: JsonId)
    requires IdKey(id).Some? && FrontendKey(c, IdKey(id).value) !in t.requestKeys
    ensures var key, filed := FrontendKey(c, IdKey(id).value), FileRequest(t, c, id);
      && filed.requestKeys - {key} == t.requestKeys
      && filed.requestOwners - {StringKey(RemoteId(t, c))} == t.requestOwners
      && filed == t.(nextFrontend := RemoteNumber(t, c) + 1,
                     requestOwners := filed.requestOwners,
                     requestKeys := filed.requestKeys)
  {
    hide IdKey, FrontendKey, StringKey, Numbered, RemotePrefix, FirstFree;
    FirstFreeIsFirst(RemotePrefix(t.generation, c), t.nextFrontend, Outstanding(t));
  }

  lemma LocalIdUnused(t: Tables)
    ensures LocalId(t).Str? && StringKey(LocalId(t).text) !in t.localRequests
  {
    FirstFreeIsFirst(LocalPrefix(t.generation), t.nextLocal, Outstanding(t));
  }

  lemma UnfileLocally(t: Tables, key: string, request: LocalRequest)
    requires key !in t.localRequests
    ensures t.localRequests[key := request] - {key} == t.localRequests
  {
  }

  lemma NobodyTold(s: State, e: Event)
    ensures Told(s, s.tables.frontends.Keys - s.tables.frontends.Keys, e) == s.down
  {
  }

  lemma OneMoreTold(s: State, told: set<string>, c: string, e: Event)
    requires c !in told && c in s.tables.frontends
    ensures BridgeState.SendTo(s.(down := Told(s, told, e)), c, e).down == Told(s, told + {c}, e)
  {
  }

  /** Each of the keys belongs to a number below `n`. */
  ghost predicate AllTried(prefix: string, n: nat, keys: set<string>) {
    forall k :: k in keys ==> exists m: nat :: m < n && k == StringKey(Numbered(prefix, m))
  }

  /** A number that collides had not been tried before, so trying it uses up one colliding key. */
  lemma CollisionUntried(prefix: string, n: nat, all: set<string>, untried: set<string>)
    requires StringKey(Numbered(prefix, n)) in all && untried <= all && AllTried(prefix, n, all - untried)
    ensures StringKey(Numbered(prefix, n)) in untried
    ensures AllTried(prefix, n + 1, all - (untried - {StringKey(Numbered(prefix, n))}))
  {
    var key := StringKey(Numbered(prefix, n));
    if key !in untried {
      assert key in all - untried;
      var m: nat :| m < n && key == StringKey(Numbered(prefix, m));
      NumberedKeyInjective(prefix, n, prefix, m);
    }
    forall k | k in all - (untried - {key}) ensures exists m: nat :: m < n + 1 && k == StringKey(Numbered(prefix, m)) {
      if k != key {
        assert k in all - untried;
        var m: nat :| m < n && k == StringKey(Numbered(prefix, m));
        assert m < n + 1;
      }
    }
  }

  lemma {:induction false} FailRequestsIgnoreOwners(s: State, lost: map<string, FrontendRequest>, order: seq<string>)
    ensures var t := FailRequests(s, lost, order);
      FailRequests(s.(tables := s.tables.(serverOwners := map[])), lost, order) ==
        t.(tables := t.tables.(serverOwners := map[]))
  {
    if order != [] {
      FailRequestsIgnoreOwners(s, lost, order[..|order| - 1]);
    }
  }
}
