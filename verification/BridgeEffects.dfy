/** What each operation does to the tables of the bridge, apart from everything it sends. */
module BridgeEffects {
  import opened Wrappers
  import opened JsonRpc
  import opened BridgeState

  // ----- parts of the tables --------------------------------------------------------------------

  ghost predicate SameControl(t: Tables, u: Tables) {
    u.options == t.options && u.frontends == t.frontends && u.controller == t.controller &&
    u.nextConnection == t.nextConnection
  }

  ghost predicate SameRequests(t: Tables, u: Tables) {
    u.requestOwners == t.requestOwners && u.requestKeys == t.requestKeys && u.nextFrontend == t.nextFrontend
  }

  ghost predicate SameSession(t: Tables, u: Tables) {
    u.generation == t.generation && u.ready == t.ready && u.localRequests == t.localRequests &&
    u.nextLocal == t.nextLocal && u.localMethods == t.localMethods
  }

  /** Server requests are only given up. */
  ghost predicate FewerOwners(t: Tables, u: Tables) {
    forall k :: k in u.serverOwners ==> k in t.serverOwners && u.serverOwners[k] == t.serverOwners[k]
  }

  /** Those that frontends hold are all kept. */
  ghost predicate KeepsHeld(t: Tables, u: Tables) {
    forall k :: k in t.serverOwners && t.serverOwners[k].Frontend? ==>
                  k in u.serverOwners && u.serverOwners[k] == t.serverOwners[k]
  }

  ghost predicate FewerRequests(t: Tables, u: Tables) {
    u.nextFrontend == t.nextFrontend &&
    forall k :: k in u.requestOwners ==> k in t.requestOwners && u.requestOwners[k] == t.requestOwners[k]
  }

  // ----- effects --------------------------------------------------------------------------------

  /** The request of a registered frontend that is forwarded: a strict one, allowed, and not a reused id. */
  predicate Files(t: Tables, link: Link, c: string, p: Payload) {
    && ClassifyStrict(p).RequestKind? && Refusal(t, link, c, p).None?
    && IdKey(p.id).Some? && FrontendKey(c, IdKey(p.id).value) !in t.requestKeys
  }

  function MessageEffect(t: Tables, link: Link, takes: bool, c: string, p: Payload): (u: Tables)
    ensures SameControl(t, u) && SameSession(t, u) && FewerOwners(t, u)
  {
    if ClassifyStrict(p).ResponseKind? && IdKey(p.id).Some? && Owns(t, c, IdKey(p.id).value)
    then Strike(t, IdKey(p.id).value)
    else if Files(t, link, c, p) then
      if takes then FileRequest(t, c, p.id) else t.(nextFrontend := RemoteNumber(t, c) + 1)
    else t
  }

  function CommandEffect(t: Tables, c: string, action: Action): (u: Tables)
    ensures SameRequests(t, u) && SameSession(t, u) && u.serverOwners == t.serverOwners
    ensures u.options == t.options && u.nextConnection == t.nextConnection
  {
    match action
    case Claim => if t.controller.None? || t.controller == Some(c) then Appoint(t, Some(c)) else t
    case Release => if t.controller == Some(c) then Appoint(t, None) else t
    case Transfer(target) => if t.controller != Some(c) || target !in t.frontends then t else Appoint(t, Some(target))
    case UnknownAction => t
  }

  function FrontendEffect(t: Tables, link: Link, takes: bool, c: string, m: FrontendMessage): (u: Tables)
    ensures SameSession(t, u) && FewerOwners(t, u)
    ensures u.options == t.options && u.nextConnection == t.nextConnection
  {
    if c !in t.frontends then t
    else
      match m
      case AppServerMessage(payload) => if payload.Some? then MessageEffect(t, link, takes, c, payload.value) else t
      case Command(action) => CommandEffect(t, c, action)
      case Unsupported => t
  }

  function ResponseEffect(t: Tables, link: Link, takes: bool, key: string, outcome: Outcome): (u: Tables)
    ensures SameControl(t, u) && u.serverOwners == t.serverOwners && FewerRequests(t, u)
    ensures u.generation == t.generation && u.nextLocal == t.nextLocal && u.localMethods == t.localMethods
  {
    if key in t.localRequests then
      t.(localRequests := t.localRequests - {key},
         ready := t.ready
           || (t.localRequests[key].handler.InitializeHandler? && outcome.Result? && takes && link.reachable))
    else if key in t.requestOwners then Settle(t, key)
    else t
  }

  function RequestEffect(t: Tables, key: string, p: Payload, throws: bool): (u: Tables)
    requires p.Request?
    ensures SameControl(t, u) && SameRequests(t, u) && SameSession(t, u) && KeepsHeld(t, u)
  {
    if key in t.serverOwners then t
    else if p.verb in t.localMethods then
      if throws then t else t.(serverOwners := t.serverOwners[key := LocalApplication(p.id)])
    else if t.controller.Some? && t.controller.value in t.frontends then
      t.(serverOwners := t.serverOwners[key := Frontend(t.controller.value, p.id)])
    else t
  }

  function AppServerEffect(t: Tables, link: Link, takes: bool, p: Payload, throws: bool): (u: Tables)
    ensures SameControl(t, u) && FewerRequests(t, u)
    ensures u.generation == t.generation && u.nextLocal == t.nextLocal && u.localMethods == t.localMethods
  {
    match p
    case Response(id, outcome, _) =>
      if IdKey(id).Some? then ResponseEffect(t, link, takes, IdKey(id).value, outcome) else t
    case Request(id, _, _, _) => if IdKey(id).Some? then RequestEffect(t, IdKey(id).value, p, throws) else t
    case Notification(_, _, _, _) => if ResolvedKey(p).Some? then Strike(t, ResolvedKey(p).value) else t
    case Invalid(_) => t
  }

  function LocalEffect(t: Tables, takes: bool, handler: Handler): (u: Tables)
    ensures SameControl(t, u) && SameRequests(t, u) && u.serverOwners == t.serverOwners
    ensures u.generation == t.generation && u.ready == t.ready && u.localMethods == t.localMethods
  {
    if takes then FileLocally(t, handler) else t.(nextLocal := LocalNumber(t) + 1)
  }

  function RawEffect(t: Tables, takes: bool, p: Payload): (u: Tables)
    ensures SameControl(t, u) && SameRequests(t, u) && FewerOwners(t, u) && KeepsHeld(t, u)
    ensures u.generation == t.generation && u.ready == t.ready && u.nextLocal == t.nextLocal
      && u.localMethods == t.localMethods
  {
    match p
    case Request(id, _, _, _) =>
      if IdKey(id).None? || IdKey(id).value in Outstanding(t) || !takes then t
      else t.(localRequests := t.localRequests[IdKey(id).value := LocalRequest(id, NoHandler)])
    case Response(id, _, _) =>
      if IdKey(id).None? || IdKey(id).value !in t.serverOwners || !t.serverOwners[IdKey(id).value].LocalApplication?
        || !takes
      then t
      else Strike(t, IdKey(id).value)
    case _ => t
  }

  function LeaveEffect(t: Tables, c: string, order: seq<string>): (u: Tables)
    ensures SameSession(t, u) && FewerOwners(t, u) && FewerRequests(t, u)
    ensures u.options == t.options && u.nextConnection == t.nextConnection && u.frontends.Keys == t.frontends.Keys - {c}
  {
    if c !in t.frontends then t
    else Withdraw(DropRequests(t.(serverOwners := t.serverOwners - (set k | k in order)), c), c)
  }

  function Effect(t: Tables, link: Link, takes: bool, input: Input): Tables {
    match input
    case DoRegister => if |t.frontends| >= t.options.maximumFrontends then t else Enroll(t)
    case DoUnregister(c, order) => LeaveEffect(t, c, order)
    case DoReceiveFromFrontend(c, m) => FrontendEffect(t, link, takes, c, m)
    case DoReceiveFromAppServer(p, throws, _) => AppServerEffect(t, link, takes, p, throws)
    case DoConnected => LocalEffect(t.(ready := false, generation := t.generation + 1), takes, InitializeHandler)
    case DoDisconnected(_) => Forget(t)
    case DoRequestLocally(_, _) => LocalEffect(t, takes, UserHandler)
    case DoSendRaw(p) => RawEffect(t, takes, p)
    case DoSetLocalHandler(verb, present) => SetLocalHandler(t, verb, present)
  }

  // ----- the steps have these effects -----------------------------------------------------------

  lemma TransmitTables(s: State, link: Link, p: Payload, origin: Origin)
    ensures Transmit(s, link, p, origin).tables == s.tables
  {
  }

  lemma FromFrontendEffect(s: State, link: Link, c: string, m: FrontendMessage)
    ensures ReceiveFromFrontend(s, link, c, m).tables == FrontendEffect(s.tables, link, Takes(s, link), c, m)
  {
    hide Reject, Diagnose, BroadcastController, IdKey, FrontendKey, RemoteNumber, RemoteId, StringKey, Refusal, Takes,
      Appoint, FileRequest;
  }

  lemma ResponseHasEffect(s: State, link: Link, key: string, p: Payload)
    requires p.Response?
    ensures RouteResponse(s, link, key, p).tables == ResponseEffect(s.tables, link, Takes(s, link), key, p.outcome)
  {
    hide Deliver, Diagnose, BroadcastProvider, Settle;
  }

  lemma RequestHasEffect(s: State, link: Link, key: string, p: Payload, throws: bool)
    requires p.Request?
    ensures RouteServerRequest(s, link, key, p, throws).tables == RequestEffect(s.tables, key, p, throws)
  {
    hide Deliver, Diagnose, Takes;
  }

  lemma FromAppServerEffect(s: State, link: Link, p: Payload, throws: bool, order: seq<string>)
    ensures ReceiveFromAppServer(s, link, p, throws, order).tables ==
            AppServerEffect(s.tables, link, Takes(s, link), p, throws)
  {
    hide Diagnose, Fanout, IdKey, ResolvedKey, RouteResponse, RouteServerRequest, ResponseEffect, RequestEffect, Takes,
      Strike;
    if p.Response? && IdKey(p.id).Some? {
      ResponseHasEffect(s, link, IdKey(p.id).value, p);
    } else if p.Request? && IdKey(p.id).Some? {
      RequestHasEffect(s, link, IdKey(p.id).value, p, throws);
    }
  }

  lemma {:induction false} StruckAll(s: State, link: Link, order: seq<string>)
    ensures FailServerRequests(s, link, order).tables ==
            s.tables.(serverOwners := s.tables.serverOwners - (set k | k in order))
  {
    hide Transmit;
    if order == [] {
      assert s.tables.serverOwners - (set k | k in order) == s.tables.serverOwners;
    } else {
      var before, key := FailServerRequests(s, link, order[..|order| - 1]), order[|order| - 1];
      StruckAll(s, link, order[..|order| - 1]);
      if key in before.tables.serverOwners {
        TransmitTables(before, link, ErrorResponse(before.tables.serverOwners[key].id, -32011), FromBridge);
      }
      MinusOne(s.tables.serverOwners, order);
    }
  }

  lemma MinusOne<V>(owners: map<string, V>, order: seq<string>)
    requires order != []
    ensures var prior, last := order[..|order| - 1], order[|order| - 1];
      && owners - (set k | k in order) == owners - (set k | k in prior) - {last}
      && (last !in owners - (set k | k in prior) ==> owners - (set k | k in order) == owners - (set k | k in prior))
  {
    var prior, last := order[..|order| - 1], order[|order| - 1];
    assert order == prior + [last];
    assert (set k | k in order) == (set k | k in prior) + {last};
  }

  lemma LeaveHasEffect(s: State, link: Link, c: string, order: seq<string>)
    ensures Unregister(s, link, c, order).tables == LeaveEffect(s.tables, c, order)
  {
    hide BroadcastController, FailServerRequests, DropRequests, Withdraw;
    StruckAll(s, link, order);
  }

  lemma LocalHasEffect(s: State, link: Link, verb: string, body: string, handler: Handler)
    ensures RequestLocally(s, link, verb, body, handler).tables == LocalEffect(s.tables, Takes(s, link), handler)
  {
    hide LocalId, LocalNumber, FileLocally, Takes;
  }

  lemma ConnectedEffect(s: State, link: Link)
    ensures AppServerConnected(s, link).tables == Effect(s.tables, link, Takes(s, link), DoConnected)
  {
    hide BroadcastProvider, Diagnose, RequestLocally, LocalEffect;
    var s1 := s.(tables := s.tables.(ready := false, generation := s.tables.generation + 1));
    LocalHasEffect(Diagnose(BroadcastProvider(s1, Connected), "appserver-connected", None),
                   link, "initialize", "clientInfo", InitializeHandler);
  }

  lemma RawHasEffect(s: State, link: Link, p: Payload)
    ensures SendRaw(s, link, p).tables == RawEffect(s.tables, Takes(s, link), p)
  {
    hide IdKey, Takes, Strike;
  }

  lemma RegisterHasEffect(s: State, link: Link)
    ensures Register(s, link).tables == Effect(s.tables, link, Takes(s, link), DoRegister)
  {
    hide Greet, Enroll;
    EnrollsName(s.tables);
  }

  lemma EnrollsName(t: Tables)
    ensures ConnectionName(t.nextConnection) in Enroll(t).frontends
  {
  }

  lemma DisconnectedEffect(s: State, order: seq<string>)
    ensures AppServerDisconnected(s, order).tables == Forget(s.tables)
  {
    hide FailRequests, BroadcastProvider, Diagnose, Forget;
  }

  /** The tables after any step. */
  lemma StepEffect(s: State, link: Link, input: Input)
    ensures Step(s, link, input).tables == Effect(s.tables, link, Takes(s, link), input)
  {
    hide Register, Unregister, ReceiveFromFrontend, ReceiveFromAppServer, AppServerConnected, AppServerDisconnected,
      RequestLocally, SendRaw, Takes, Enroll, LeaveEffect, FrontendEffect, AppServerEffect, LocalEffect, RawEffect,
      Forget;
    match input
    case DoRegister => RegisterHasEffect(s, link);
    case DoUnregister(c, order) => LeaveHasEffect(s, link, c, order);
    case DoReceiveFromFrontend(c, m) => FromFrontendEffect(s, link, c, m);
    case DoReceiveFromAppServer(p, throws, order) => FromAppServerEffect(s, link, p, throws, order);
    case DoConnected => ConnectedEffect(s, link);
    case DoDisconnected(order) => DisconnectedEffect(s, order);
    case DoRequestLocally(verb, body) => LocalHasEffect(s, link, verb, body, UserHandler);
    case DoSendRaw(p) => RawHasEffect(s, link, p);
    case DoSetLocalHandler(verb, present) =>
  }

  // ----- what steps leave alone -----------------------------------------------------------------

  /** The options never change. */
  lemma OptionsStay(t: Tables, link: Link, takes: bool, input: Input)
    ensures Effect(t, link, takes, input).options == t.options
  {
    hide LeaveEffect, FrontendEffect, AppServerEffect, LocalEffect, RawEffect, ConnectionName;
  }

  /** Only the app-server adds server requests. */
  lemma OnlyAppServerAsks(t: Tables, link: Link, takes: bool, input: Input)
    requires !input.DoReceiveFromAppServer?
    ensures FewerOwners(t, Effect(t, link, takes, input))
  {
    hide LeaveEffect, FrontendEffect, LocalEffect, RawEffect, ConnectionName;
  }

  /** What the bridge does for itself takes no server request from a frontend. */
  lemma OtherKeepHeld(t: Tables, link: Link, takes: bool, input: Input)
    requires !input.DoUnregister? && !input.DoReceiveFromFrontend? && !input.DoReceiveFromAppServer?
      && !input.DoDisconnected?
    ensures KeepsHeld(t, Effect(t, link, takes, input))
  {
    hide LocalEffect, RawEffect, ConnectionName;
  }

  /** Only a forwarded request adds to the requests of the frontends, or uses up a number. */
  lemma OnlyForwardingFiles(t: Tables, link: Link, takes: bool, input: Input)
    requires !input.DoReceiveFromFrontend?
    ensures FewerRequests(t, Effect(t, link, takes, input))
  {
    hide LeaveEffect, AppServerEffect, LocalEffect, RawEffect, ConnectionName;
  }

  /** Reverse entries go with the request, with the connection or with the app-server. */
  lemma OtherKeysStay(t: Tables, link: Link, takes: bool, input: Input)
    requires !input.DoUnregister? && !input.DoReceiveFromFrontend? && !input.DoReceiveFromAppServer?
      && !input.DoDisconnected?
    ensures Effect(t, link, takes, input).requestKeys == t.requestKeys
  {
    hide LocalEffect, RawEffect, ConnectionName;
  }
}
