/** What each input brings about, told by the fields of the tables, the logs and the messages sent alone: who is
    obeyed, who is refused and with which code, and who hears of it. */
module Verdicts {
  import opened Wrappers
  import opened JsonRpc
  import opened BridgeState
  import opened BridgeInvariant

  // ----- who hears what -------------------------------------------------------------------------

  /** From `s` to `t` one connection was sent these events, and nobody else anything. */
  ghost predicate Hears(s: State, t: State, c: string, events: seq<Event>) {
    Log(t, c) == Log(s, c) + events && forall d :: d != c ==> Log(t, d) == Log(s, d)
  }

  /** Every registered connection was sent these events. */
  ghost predicate AllHear(s: State, t: State, events: seq<Event>) {
    forall d :: Log(t, d) == Log(s, d) + if d in s.tables.frontends then events else []
  }

  ghost predicate NobodyHears(s: State, t: State) {
    forall d :: Log(t, d) == Log(s, d)
  }

  /** The message of `c` changes nothing and draws one error under its id, or one diagnostic if it has none. */
  ghost predicate Refuses(s: State, t: State, c: string, id: Option<JsonId>, code: int) {
    && t.tables == s.tables && t.up == s.up && c in s.tables.frontends
    && Hears(s, t, c, [RefusalEvent(s, c, id, code)])
  }

  function RefusalEvent(s: State, c: string, id: Option<JsonId>, code: int): Event
    requires c in s.tables.frontends
  {
    if id.Some? then Envelope(c, s.tables.frontends[c], s.sequence + 1, Response(id.value, Error(code), true))
    else Diagnostic("frontend-message-rejected", Some(c), s.sequence + 1)
  }

  /** One message went up, and the transport took it or did not. */
  ghost predicate SendsUp(s: State, t: State, link: Link, p: Payload, origin: Origin) {
    t.up == s.up + [Sent(p, origin, link.reachable && link.takes(|s.up|))]
  }

  lemma RejectRefuses(s: State, c: string, id: Option<JsonId>, code: int)
    requires c in s.tables.frontends
    ensures Refuses(s, Reject(s, c, id, code), c, id, code)
  {
  }

  lemma HeardTwice(s: State, t: State, u: State, first: seq<Event>, second: seq<Event>)
    requires AllHear(s, t, first) && AllHear(t, u, second) && t.tables.frontends == s.tables.frontends
    ensures AllHear(s, u, first + second)
  {
    hide Log;
  }

  lemma HeardStill(s: State, t: State, u: State, events: seq<Event>)
    requires AllHear(s, t, events) && u.down == t.down
    ensures AllHear(s, u, events)
  {
  }

  lemma AnnouncementHeard(s: State, u: State, phase: ProviderPhase, code: string)
    requires u.down == s.down && u.sequence == s.sequence && u.tables.frontends == s.tables.frontends
    ensures AllHear(s, Diagnose(BroadcastProvider(u, phase), code, None),
                    [Provider(phase, u.tables.generation, s.sequence + 1), Diagnostic(code, None, s.sequence + 2)])
  {
    hide BroadcastProvider, Diagnose, AllHear;
    var t := BroadcastProvider(u, phase);
    ProviderHeard(s, u, phase);
    DiagnoseHeardFrom(t, t, code);
    var first, second := Provider(phase, u.tables.generation, s.sequence + 1), Diagnostic(code, None, s.sequence + 2);
    HeardTwice(s, t, Diagnose(t, code, None), [first], [second]);
    assert [first] + [second] == [first, second];
  }

  lemma ProviderHeard(s: State, u: State, phase: ProviderPhase)
    requires u.down == s.down && u.sequence == s.sequence && u.tables.frontends == s.tables.frontends
    ensures AllHear(s, BroadcastProvider(u, phase), [Provider(phase, u.tables.generation, s.sequence + 1)])
    ensures BroadcastProvider(u, phase).sequence == s.sequence + 1
  {
  }

  // ----- requests and notifications of a frontend -----------------------------------------------

  /** A message no frontend may send as it stands. */
  lemma InvalidVerdict(s: State, link: Link, c: string, p: Payload)
    requires c in s.tables.frontends
    requires p.Invalid? || !p.strict || (!p.Notification? && p.id.Other?)
    ensures var id := if p.Invalid? then p.ident else if p.Notification? then None else Some(p.id);
      Refuses(s, ReceiveFromFrontend(s, link, c, AppServerMessage(Some(p))), c, id, -32600)
  {
    hide Refuses, Reject;
    RejectRefuses(s, c, Ident(p), -32600);
  }

  /** The controller may send anything, anybody else only listed requests, and only if that is allowed at all. */
  ghost predicate Authorised(t: Tables, c: string, p: Payload)
    requires p.Request? || p.Notification?
  {
    || t.controller == Some(c)
    || (t.options.observersMayRead && p.Request? && p.verb in ReadOnlyMethods)
  }

  /** What goes up for a frontend is what it sent, but for the id. */
  ghost predicate SameCall(sent: Payload, p: Payload)
    requires p.Request? || p.Notification?
  {
    if p.Notification? then sent == p
    else sent.Request? && sent.verb == p.verb && sent.body == p.body && sent.strict == p.strict
  }

  /** The request uses the id of one of this connection's requests that is still outstanding. */
  ghost predicate Reused(t: Tables, c: string, p: Payload) {
    p.Request? && IdKey(p.id).Some? && c + "\n" + IdKey(p.id).value in t.requestKeys
  }

  /** Everything that can become of a request or notification: the reasons to refuse it, in their order, and
      otherwise exactly one message upstream for its sender. */
  lemma CallVerdict(s: State, link: Link, c: string, p: Payload)
    requires RolesAgree(s.tables) && c in s.tables.frontends
    requires (p.Request? && p.strict && !p.id.Other?) || (p.Notification? && p.strict)
    ensures var t := ReceiveFromFrontend(s, link, c, AppServerMessage(Some(p)));
      var id := if p.Request? then Some(p.id) else None;
      if p.verb == "initialize" || p.verb == "initialized" then Refuses(s, t, c, id, -32003)
      else if !Authorised(s.tables, c, p) then Refuses(s, t, c, id, -32001)
      else if !link.reachable || !s.tables.ready then Refuses(s, t, c, id, -32002)
      else if Reused(s.tables, c, p) then Refuses(s, t, c, id, -32600)
      else
        && |t.up| == |s.up| + 1 && SendsUp(s, t, link, t.up[|s.up|].payload, FromFrontend(c))
        && SameCall(t.up[|s.up|].payload, p)
        && if t.up[|s.up|].accepted then NobodyHears(s, t)
           else Hears(s, t, c, [RefusalEvent(s, c, id, -32005)])
  {
    hide Refuses, Hears, Reject, IdKey, RemoteNumber, RemoteId, StringKey, IsConnectionName;
    if p.Request? {
      KeylessIsOther(p.id);
    }
    forall code, after: State | after.tables.frontends == s.tables.frontends && after.down == s.down
                                && after.sequence == s.sequence
      ensures Hears(s, Reject(after, c, Ident(p), code), c, [RefusalEvent(s, c, Ident(p), code)])
      ensures Refuses(after, Reject(after, c, Ident(p), code), c, Ident(p), code)
    {
      RejectRefuses(after, c, Ident(p), code);
      RefusedFrom(s, after, c, Ident(p), code);
    }
  }

  lemma KeylessIsOther(id: JsonId)
    ensures IdKey(id).Some? <==> !id.Other?
  {
  }

  lemma RefusedFrom(s: State, after: State, c: string, id: Option<JsonId>, code: int)
    requires after.tables.frontends == s.tables.frontends && after.down == s.down && after.sequence == s.sequence
    requires c in s.tables.frontends
    ensures Hears(s, Reject(after, c, id, code), c, [RefusalEvent(s, c, id, code)])
  {
  }

  /** The converse of Routing.ForwardAuthority: such a message goes up exactly when its sender is the controller, or
      may read as an observer, the session is ready, and the id is free. */
  lemma ForwardedExactly(s: State, link: Link, c: string, p: Payload)
    requires RolesAgree(s.tables) && c in s.tables.frontends
    requires (p.Request? && p.strict && !p.id.Other?) || (p.Notification? && p.strict)
    ensures |ReceiveFromFrontend(s, link, c, AppServerMessage(Some(p))).up| > |s.up| <==>
      && p.verb != "initialize" && p.verb != "initialized"
      && (s.tables.controller == Some(c) ||
          (s.tables.options.observersMayRead && p.Request? && p.verb in ReadOnlyMethods))
      && link.reachable && s.tables.ready
      && (p.Request? ==> c + "\n" + IdKey(p.id).value !in s.tables.requestKeys)
  {
    hide ReceiveFromFrontend, IdKey, RolesAgree;
    if p.Request? {
      KeylessIsOther(p.id);
    }
    CallVerdict(s, link, c, p);
  }

  // ----- responses and commands of a frontend ---------------------------------------------------

  /** Only the holder of a server request may answer it; the request is done with whether or not the answer is
      taken. */
  lemma ResponseVerdict(s: State, link: Link, c: string, p: Payload)
    requires c in s.tables.frontends && p.Response? && p.strict && !p.id.Other?
    ensures var t := ReceiveFromFrontend(s, link, c, AppServerMessage(Some(p))); var k := IdKey(p.id).value;
      if k in s.tables.serverOwners && s.tables.serverOwners[k].Frontend? && s.tables.serverOwners[k].connectionId == c
      then
        && SendsUp(s, t, link, p, FromFrontend(c))
        && t.tables == s.tables.(serverOwners := s.tables.serverOwners - {k})
        && if link.reachable && link.takes(|s.up|) then NobodyHears(s, t)
           else Hears(s, t, c, [RefusalEvent(s, c, Some(p.id), -32005)])
      else Refuses(s, t, c, Some(p.id), -32004)
  {
    hide Reject, IdKey, Refuses, Hears;
    KeylessIsOther(p.id);
    forall code, after: State | after.tables.frontends == s.tables.frontends && after.down == s.down
                                && after.sequence == s.sequence
      ensures Hears(s, Reject(after, c, Some(p.id), code), c, [RefusalEvent(s, c, Some(p.id), code)])
      ensures Refuses(after, Reject(after, c, Some(p.id), code), c, Some(p.id), code)
    {
      RejectRefuses(after, c, Some(p.id), code);
      RefusedFrom(s, after, c, Some(p.id), code);
    }
  }

  /** A message without payload or of an unknown kind draws a diagnostic; one of an unknown connection nothing. */
  lemma OtherMessageVerdict(s: State, link: Link, c: string, m: FrontendMessage)
    ensures c !in s.tables.frontends ==> ReceiveFromFrontend(s, link, c, m) == s
    ensures c in s.tables.frontends && (m.Unsupported? || m == AppServerMessage(None)) ==>
      Refuses(s, ReceiveFromFrontend(s, link, c, m), c, None, -32600)
  {
    hide Refuses, Reject;
    if c in s.tables.frontends {
      RejectRefuses(s, c, None, -32600);
    }
  }

  /** Control passed to `next`, and everybody was told: the one who has it is controller, all others observe. */
  ghost predicate Controls(s: State, t: State, next: Option<string>) {
    && t.tables == s.tables.(frontends := t.tables.frontends, controller := next) && t.up == s.up
    && t.tables.frontends.Keys == s.tables.frontends.Keys
    && (forall d :: d in t.tables.frontends ==>
          t.tables.frontends[d] == if next == Some(d) then Controller else Observer)
    && AllHear(s, t, [ControllerIs(next, s.sequence + 1)])
  }

  /** Nothing changed, and only the sender was told why. */
  ghost predicate Complains(s: State, t: State, c: string, code: string) {
    t.tables == s.tables && t.up == s.up && Hears(s, t, c, [Diagnostic(code, Some(c), s.sequence + 1)])
  }

  lemma AppointControls(s: State, next: Option<string>)
    requires RolesAgree(s.tables) && (next.Some? ==> next.value in s.tables.frontends)
    ensures Controls(s, SetController(s, next), next)
  {
    hide IsConnectionName;
  }

  lemma DiagnoseComplains(s: State, c: string, code: string)
    requires c in s.tables.frontends
    ensures Complains(s, Diagnose(s, code, Some(c)), c, code)
  {
  }

  /** Control can be claimed while it is free, kept, released by its holder, and handed by its holder to anybody
      registered; every other command is refused. */
  lemma CommandVerdict(s: State, link: Link, c: string, action: Action)
    requires RolesAgree(s.tables) && c in s.tables.frontends
    ensures var t := ReceiveFromFrontend(s, link, c, Command(action)); var holds := s.tables.controller == Some(c);
      match action
      case Claim =>
        if holds || s.tables.controller.None? then Controls(s, t, Some(c))
        else Complains(s, t, c, "controller-claim-rejected")
      case Release => if holds then Controls(s, t, None) else Complains(s, t, c, "controller-release-rejected")
      case Transfer(target) =>
        if holds && target in s.tables.frontends then Controls(s, t, Some(target))
        else Complains(s, t, c, "controller-transfer-rejected")
      case UnknownAction => Complains(s, t, c, "controller-command-invalid")
  {
    hide Controls, Complains, SetController, Diagnose, RolesAgree;
    forall code
      ensures Complains(s, Diagnose(s, code, Some(c)), c, code)
    {
      DiagnoseComplains(s, c, code);
    }
    AppointControls(s, Some(c));
    AppointControls(s, None);
    if action.Transfer? && action.target in s.tables.frontends {
      AppointControls(s, Some(action.target));
    }
  }

  // ----- messages from the app-server -----------------------------------------------------------

  /** The bridge answered the app-server in its own name, with an error, and changed nothing. */
  ghost predicate AnswersWith(s: State, t: State, link: Link, id: JsonId, code: int, origin: Origin) {
    t.tables == s.tables && SendsUp(s, t, link, Response(id, Error(code), true), origin)
  }

  /** A server request is refused when its id is taken, handled locally when a handler is there, delivered to the
      controller when there is one, and refused otherwise. */
  lemma ServerRequestVerdict(s: State, link: Link, p: Payload, throws: bool, order: seq<string>)
    requires p.Request? && !p.id.Other?
    ensures var t, k, c := ReceiveFromAppServer(s, link, p, throws, order), IdKey(p.id).value, s.tables.controller;
      if k in s.tables.serverOwners then
        && AnswersWith(s, t, link, p.id, -32600, FromBridge)
        && AllHear(s, t, [Diagnostic("duplicate-appserver-request-id", None, s.sequence + 1)])
      else if p.verb in s.tables.localMethods then
        && NobodyHears(s, t)
        && if throws then AnswersWith(s, t, link, p.id, -32603, FromLocal)
           else t.up == s.up &&
                t.tables == s.tables.(serverOwners := s.tables.serverOwners[k := LocalApplication(p.id)])
      else if c.Some? && c.value in s.tables.frontends then
        && t.up == s.up && t.tables == s.tables.(serverOwners := s.tables.serverOwners[k := Frontend(c.value, p.id)])
        && Hears(s, t, c.value, [Envelope(c.value, s.tables.frontends[c.value], s.sequence + 1, p)])
      else
        && AnswersWith(s, t, link, p.id, -32010, FromBridge)
        && AllHear(s, t, [Diagnostic("appserver-request-without-handler", None, s.sequence + 1)])
  {
    hide IdKey, Deliver, Diagnose, Hears, AllHear, NobodyHears, AnswersWith;
    KeylessIsOther(p.id);
    TurnedAway(s, link, p.id, -32600, "duplicate-appserver-request-id");
    TurnedAway(s, link, p.id, -32010, "appserver-request-without-handler");
    assert AnswersWith(s, Transmit(s, link, ErrorResponse(p.id, -32603), FromLocal), link, p.id, -32603, FromLocal) by {
      TransmitAnswers(s, link, p.id, -32603);
    }
    SilentHeard(s);
    var c := s.tables.controller;
    if c.Some? && c.value in s.tables.frontends {
      var owners := s.tables.serverOwners[IdKey(p.id).value := Frontend(c.value, p.id)];
      DeliverHeardFrom(s, s.(tables := s.tables.(serverOwners := owners)), c.value, p);
    }
  }

  lemma TurnedAway(s: State, link: Link, id: JsonId, code: int, reason: string)
    ensures var t := Diagnose(Transmit(s, link, ErrorResponse(id, code), FromBridge), reason, None);
      AnswersWith(s, t, link, id, code, FromBridge) && AllHear(s, t, [Diagnostic(reason, None, s.sequence + 1)])
  {
    hide Diagnose, AllHear;
    DiagnoseHeardFrom(s, Transmit(s, link, ErrorResponse(id, code), FromBridge), reason);
  }

  lemma TransmitAnswers(s: State, link: Link, id: JsonId, code: int)
    ensures AnswersWith(s, Transmit(s, link, ErrorResponse(id, code), FromLocal), link, id, code, FromLocal)
  {
  }

  lemma SilentHeard(s: State)
    ensures forall u: State :: u.down == s.down ==> NobodyHears(s, u)
  {
  }

  lemma DiagnoseHeardFrom(s: State, u: State, code: string)
    requires u.down == s.down && u.sequence == s.sequence && u.tables.frontends == s.tables.frontends
    ensures AllHear(s, Diagnose(u, code, None), [Diagnostic(code, None, s.sequence + 1)])
  {
  }

  lemma DeliverHeardFrom(s: State, u: State, c: string, p: Payload)
    requires u.down == s.down && u.sequence == s.sequence && u.tables.frontends == s.tables.frontends
    requires c in s.tables.frontends
    ensures Hears(s, Deliver(u, c, p), c, [Envelope(c, s.tables.frontends[c], s.sequence + 1, p)])
  {
  }

  /** A response nobody waits for, and a message that is none, draw a diagnostic and nothing else. */
  lemma UnmatchedVerdict(s: State, link: Link, p: Payload, throws: bool, order: seq<string>)
    requires p.Invalid? || ((p.Response? || p.Request?) && p.id.Other?) ||
             (p.Response? && IdKey(p.id).Some? && IdKey(p.id).value !in Outstanding(s.tables))
    ensures var t := ReceiveFromAppServer(s, link, p, throws, order);
      var code := if p.Response? && !p.id.Other? then "unmatched-appserver-response" else "invalid-appserver-message";
      t.tables == s.tables && t.up == s.up && AllHear(s, t, [Diagnostic(code, None, s.sequence + 1)])
  {
    hide IdKey, Diagnose, AllHear;
    if !p.Invalid? {
      KeylessIsOther(p.id);
    }
    DiagnoseHeardFrom(s, s, "unmatched-appserver-response");
    DiagnoseHeardFrom(s, s, "invalid-appserver-message");
  }

  /** The answer to a request of the bridge's own process settles it. The answer to initialize also ends the
      handshake: a success is acknowledged, and once the acknowledgement is taken everybody hears that the session
      is ready. */
  lemma LocalResponseVerdict(s: State, link: Link, p: Payload, throws: bool, order: seq<string>)
    requires p.Response? && IdKey(p.id).Some? && IdKey(p.id).value in s.tables.localRequests
    ensures var t, k := ReceiveFromAppServer(s, link, p, throws, order), IdKey(p.id).value;
      var settled := s.tables.(localRequests := s.tables.localRequests - {k});
      var taken := link.reachable && link.takes(|s.up|);
      if s.tables.localRequests[k].handler.InitializeHandler? && p.outcome.Result? then
        && SendsUp(s, t, link, Notification("initialized", "", None, true), FromLocal)
        && if taken && !s.tables.ready then
             && t.tables == settled.(ready := true)
             && AllHear(s, t, [Provider(Ready, s.tables.generation, s.sequence + 1),
                               Diagnostic("appserver-ready", None, s.sequence + 2)])
           else t.tables == settled && NobodyHears(s, t)
      else t.tables == settled && t.up == s.up && NobodyHears(s, t)
  {
    hide IdKey, BroadcastProvider, Diagnose, AllHear;
    var k := IdKey(p.id).value;
    var sent := Transmit(s.(tables := s.tables.(localRequests := s.tables.localRequests - {k})), link,
                         InitializedNotification, FromLocal);
    AnnouncementHeard(s, sent.(tables := sent.tables.(ready := true)), Ready, "appserver-ready");
  }

  /** A notification releases the server request it names as resolved, and changes no other table. */
  lemma NotificationVerdict(s: State, link: Link, p: Payload, throws: bool, order: seq<string>)
    requires p.Notification?
    ensures var t := ReceiveFromAppServer(s, link, p, throws, order);
      && t.up == s.up
      && t.tables ==
           if p.verb == "serverRequest/resolved" && p.resolves.Some? && IdKey(p.resolves.value).Some?
           then s.tables.(serverOwners := s.tables.serverOwners - {IdKey(p.resolves.value).value}) else s.tables
  {
    hide IdKey, Fanout;
  }

  // ----- coming and going -----------------------------------------------------------------------

  /** A newcomer is greeted with its role, the provider's state and the controller, in this order; it takes control
      if it may and nobody has it; the others hear who is controller. */
  lemma RegistrationVerdict(s: State, link: Link)
    requires RolesAgree(s.tables)
    ensures var t, c := Register(s, link), ConnectionName(s.tables.nextConnection);
      if |s.tables.frontends| >= s.tables.options.maximumFrontends then t == s
      else
        var leads := s.tables.options.firstFrontendBecomesController && s.tables.controller.None?;
        var role := if leads then Controller else Observer;
        var controller := if leads then Some(c) else s.tables.controller;
        var phase := if s.tables.ready then Ready else if link.reachable then Connected else Disconnected;
        && t.up == s.up && c !in s.tables.frontends
        && t.tables == s.tables.(frontends := s.tables.frontends[c := role], controller := controller,
                                 nextConnection := s.tables.nextConnection + 1)
        && Log(t, c) == [Opened(c, role, s.sequence + 1), Provider(phase, s.tables.generation, s.sequence + 2),
                         ControllerIs(controller, s.sequence + 3)]
        && forall d :: d != c ==>
             Log(t, d) == Log(s, d) + if d in s.tables.frontends then [ControllerIs(controller, s.sequence + 3)] else []
  {
    hide ConnectionName, Greet, Log, RolesAgree;
    var c := ConnectionName(s.tables.nextConnection);
    NewName(s.tables);
    var u := s.(tables := Enroll(s.tables), down := s.down[c := []]);
    GreetHeard(u, link, c, u.tables.frontends[c]);
    assert forall d :: d != c ==> Log(u, d) == Log(s, d) by { Forgotten(s, u, c); }
  }

  lemma NewName(t: Tables)
    requires RolesAgree(t)
    ensures ConnectionName(t.nextConnection) !in t.frontends
  {
    hide ConnectionName;
    ConnectionNameIsNew(t.nextConnection);
  }

  lemma Forgotten(s: State, u: State, c: string)
    requires u.down == s.down[c := []]
    ensures Log(u, c) == [] && forall d :: d != c ==> Log(u, d) == Log(s, d)
  {
  }

  lemma GreetHeard(u: State, link: Link, c: string, role: Role)
    requires c in u.tables.frontends && c in u.down && u.down[c] == []
    ensures var t := Greet(u, link, c, role); var controller := u.tables.controller;
      var phase := if u.tables.ready then Ready else if link.reachable then Connected else Disconnected;
      && Log(t, c) == [Opened(c, role, u.sequence + 1), Provider(phase, u.tables.generation, u.sequence + 2),
                       ControllerIs(controller, u.sequence + 3)]
      && forall d :: d != c ==>
           Log(t, d) == Log(u, d) + if d in u.tables.frontends then [ControllerIs(controller, u.sequence + 3)] else []
  {
  }

  /** Who leaves takes along its requests, the server requests it held, and control if it had it; only then the
      others hear of it. */
  lemma DepartureVerdict(s: State, link: Link, c: string, order: seq<string>)
    requires Enumerates(order, OwnedBy(s.tables, c))
    ensures var t := Unregister(s, link, c, order);
      if c !in s.tables.frontends then t == s
      else
        && t.tables.frontends == s.tables.frontends - {c}
        && t.tables.controller == (if s.tables.controller == Some(c) then None else s.tables.controller)
        && (forall u :: u in t.tables.requestOwners <==>
              u in s.tables.requestOwners && s.tables.requestOwners[u].connectionId != c)
        && (forall k :: k in t.tables.serverOwners <==>
              && k in s.tables.serverOwners
              && !(s.tables.serverOwners[k].Frontend? && s.tables.serverOwners[k].connectionId == c))
        && (if s.tables.controller == Some(c)
            then forall d :: Log(t, d) == Log(s, d) +
                   if d in s.tables.frontends && d != c then [ControllerIs(None, s.sequence + 1)] else []
            else NobodyHears(s, t))
  {
    hide FailServerRequests, Enumerates;
    FailServerRequestsTables(s, link, order);
    InOrder(order, OwnedBy(s.tables, c));
  }

  lemma InOrder(order: seq<string>, all: set<string>)
    requires Enumerates(order, all)
    ensures forall x :: x in order <==> x in all
  {
  }

  /** The app-server comes up: a new generation, not ready, in which initialize is sent first. */
  lemma ConnectedVerdict(s: State, link: Link)
    ensures var t, g := AppServerConnected(s, link), s.tables.generation + 1;
      && t.tables.generation == g && !t.tables.ready && |t.up| == |s.up| + 1
      && (exists id :: SendsUp(s, t, link, Request(id, "initialize", "clientInfo", true), FromLocal))
      && AllHear(s, t, [Provider(Connected, g, s.sequence + 1),
                        Diagnostic("appserver-connected", None, s.sequence + 2)])
  {
    hide LocalId, LocalNumber, Diagnose, BroadcastProvider, AllHear;
    var u := s.(tables := s.tables.(ready := false, generation := s.tables.generation + 1));
    var id := LocalId(u.tables);
    AnnouncementHeard(s, u, Connected, "appserver-connected");
    HeardStill(s, Diagnose(BroadcastProvider(u, Connected), "appserver-connected", None), AppServerConnected(s, link),
               [Provider(Connected, u.tables.generation, s.sequence + 1),
                Diagnostic("appserver-connected", None, s.sequence + 2)]);
    assert SendsUp(s, AppServerConnected(s, link), link, Request(id, "initialize", "clientInfo", true), FromLocal);
  }

  /** The app-server goes: all that was outstanding is forgotten, and after the errors for it every frontend hears
      that the provider is gone. */
  lemma DisconnectedVerdict(s: State, order: seq<string>, c: string)
    requires c in s.tables.frontends
    ensures var t := AppServerDisconnected(s, order);
      && t.up == s.up
      && t.tables == s.tables.(ready := false, localRequests := map[], requestOwners := map[], requestKeys := map[],
                               serverOwners := map[])
      && exists more: seq<Event>, n: nat ::
           Failures(more) &&
           Log(t, c) == Log(s, c) + more + [Provider(Disconnected, s.tables.generation, n),
                                            Diagnostic("appserver-disconnected", None, n + 1)]
  {
    hide FailRequests, Log, BroadcastProvider, Diagnose;
    var s1 := s.(tables := Forget(s.tables));
    var u := FailRequests(s1, s.tables.requestOwners, order);
    var more := FailuresHeard(s1, s.tables.requestOwners, order, c);
    assert Log(s1, c) == Log(s, c) by { Same(s, s1, c); }
    AnnouncementHeard(u, u, Disconnected, "appserver-disconnected");
    assert Log(AppServerDisconnected(s, order), c) == Log(u, c) +
      [Provider(Disconnected, s.tables.generation, u.sequence + 1),
       Diagnostic("appserver-disconnected", None, u.sequence + 1 + 1)];
  }

  lemma Same(s: State, t: State, c: string)
    requires s.down == t.down
    ensures Log(s, c) == Log(t, c)
  {
  }

  ghost predicate Failures(more: seq<Event>) {
    forall e :: e in more ==> e.Envelope? && e.payload.Response? && e.payload.outcome == Error(-32002)
  }

  lemma {:induction false} FailuresHeard(s: State, lost: map<string, FrontendRequest>, order: seq<string>, c: string)
    returns (more: seq<Event>)
    ensures Failures(more) && Log(FailRequests(s, lost, order), c) == Log(s, c) + more
  {
    more := [];
    if order != [] {
      var before := FailRequests(s, lost, order[..|order| - 1]);
      more := FailuresHeard(s, lost, order[..|order| - 1], c);
      var key := order[|order| - 1];
      if key in lost && c in before.tables.frontends && lost[key].connectionId == c {
        more := more + [Envelope(c, before.tables.frontends[c], before.sequence + 1,
                                 ErrorResponse(lost[key].frontendId, -32002))];
      }
    }
  }

  // ----- the bridge's own process ---------------------------------------------------------------

  /** A local request is awaited exactly when the transport took it. */
  lemma LocalRequestVerdict(s: State, link: Link, verb: string, body: string)
    ensures var t := Step(s, link, DoRequestLocally(verb, body)); var taken := link.reachable && link.takes(|s.up|);
      && NobodyHears(s, t)
      && exists id :: SendsUp(s, t, link, Request(id, verb, body, true), FromLocal) && IdKey(id).Some? &&
           IdKey(id).value !in Outstanding(s.tables) &&
           t.tables.localRequests ==
             if taken then s.tables.localRequests[IdKey(id).value := LocalRequest(id, UserHandler)]
             else s.tables.localRequests
  {
    hide LocalNumber, Numbered, Escape;
    var id := LocalId(s.tables);
    var t := Step(s, link, DoRequestLocally(verb, body));
    FirstFreeIsFirst(LocalPrefix(s.tables.generation), s.tables.nextLocal, Outstanding(s.tables));
    LocalIdKey(s.tables);
    assert SendsUp(s, t, link, Request(id, verb, body, true), FromLocal);
  }

  lemma LocalIdKey(t: Tables)
    ensures LocalId(t).Str? && IdKey(LocalId(t)) == Some(StringKey(LocalId(t).text))
    ensures StringKey(LocalId(t).text) !in Outstanding(t)
  {
    hide Numbered;
    FirstFreeIsFirst(LocalPrefix(t.generation), t.nextLocal, Outstanding(t));
  }

  /** A raw message of the application: a request needs an id that is not awaited, a response a server request the
      application holds. */
  lemma RawVerdict(s: State, link: Link, p: Payload)
    ensures var t := SendRaw(s, link, p); var taken := link.reachable && link.takes(|s.up|);
      var key := if p.Request? || p.Response? then IdKey(p.id) else None;
      var fits := p.Notification? || (p.Request? && key.Some? && key.value !in Outstanding(s.tables)) ||
        (p.Response? && key.Some? && key.value in s.tables.serverOwners &&
         s.tables.serverOwners[key.value].LocalApplication?);
      if !fits then t == s
      else
        && SendsUp(s, t, link, p, FromLocal) && NobodyHears(s, t)
        && t.tables ==
             if !taken || p.Notification? then s.tables
             else if p.Response? then s.tables.(serverOwners := s.tables.serverOwners - {key.value})
             else s.tables.(localRequests := s.tables.localRequests[key.value := LocalRequest(p.id, NoHandler)])
  {
    hide IdKey;
  }

  /** Registering a handler for a method makes the bridge's own process serve it, and removing it ends that. */
  lemma HandlerVerdict(s: State, link: Link, verb: string, present: bool)
    ensures var t := Step(s, link, DoSetLocalHandler(verb, present));
      && t == s.(tables := s.tables.(localMethods := t.tables.localMethods))
      && forall m :: m in t.tables.localMethods <==> if m == verb then present else m in s.tables.localMethods
  {
  }
}
