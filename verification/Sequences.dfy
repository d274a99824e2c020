/** The numbers on the events: in every log they increase strictly, over the whole life of the bridge. And no event
    calls a provider ready before the first generation began. */
module Sequences {
  import opened Wrappers
  import opened JsonRpc
  import opened BridgeState
  import opened BridgeEffects
  import opened BridgeRuns
  import H = Handshake

  /** A ready provider belongs to some generation. */
  predicate Fine(e: Event) {
    e.Provider? && e.phase.Ready? ==> e.generation > 0
  }

  ghost predicate OrderlyLog(log: seq<Event>, bound: nat) {
    && (forall i :: 0 <= i < |log| ==> log[i].seqNo <= bound && Fine(log[i]))
    && (forall i, j :: 0 <= i < j < |log| ==> log[i].seqNo < log[j].seqNo)
  }

  ghost predicate Orderly(s: State) {
    forall c :: c in s.down ==> OrderlyLog(s.down[c], s.sequence)
  }

  /** Readiness, and the wait for it, belong to a generation. */
  ghost predicate Begun(t: Tables) {
    && (t.ready ==> t.generation > 0)
    && (forall k :: k in t.localRequests && t.localRequests[k].handler.InitializeHandler? ==> t.generation > 0)
  }

  // ----- sending --------------------------------------------------------------------------------

  lemma OneMore(log: seq<Event>, bound: nat, e: Event)
    requires OrderlyLog(log, bound) && e.seqNo == bound + 1 && Fine(e)
    ensures OrderlyLog(log + [e], bound + 1)
  {
  }

  lemma Later(log: seq<Event>, bound: nat, later: nat)
    requires OrderlyLog(log, bound) && bound <= later
    ensures OrderlyLog(log, later)
  {
  }

  lemma SendOrderly(s: State, c: string, e: Event)
    requires Orderly(s) && e.seqNo == s.sequence + 1 && Fine(e)
    ensures Orderly(SendTo(Tick(s), c, e))
  {
    hide OrderlyLog;
    var t := SendTo(Tick(s), c, e);
    forall d | d in t.down
      ensures OrderlyLog(t.down[d], t.sequence)
    {
      NoEvents();
      if d in s.down {
        Later(s.down[d], s.sequence, t.sequence);
      }
      OneMore(Log(s, d), s.sequence, e);
    }
  }

  lemma BroadcastOrderly(s: State, e: Event)
    requires Orderly(s) && e.seqNo == s.sequence + 1 && Fine(e)
    ensures Orderly(Broadcast(Tick(s), e))
  {
    hide OrderlyLog;
    var t := Broadcast(Tick(s), e);
    forall d | d in t.down
      ensures OrderlyLog(t.down[d], t.sequence)
    {
      NoEvents();
      if d in s.down {
        Later(s.down[d], s.sequence, t.sequence);
      }
      OneMore(Log(s, d), s.sequence, e);
    }
  }

  lemma NoEvents()
    ensures forall bound: nat :: OrderlyLog([], bound)
  {
  }

  lemma SameLogs(s: State, t: State)
    requires Orderly(s) && t.down == s.down && t.sequence == s.sequence
    ensures Orderly(t)
  {
  }

  lemma AnnouncementsOrderly()
    ensures forall s: State :: Orderly(s) ==> Orderly(BroadcastController(s))
    ensures forall s: State, phase: ProviderPhase :: Orderly(s) && (phase.Ready? ==> s.tables.generation > 0) ==>
              Orderly(BroadcastProvider(s, phase))
    ensures forall s: State, code, about :: Orderly(s) ==> Orderly(Diagnose(s, code, about))
  {
    hide Orderly, Broadcast, SendTo;
    forall s: State | Orderly(s)
      ensures Orderly(BroadcastController(s))
    {
      BroadcastOrderly(s, ControllerIs(s.tables.controller, s.sequence + 1));
    }
    forall s: State, phase: ProviderPhase | Orderly(s) && (phase.Ready? ==> s.tables.generation > 0)
      ensures Orderly(BroadcastProvider(s, phase))
    {
      BroadcastOrderly(s, Provider(phase, s.tables.generation, s.sequence + 1));
    }
    forall s: State, code, about: Option<string> | Orderly(s)
      ensures Orderly(Diagnose(s, code, about))
    {
      var e := Diagnostic(code, about, s.sequence + 1);
      BroadcastOrderly(s, e);
      if about.Some? {
        SendOrderly(s, about.value, e);
      }
    }
  }

  lemma DeliveriesOrderly()
    ensures forall s: State, c, p :: Orderly(s) ==> Orderly(Deliver(s, c, p))
    ensures forall s: State, c, id, code :: Orderly(s) ==> Orderly(Reject(s, c, id, code))
  {
    hide Orderly, SendTo, Diagnose;
    forall s: State, c, p | Orderly(s)
      ensures Orderly(Deliver(s, c, p))
    {
      if c in s.tables.frontends {
        SendOrderly(s, c, Envelope(c, s.tables.frontends[c], s.sequence + 1, p));
      }
    }
    AnnouncementsOrderly();
  }

  lemma {:induction false} FanoutOrderly(s: State, order: seq<string>, p: Payload)
    requires Orderly(s)
    ensures Orderly(Fanout(s, order, p))
  {
    hide Orderly, Deliver;
    DeliveriesOrderly();
    if order != [] {
      FanoutOrderly(s, order[..|order| - 1], p);
    }
  }

  lemma {:induction false} FailRequestsOrderly(s: State, lost: map<string, FrontendRequest>, order: seq<string>)
    requires Orderly(s)
    ensures Orderly(FailRequests(s, lost, order))
  {
    hide Orderly, Deliver;
    DeliveriesOrderly();
    if order != [] {
      FailRequestsOrderly(s, lost, order[..|order| - 1]);
    }
  }

  lemma {:induction false} FailServerRequestsOrderly(s: State, link: Link, order: seq<string>)
    ensures var t := FailServerRequests(s, link, order); t.down == s.down && t.sequence == s.sequence
  {
    if order != [] {
      FailServerRequestsOrderly(s, link, order[..|order| - 1]);
    }
  }

  // ----- steps ----------------------------------------------------------------------------------

  lemma RegisterOrderly(s: State, link: Link)
    requires Orderly(s) && Begun(s.tables)
    ensures Orderly(Register(s, link))
  {
    hide Greet, Orderly, ConnectionName;
    var c := ConnectionName(s.tables.nextConnection);
    var u := s.(tables := Enroll(s.tables), down := s.down[c := []]);
    FreshOrderly(s, u, c);
    GreetOrderly(u, link, c, u.tables.frontends[c]);
  }

  lemma FreshOrderly(s: State, u: State, c: string)
    requires Orderly(s) && u.sequence == s.sequence && u.down == s.down[c := []]
    ensures Orderly(u)
  {
    hide OrderlyLog;
    NoEvents();
  }

  lemma GreetOrderly(u: State, link: Link, c: string, role: Role)
    requires Orderly(u) && Begun(u.tables)
    ensures Orderly(Greet(u, link, c, role))
  {
    hide Orderly, SendTo, BroadcastController;
    SendOrderly(u, c, Opened(c, role, u.sequence + 1));
    var v := SendTo(Tick(u), c, Opened(c, role, u.sequence + 1));
    var phase := if v.tables.ready then Ready else if link.reachable then Connected else Disconnected;
    SendOrderly(v, c, Provider(phase, v.tables.generation, v.sequence + 1));
    AnnouncementsOrderly();
  }

  lemma CommandOrderly(s: State, c: string, action: Action)
    requires Orderly(s)
    ensures Orderly(HandleCommand(s, c, action))
  {
    hide Orderly, Diagnose, BroadcastController, Appoint;
    forall t: State | t.down == s.down && t.sequence == s.sequence
      ensures Orderly(t)
    {
      SameLogs(s, t);
    }
    AnnouncementsOrderly();
  }

  lemma FromFrontendOrderly(s: State, link: Link, c: string, m: FrontendMessage)
    requires Orderly(s)
    ensures Orderly(ReceiveFromFrontend(s, link, c, m))
  {
    hide Orderly, Reject, HandleCommand, IdKey, FrontendKey, RemoteId, RemoteNumber, Refusal, Takes, FileRequest, Owns;
    forall t: State | t.down == s.down && t.sequence == s.sequence
      ensures Orderly(t)
    {
      SameLogs(s, t);
    }
    DeliveriesOrderly();
    if m.Command? {
      CommandOrderly(s, c, m.action);
    }
  }

  lemma RouteResponseOrderly(s: State, link: Link, key: string, p: Payload)
    requires Orderly(s) && Begun(s.tables) && p.Response?
    ensures Orderly(RouteResponse(s, link, key, p))
  {
    hide Orderly, Deliver, Diagnose, BroadcastProvider, Takes;
    forall t: State | t.down == s.down && t.sequence == s.sequence
      ensures Orderly(t)
    {
      SameLogs(s, t);
    }
    AnnouncementsOrderly();
    DeliveriesOrderly();
  }

  lemma RouteServerRequestOrderly(s: State, link: Link, key: string, p: Payload, throws: bool)
    requires Orderly(s) && p.Request?
    ensures Orderly(RouteServerRequest(s, link, key, p, throws))
  {
    hide Orderly, Deliver, Diagnose, Takes;
    forall t: State | t.down == s.down && t.sequence == s.sequence
      ensures Orderly(t)
    {
      SameLogs(s, t);
    }
    AnnouncementsOrderly();
    DeliveriesOrderly();
  }

  lemma FromAppServerOrderly(s: State, link: Link, p: Payload, throws: bool, order: seq<string>)
    requires Orderly(s) && Begun(s.tables)
    ensures Orderly(ReceiveFromAppServer(s, link, p, throws, order))
  {
    hide Orderly, Begun, Diagnose, RouteResponse, RouteServerRequest, Fanout, IdKey, ResolvedKey, Strike;
    if p.Response? && IdKey(p.id).Some? {
      RouteResponseOrderly(s, link, IdKey(p.id).value, p);
    } else if p.Request? && IdKey(p.id).Some? {
      RouteServerRequestOrderly(s, link, IdKey(p.id).value, p, throws);
    } else if p.Notification? {
      var key := ResolvedKey(p);
      var u := if key.Some? then s.(tables := Strike(s.tables, key.value)) else s;
      SameLogs(s, u);
      FanoutOrderly(u, order, p);
    } else {
      AnnouncementsOrderly();
    }
  }

  lemma ConnectedOrderly(s: State, link: Link)
    requires Orderly(s)
    ensures Orderly(AppServerConnected(s, link))
  {
    hide Orderly, BroadcastProvider, Diagnose, Takes, LocalId, LocalNumber, FileLocally;
    var u := s.(tables := s.tables.(ready := false, generation := s.tables.generation + 1));
    SameLogs(s, u);
    AnnouncementsOrderly();
    SameLogs(Diagnose(BroadcastProvider(u, Connected), "appserver-connected", None), AppServerConnected(s, link));
  }

  lemma DisconnectedOrderly(s: State, order: seq<string>)
    requires Orderly(s)
    ensures Orderly(AppServerDisconnected(s, order))
  {
    hide Orderly, BroadcastProvider, Diagnose, FailRequests;
    var u := s.(tables := Forget(s.tables));
    SameLogs(s, u);
    FailRequestsOrderly(u, s.tables.requestOwners, order);
    AnnouncementsOrderly();
  }

  lemma UnregisterOrderly(s: State, link: Link, c: string, order: seq<string>)
    requires Orderly(s)
    ensures Orderly(Unregister(s, link, c, order))
  {
    hide Orderly, BroadcastController, FailServerRequests, DropRequests;
    FailServerRequestsOrderly(s, link, order);
    var u := FailServerRequests(s, link, order);
    SameLogs(s, u.(tables := Withdraw(DropRequests(u.tables, c), c)));
    AnnouncementsOrderly();
  }

  /** Every step keeps the numbers in order. */
  lemma StepOrderly(s: State, link: Link, input: Input)
    requires Orderly(s) && Begun(s.tables)
    ensures Orderly(Step(s, link, input))
  {
    hide Orderly, Begun, Register, Unregister, ReceiveFromFrontend, ReceiveFromAppServer, AppServerConnected,
      AppServerDisconnected, Takes, LocalId, LocalNumber, FileLocally, IdKey, Strike, SetLocalHandler;
    match input
    case DoRegister => RegisterOrderly(s, link);
    case DoUnregister(c, order) => UnregisterOrderly(s, link, c, order);
    case DoReceiveFromFrontend(c, m) => FromFrontendOrderly(s, link, c, m);
    case DoReceiveFromAppServer(p, throws, order) => FromAppServerOrderly(s, link, p, throws, order);
    case DoConnected => ConnectedOrderly(s, link);
    case DoDisconnected(order) => DisconnectedOrderly(s, order);
    case DoRequestLocally(_, _) => SameLogs(s, Step(s, link, input));
    case DoSendRaw(_) => SameLogs(s, Step(s, link, input));
    case DoSetLocalHandler(_, _) => SameLogs(s, Step(s, link, input));
  }

  lemma EffectBegun(t: Tables, link: Link, takes: bool, input: Input)
    requires Begun(t)
    ensures Begun(Effect(t, link, takes, input))
  {
    hide LeaveEffect, FrontendEffect, AppServerEffect, LocalEffect, RawEffect, Enroll, SetLocalHandler, IdKey;
    var u := Effect(t, link, takes, input);
    if !H.IsLifecycle(input) {
      H.EffectReady(t, link, takes, input);
      forall k | k in u.localRequests && u.localRequests[k].handler.InitializeHandler?
        ensures u.generation > 0
      {
        assert H.AwaitsInitialize(u, k);
        H.EffectAwaits(t, link, takes, input, k);
      }
    }
  }

  lemma StepBegun(s: State, link: Link, input: Input)
    requires Begun(s.tables)
    ensures Begun(Step(s, link, input).tables)
  {
    hide Begun, Effect, Step, Takes;
    StepEffect(s, link, input);
    EffectBegun(s.tables, link, Takes(s, link), input);
  }

  // ----- whole runs -----------------------------------------------------------------------------

  lemma {:induction false} RunOrderly(options: Options, trace: Trace)
    ensures Orderly(After(options, trace)) && Begun(After(options, trace).tables)
  {
    hide Step, OrderlyLog;
    if trace != [] {
      var n := |trace| - 1;
      RunOrderly(options, trace[..n]);
      StepOrderly(After(options, trace[..n]), trace[n].0, trace[n].1);
      StepBegun(After(options, trace[..n]), trace[n].0, trace[n].1);
    }
  }

  /** Over every run, each connection gets its events in the order of their numbers, and no number twice. */
  lemma SequencesIncrease(options: Options, trace: Trace, c: string, i: nat, j: nat)
    requires i < j < |Log(After(options, trace), c)|
    ensures var log := Log(After(options, trace), c);
      log[i].seqNo < log[j].seqNo <= After(options, trace).sequence
  {
    hide After;
    RunOrderly(options, trace);
  }
}
