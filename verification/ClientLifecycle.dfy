/** The lifecycle of a client connection around the frontend proxy: attach, connect, receive, fail, detach, shut down.
    Models packages/codex-frontend/src/ClientConnection.ts. Transports are told apart by a number; a close request is
    recorded, and its detach arrives later. */
module ClientLifecycle {
  import opened Wrappers
  import opened BridgeState
  import opened ProxyState

  /** The application callbacks that ran, in order. */
  datatype Callback = OnConnected | OnDisconnected | OnDetached | OnFailure(reason: string)

  datatype Client = Client(
    endpoint: Option<nat>, online: bool, shuttingDown: bool, failureReported: bool,
    proxy: Proxy, log: seq<Callback>, closes: seq<(nat, string)>)

  const SHUTDOWN := "bridge client shutdown"
  const INVALID := "bridge client received an invalid envelope"

  function InitialClient(): Client {
    Client(None, false, false, false, InitialProxy(), [], [])
  }

  predicate MayAttach(c: Client, e: nat) {
    !c.shuttingDown && (c.endpoint.None? || c.endpoint == Some(e))
  }

  function Attach(c: Client, e: nat): Client {
    if MayAttach(c, e) then c.(endpoint := Some(e), failureReported := false) else c
  }

  function Connect(c: Client, e: nat): Client {
    if c.endpoint != Some(e) || c.shuttingDown || c.online then c
    else c.(online := true, log := c.log + [OnConnected])
  }

  predicate Dispatches(c: Client, e: nat) {
    c.endpoint == Some(e) && c.online && !c.shuttingDown
  }

  /** A message that is no valid envelope is None. */
  function ReceiveMessage(c: Client, e: nat, message: Option<Event>): Client {
    if !Dispatches(c, e) then c
    else if message.None? then FailTransport(c, e, INVALID)
    else c.(proxy := Receive(c.proxy, message.value))
  }

  function FailTransport(c: Client, e: nat, reason: string): Client {
    if c.endpoint != Some(e) then c
    else
      c.(failureReported := true, log := c.log + (if c.failureReported then [] else [OnFailure(reason)]),
         closes := c.closes + [(e, reason)])
  }

  function Detach(c: Client, e: nat): Client {
    if c.endpoint != Some(e) then c
    else
      c.(endpoint := None, online := false, failureReported := false,
         proxy := TransportDisconnected(c.proxy, -32020),
         log := c.log + [OnDetached] + if c.online then [OnDisconnected] else [])
  }

  function Disconnect(c: Client, reason: string): Client {
    if c.shuttingDown || c.endpoint.None? then c else c.(closes := c.closes + [(c.endpoint.value, reason)])
  }

  function Shutdown(c: Client): Client {
    if c.shuttingDown then c
    else if c.endpoint.Some? then c.(shuttingDown := true, closes := c.closes + [(c.endpoint.value, SHUTDOWN)])
    else c.(shuttingDown := true, proxy := TransportDisconnected(c.proxy, -32020))
  }

  /** The sender given to the proxy; `accepts` is the transport's own answer. */
  predicate Sends(c: Client, accepts: bool) {
    c.online && !c.shuttingDown && c.endpoint.Some? && accepts
  }

  datatype Action =
    | AttachAction(e: nat)
    | ConnectAction(e: nat)
    | ReceiveAction(e: nat, message: Option<Event>)
    | FailAction(e: nat, reason: string)
    | DetachAction(e: nat)
    | DisconnectAction(reason: string)
    | ShutdownAction
    | RequestAction(accepts: bool)

  function Act(c: Client, a: Action): Client {
    match a
    case AttachAction(e) => Attach(c, e)
    case ConnectAction(e) => Connect(c, e)
    case ReceiveAction(e, message) => ReceiveMessage(c, e, message)
    case FailAction(e, reason) => FailTransport(c, e, reason)
    case DetachAction(e) => Detach(c, e)
    case DisconnectAction(reason) => Disconnect(c, reason)
    case ShutdownAction => Shutdown(c)
    case RequestAction(accepts) => c.(proxy := IssueRequest(c.proxy, Sends(c, accepts)))
  }

  function Lived(c: Client, actions: seq<Action>): Client {
    if actions == [] then c else Act(Lived(c, actions[..|actions| - 1]), actions[|actions| - 1])
  }

  /** The connected and disconnected callbacks, without the others. */
  function Turns(log: seq<Callback>): seq<Callback> {
    if log == [] then []
    else
      Turns(log[..|log| - 1]) +
      if log[|log| - 1].OnConnected? || log[|log| - 1].OnDisconnected? then [log[|log| - 1]] else []
  }

  lemma TurnsSnoc(log: seq<Callback>, x: Callback)
    ensures Turns(log + [x]) == Turns(log) + if x.OnConnected? || x.OnDisconnected? then [x] else []
  {
    assert (log + [x])[..|log|] == log;
  }

  /** Connected and disconnected alternate, beginning with connected, and the last one says whether we are online. */
  ghost predicate Alternate(log: seq<Callback>, online: bool) {
    var turns := Turns(log);
    && (forall i :: 0 <= i < |turns| ==> turns[i] == if i % 2 == 0 then OnConnected else OnDisconnected)
    && (|turns| % 2 == 1 <==> online)
  }

  ghost predicate Sound(c: Client) {
    && (c.online ==> c.endpoint.Some?)
    && (!c.online ==> c.proxy.view == Detached && c.proxy.pending == map[])
    && Alternate(c.log, c.online)
  }

  lemma ActSound(c: Client, a: Action)
    requires Sound(c)
    ensures Sound(Act(c, a))
  {
    hide CallsFailed, Receive, RequestId, Turns;
    forall x: Callback
      ensures Turns(c.log + [x]) == Turns(c.log) + if x.OnConnected? || x.OnDisconnected? then [x] else []
    {
      TurnsSnoc(c.log, x);
    }
    TurnsSnoc(c.log + [OnDetached], OnDisconnected);
    assert c.log + [] == c.log;
    assert c.log + [OnDetached] + [] == c.log + [OnDetached];
  }

  /** Over every run: connected and disconnected callbacks strictly alternate, and whenever the client is offline its
      proxy has no pending handler and no connection identity. */
  lemma {:induction false} AlwaysSound(actions: seq<Action>)
    ensures Sound(Lived(InitialClient(), actions))
  {
    hide Act, Sound;
    if actions == [] {
      assert Sound(InitialClient()) by { StartsSound(); }
    } else {
      AlwaysSound(actions[..|actions| - 1]);
      ActSound(Lived(InitialClient(), actions[..|actions| - 1]), actions[|actions| - 1]);
    }
  }

  lemma StartsSound()
    ensures Sound(InitialClient())
  {
  }

  /** Nothing attaches, connects, is dispatched or is reported as connected after a shutdown. */
  lemma {:induction false} ShutdownIsFinal(c: Client, actions: seq<Action>)
    requires c.shuttingDown
    ensures var d := Lived(c, actions);
      && d.shuttingDown && (d.endpoint.Some? ==> d.endpoint == c.endpoint) && (d.online ==> c.online)
      && |c.log| <= |d.log| && d.log[..|c.log|] == c.log
      && (forall i :: |c.log| <= i < |d.log| ==> d.log[i] != OnConnected)
      && (forall e :: !MayAttach(d, e) && !Dispatches(d, e))
  {
    hide TransportDisconnected, Receive, IssueRequest;
    if actions != [] {
      ShutdownIsFinal(c, actions[..|actions| - 1]);
    }
  }

  // ----- a whole session ------------------------------------------------------------------------

  function Received(p: Proxy, events: seq<Event>): Proxy {
    if events == [] then p else Receive(Received(p, events[..|events| - 1]), events[|events| - 1])
  }

  function Messages(e: nat, events: seq<Event>): seq<Action> {
    if events == [] then []
    else Messages(e, events[..|events| - 1]) + [ReceiveAction(e, Some(events[|events| - 1]))]
  }

  lemma {:induction false} LivedJoin(c: Client, a: seq<Action>, b: seq<Action>)
    ensures Lived(c, a + b) == Lived(Lived(c, a), b)
  {
    hide Act;
    if b == [] {
      assert a + b == a;
    } else {
      assert (a + b)[..|a + b| - 1] == a + b[..|b| - 1];
      LivedJoin(c, a, b[..|b| - 1]);
    }
  }

  /** While online, every valid message reaches the proxy, in order, and changes nothing else. */
  lemma {:induction false} MessagesReach(c: Client, e: nat, events: seq<Event>)
    requires c.endpoint == Some(e) && c.online && !c.shuttingDown
    ensures Lived(c, Messages(e, events)) == c.(proxy := Received(c.proxy, events))
  {
    hide Receive;
    if events != [] {
      MessagesReach(c, e, events[..|events| - 1]);
    }
  }

  /** A session from end to end: from attaching to detaching, each valid message is dispatched once, in order, then the
      proxy is told that its transport is gone; the application hears that it is connected, detached and disconnected,
      and nothing else, and the client is as ready for the next endpoint as before. */
  lemma SessionLived(c: Client, e: nat, events: seq<Event>)
    requires Sound(c) && c.endpoint.None? && !c.shuttingDown
    ensures Lived(c, [AttachAction(e), ConnectAction(e)] + Messages(e, events) + [DetachAction(e)]) ==
      c.(failureReported := false, proxy := TransportDisconnected(Received(c.proxy, events), -32020),
         log := c.log + [OnConnected, OnDetached, OnDisconnected])
  {
    hide Receive, TransportDisconnected, Alternate, Received;
    var opening, middle, last := [AttachAction(e), ConnectAction(e)], Messages(e, events), [DetachAction(e)];
    LivedTwo(c, AttachAction(e), ConnectAction(e));
    var open := Lived(c, opening);
    MessagesReach(open, e, events);
    LivedJoin(c, opening, middle);
    LivedJoin(c, opening + middle, last);
    LivedOne(Lived(c, opening + middle), DetachAction(e));
    assert c.log + [OnConnected] + ([OnDetached] + [OnDisconnected]) ==
           c.log + [OnConnected, OnDetached, OnDisconnected];
  }

  lemma LivedOne(c: Client, a: Action)
    ensures Lived(c, [a]) == Act(c, a)
  {
    hide Act;
    assert [a][..0] == [];
    assert Lived(c, []) == c;
  }

  lemma LivedTwo(c: Client, a: Action, b: Action)
    ensures Lived(c, [a, b]) == Act(Act(c, a), b)
  {
    hide Act;
    LivedOne(c, a);
    assert [a, b][..1] == [a];
  }

  /** However often an attachment fails, the application hears of the first failure only, and the endpoint is asked to
      close each time; an invalid message is such a failure. */
  lemma FailuresLived(c: Client, e: nat, first: string)
    requires c.endpoint == Some(e) && !c.failureReported && c.online && !c.shuttingDown
    ensures Lived(c, [FailAction(e, first), ReceiveAction(e, None)]) ==
      c.(failureReported := true, log := c.log + [OnFailure(first)],
         closes := c.closes + [(e, first), (e, "bridge client received an invalid envelope")])
  {
    LivedTwo(c, FailAction(e, first), ReceiveAction(e, None));
    assert c.log + [OnFailure(first)] + [] == c.log + [OnFailure(first)];
    assert c.closes + [(e, first)] + [(e, INVALID)] == c.closes + [(e, first), (e, INVALID)];
  }

  /** Attaching the same endpoint again starts over with the report of failures; another endpoint is refused. */
  lemma AttachLived(c: Client, e: nat, reason: string)
    requires c.endpoint.Some? && !c.shuttingDown
    ensures var d := Lived(c, [AttachAction(e), FailAction(e, reason)]);
      if c.endpoint == Some(e) then d.log == c.log + [OnFailure(reason)] else d == c
  {
    LivedTwo(c, AttachAction(e), FailAction(e, reason));
  }

  /** Shutting down asks an attached endpoint to close, once, and tells the proxy only when there is none. */
  lemma ShutdownLived(c: Client)
    requires Sound(c) && !c.shuttingDown
    ensures var d := Lived(c, [ShutdownAction, ShutdownAction]);
      d == if c.endpoint.Some? then
             c.(shuttingDown := true, closes := c.closes + [(c.endpoint.value, "bridge client shutdown")])
           else c.(shuttingDown := true, proxy := TransportDisconnected(c.proxy, -32020))
  {
    hide TransportDisconnected;
    LivedTwo(c, ShutdownAction, ShutdownAction);
  }

  /** The application's own disconnect only asks an attached endpoint to close. */
  lemma DisconnectLived(c: Client, reason: string)
    requires !c.shuttingDown
    ensures Lived(c, [DisconnectAction(reason)]) ==
      c.(closes := c.closes + if c.endpoint.Some? then [(c.endpoint.value, reason)] else [])
  {
    LivedOne(c, DisconnectAction(reason));
  }

  /** A request leaves only over an attached, connected endpoint of a client that is not shutting down. */
  lemma RequestLived(c: Client, accepts: bool)
    ensures Lived(c, [RequestAction(accepts)]) ==
      c.(proxy := IssueRequest(c.proxy, c.online && !c.shuttingDown && c.endpoint.Some? && accepts))
  {
    hide IssueRequest;
    LivedOne(c, RequestAction(accepts));
  }
}
