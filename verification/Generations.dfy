/** What the proxy does when the provider goes away or comes back in a new generation, and what follows over whole
    runs: nothing stays pending from one generation to the next. */
module Generations {
  import opened Wrappers
  import opened JsonRpc
  import opened BridgeState
  import opened ProxyState
  import opened Sequences
  import opened Composition

  // ----- one event ------------------------------------------------------------------------------

  /** The calls of each handler so far. */
  function Heard(p: Proxy, k: string): seq<Payload> {
    if k in p.calls then p.calls[k] else []
  }

  /** When the provider is gone, or is of a newer generation than the one known, every pending request fails: its
      handler runs once, with error -32002 under the request's own id. Nothing stays pending, and no other handler
      runs. */
  lemma ProviderLoss(p: Proxy, e: Event)
    requires e.Provider? && e.generation >= p.view.generation
    requires e.phase.Disconnected? || (p.view.generation != 0 && e.generation > p.view.generation)
    ensures var q := Receive(p, e);
      && q.pending == map[] && q.calls.Keys == p.calls.Keys + p.pending.Keys
      && (forall k :: k in p.pending ==> Heard(q, k) == Heard(p, k) + [Response(p.pending[k], Error(-32002), true)])
      && (forall k :: k !in p.pending ==> Heard(q, k) == Heard(p, k))
      && q.view == p.view.(generation := e.generation, ready := e.phase.Ready?)
  {
  }

  /** The response to a pending request settles it and is what its handler gets; no other handler runs. */
  lemma ResponseHeard(p: Proxy, e: Event)
    requires e.Envelope? && e.payload.Response?
    ensures var q, key := Receive(p, e), IdKey(e.payload.id);
      && q.view == p.view
      && if key.Some? && key.value in p.pending then
           && q.pending == p.pending - {key.value} && q.calls.Keys == p.calls.Keys + {key.value}
           && forall k :: Heard(q, k) == Heard(p, k) + if k == key.value then [e.payload] else []
         else q == p
  {
    hide IdKey;
  }

  /** Every other event leaves the requests alone; a provider event of an older generation leaves everything alone. */
  lemma OthersKeepPending(p: Proxy, e: Event)
    requires e.Envelope? ==> !e.payload.Response?
    requires e.Provider? ==>
      e.generation < p.view.generation ||
      (!e.phase.Disconnected? && (p.view.generation == 0 || e.generation == p.view.generation))
    ensures Receive(p, e).pending == p.pending && Receive(p, e).calls == p.calls
    ensures e.Provider? && e.generation < p.view.generation ==> Receive(p, e) == p
    ensures e.Provider? && e.generation >= p.view.generation ==>
      Receive(p, e).view == p.view.(generation := e.generation, ready := e.phase.Ready?)
  {
  }

  /** A request is pending exactly when the proxy knows who it is, the provider is ready and the transport took the
      message; otherwise its handler runs at once with the reason. */
  lemma IssueVerdict(p: Proxy, verb: string, body: string, taken: bool)
    ensures var q := IssueRequest(p, taken); var id := Str(RequestId(p)); var k := IssueKey(p);
      var known := p.view.connectionId.Some?;
      && q.view == p.view && q.nextRequest == p.nextRequest + 1
      && (forall l :: l != k ==> Heard(q, l) == Heard(p, l) && (l in q.pending <==> l in p.pending))
      && if known && p.view.ready && taken then
           && k in q.pending && q.pending[k] == id && Heard(q, k) == []
           && RequestMessage(p, verb, body, taken) == [AppServerMessage(Some(Request(id, verb, body, true)))]
         else
           && Heard(q, k) == [Response(id, Error(if !known then -32021 else if !p.view.ready then -32002 else -32020),
                                       true)]
           && RequestMessage(p, verb, body, taken) == []
  {
    hide RequestId, StringKey;
  }

  /** Losing the transport fails everything with -32020 and forgets what the bridge had told. */
  lemma TransportLoss(p: Proxy)
    ensures var q := TransportDisconnected(p, -32020);
      && q.pending == map[] && q.calls.Keys == p.calls.Keys + p.pending.Keys
      && (forall k :: k in p.pending ==> Heard(q, k) == Heard(p, k) + [Response(p.pending[k], Error(-32020), true)])
      && (forall k :: k !in p.pending ==> Heard(q, k) == Heard(p, k))
      && q.view == View(None, None, None, 0, false)
  {
  }

  /** A server request the proxy cannot serve is answered with an error under its id, and nothing else is. */
  lemma ReplyVerdict(p: Proxy, e: Event, throws: bool, taken: bool)
    ensures ReplyMessage(p, e, throws, taken) ==
      if e.Envelope? && e.payload.Request? && !e.payload.id.Other? && p.view.connectionId.Some? && taken
         && (e.payload.verb !in p.serverMethods || throws)
      then
        var code := if e.payload.verb in p.serverMethods then -32603 else -32601;
        [AppServerMessage(Some(Response(e.payload.id, Error(code), true)))]
      else []
  {
    hide Escape, Numeral;
  }

  // ----- whole runs -----------------------------------------------------------------------------

  /** The bridge of the composed system keeps its events in order. */
  lemma NextOrderly(w: System, link: Link, takes: Endpoints, act: Act)
    requires Orderly(w.bridge) && Begun(w.bridge.tables)
    ensures var v := Next(w, link, takes, act).bridge; Orderly(v) && Begun(v.tables)
  {
    hide Orderly, Begun, Register, ReceiveFromFrontend, Receive, IssueRequest, TransportDisconnected;
    match act
    case Attach =>
      StepOrderly(w.bridge, link, DoRegister);
      StepBegun(w.bridge, link, DoRegister);
    case DeliverUp =>
      if w.wire.Online? && w.wire.up != [] {
        StepOrderly(w.bridge, link, DoReceiveFromFrontend(w.wire.connectionId, w.wire.up[0]));
        StepBegun(w.bridge, link, DoReceiveFromFrontend(w.wire.connectionId, w.wire.up[0]));
      }
    case Elsewhere(input) =>
      hide Step;
      StepOrderly(w.bridge, link, input);
      StepBegun(w.bridge, link, input);
    case _ =>
  }

  /** A proxy that believes the provider to be ready knows its generation. */
  ghost predicate KnowsGeneration(p: Proxy) {
    p.view.ready ==> p.view.generation > 0
  }

  lemma ReceiveKnows(p: Proxy, e: Event)
    requires KnowsGeneration(p) && Fine(e)
    ensures KnowsGeneration(Receive(p, e))
  {
    hide CallsFailed, IdKey;
  }

  lemma NextKnows(w: System, link: Link, takes: Endpoints, act: Act)
    requires Orderly(w.bridge) && KnowsGeneration(w.proxy)
    ensures KnowsGeneration(Next(w, link, takes, act).proxy)
  {
    hide Register, ReceiveFromFrontend, Step, Receive, FailPending, RequestId, KnowsGeneration;
    if act.DeliverDown? && w.wire.Online? && w.wire.delivered < |Log(w.bridge, w.wire.connectionId)| {
      assert w.wire.connectionId in w.bridge.down;
      ReceiveKnows(w.proxy, Log(w.bridge, w.wire.connectionId)[w.wire.delivered]);
    }
    OtherKnows(w.proxy);
  }

  lemma OtherKnows(p: Proxy)
    requires KnowsGeneration(p)
    ensures forall taken: bool :: KnowsGeneration(IssueRequest(p, taken))
    ensures KnowsGeneration(TransportDisconnected(p, -32020))
  {
    hide FailPending, RequestId;
  }

  lemma {:induction false} RunKnows(options: Options, takes: Endpoints, acts: seq<(Link, Act)>)
    ensures var w := Run(InitialSystem(options), takes, acts);
      Orderly(w.bridge) && Begun(w.bridge.tables) && KnowsGeneration(w.proxy)
  {
    hide Next, OrderlyLog;
    if acts != [] {
      var n := |acts| - 1;
      var w := Run(InitialSystem(options), takes, acts[..n]);
      RunKnows(options, takes, acts[..n]);
      NextOrderly(w, acts[n].0, takes, acts[n].1);
      NextKnows(w, acts[n].0, takes, acts[n].1);
    }
  }

  /** Act `i` issued the request with key `k` to the provider session of this generation. */
  ghost predicate IssuedIn(options: Options, takes: Endpoints, acts: seq<(Link, Act)>, i: nat, k: string,
                           generation: nat)
  {
    && Issues(InitialSystem(options), takes, acts, i, k)
    && var view := Run(InitialSystem(options), takes, acts[..i]).proxy.view;
    view.connectionId.Some? && view.ready && view.generation == generation
  }

  /** An act either issues a pending request in the generation it leaves, or keeps it and its generation. */
  lemma NextPending(w: System, link: Link, takes: Endpoints, act: Act, k: string)
    requires KnowsGeneration(w.proxy) && k in Next(w, link, takes, act).proxy.pending
    ensures var q := Next(w, link, takes, act).proxy;
      || (act.Issue? && k == IssueKey(w.proxy) && w.proxy.view.connectionId.Some? && w.proxy.view.ready &&
          q.view == w.proxy.view)
      || (k in w.proxy.pending && (w.proxy.view.generation == 0 || q.view.generation == w.proxy.view.generation))
  {
    hide Register, ReceiveFromFrontend, Step, RequestId, StringKey, Receive;
    if act.DeliverDown? && w.wire.Online? && w.wire.delivered < |Log(w.bridge, w.wire.connectionId)| &&
       takes(w.wire.connectionId, w.wire.delivered)
    {
      ReceiveKeeps(w.proxy, Log(w.bridge, w.wire.connectionId)[w.wire.delivered], k);
    }
  }

  lemma ReceiveKeeps(p: Proxy, e: Event, k: string)
    requires k in Receive(p, e).pending
    ensures k in p.pending && (p.view.generation == 0 || Receive(p, e).view.generation == p.view.generation)
  {
    hide CallsFailed, IdKey;
  }

  /** Over every run: whatever is pending was issued in the provider generation the proxy knows now, while that was
      ready. */
  lemma {:induction false} PendingOfThisGeneration(options: Options, takes: Endpoints, acts: seq<(Link, Act)>,
                                                   k: string)
    requires k in Run(InitialSystem(options), takes, acts).proxy.pending
    ensures exists i: nat ::
      IssuedIn(options, takes, acts, i, k, Run(InitialSystem(options), takes, acts).proxy.view.generation)
  {
    hide Next, IssueKey, KnowsGeneration, Orderly, Begun;
    if acts != [] {
      var n := |acts| - 1;
      var w0 := InitialSystem(options);
      var w, q := Run(w0, takes, acts[..n]), Run(w0, takes, acts).proxy;
      RunKnows(options, takes, acts[..n]);
      NextPending(w, acts[n].0, takes, acts[n].1, k);
      if k in w.proxy.pending && (w.proxy.view.generation == 0 || q.view.generation == w.proxy.view.generation) {
        PendingOfThisGeneration(options, takes, acts[..n], k);
        var i: nat :| IssuedIn(options, takes, acts[..n], i, k, w.proxy.view.generation);
        assert acts[..n][..i] == acts[..i];
        RunKnows(options, takes, acts[..i]);
        assert w.proxy.view.generation > 0 by { IssuedLate(options, takes, acts[..n], i, k, w.proxy.view.generation); }
        assert IssuedIn(options, takes, acts, i, k, q.view.generation);
      } else {
        assert IssuedIn(options, takes, acts, n, k, q.view.generation);
      }
    }
  }

  lemma IssuedLate(options: Options, takes: Endpoints, acts: seq<(Link, Act)>, i: nat, k: string, generation: nat)
    requires IssuedIn(options, takes, acts, i, k, generation)
    ensures generation > 0
  {
    hide Run;
    RunKnows(options, takes, acts[..i]);
  }
}
