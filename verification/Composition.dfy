/** One frontend proxy, the bridge, and the two first-in first-out queues between them, in an arbitrary
    environment: every other frontend, the app-server and both transports may do anything at any time. */
module Composition {
  import opened Wrappers
  import opened JsonRpc
  import opened BridgeState
  import opened BridgeInvariant
  import opened ProxyState
  import opened Replica
  import opened Coverage

  /** The proxy's transport: the messages it has sent and the bridge has not yet received, and how many of
      the events the bridge has handed to this connection's endpoint have been dealt with. */
  datatype Wire = Offline | Online(connectionId: string, up: seq<FrontendMessage>, delivered: nat)

  datatype System = System(bridge: State, proxy: Proxy, wire: Wire)

  /** Which of the events handed to a connection's endpoint, numbered per connection, the endpoint takes. */
  type Endpoints = (string, nat) -> bool

  datatype Act =
    | Attach
    | Issue(verb: string, body: string, taken: bool)
    | Post(message: FrontendMessage, taken: bool)
    | DeliverUp
    | DeliverDown(throws: bool, taken: bool)
    | Elsewhere(input: Input)
    | Detach

  function InitialSystem(options: Options): System {
    System(Initial(options), InitialProxy(), Offline)
  }

  function Next(w: System, link: Link, takes: Endpoints, act: Act): System {
    match act
    case Attach =>
      if w.wire.Online? || |w.bridge.tables.frontends| >= w.bridge.tables.options.maximumFrontends then w
      else w.(bridge := Register(w.bridge, link), wire := Online(ConnectionName(w.bridge.tables.nextConnection), [], 0))
    case Issue(verb, body, taken) =>
      w.(proxy := IssueRequest(w.proxy, taken),
         wire :=
           if w.wire.Online? then w.wire.(up := w.wire.up + RequestMessage(w.proxy, verb, body, taken)) else w.wire)
    case Post(message, taken) =>
      if w.wire.Online? && w.proxy.view.connectionId.Some? && taken
      then w.(wire := w.wire.(up := w.wire.up + [message])) else w
    case DeliverUp =>
      if w.wire.Offline? || w.wire.up == [] then w
      else w.(bridge := ReceiveFromFrontend(w.bridge, link, w.wire.connectionId, w.wire.up[0]),
              wire := w.wire.(up := w.wire.up[1..]))
    case DeliverDown(throws, taken) =>
      if w.wire.Offline? || w.wire.delivered >= |Log(w.bridge, w.wire.connectionId)| then w
      else
        var e := Log(w.bridge, w.wire.connectionId)[w.wire.delivered];
        if !takes(w.wire.connectionId, w.wire.delivered) then w.(wire := w.wire.(delivered := w.wire.delivered + 1))
        else w.(proxy := Receive(w.proxy, e),
                wire := w.wire.(delivered := w.wire.delivered + 1,
                                up := w.wire.up + ReplyMessage(w.proxy, e, throws, taken)))
    case Elsewhere(input) => w.(bridge := Step(w.bridge, link, input))
    case Detach =>
      if w.wire.Offline? then w else w.(proxy := TransportDisconnected(w.proxy, -32020), wire := Offline)
  }

  /** Messages of the proxy's own connection reach the bridge through the queue only. */
  ghost predicate Possible(w: System, act: Act) {
    act.Elsewhere? ==>
      Enabled(w.bridge, act.input) &&
      (w.wire.Online? && act.input.DoReceiveFromFrontend? ==> act.input.connectionId != w.wire.connectionId)
  }

  // ----- every handler runs exactly once --------------------------------------------------------

  ghost predicate IsRequestKey(k: string, bound: nat) {
    exists prefix: string, n: nat :: n < bound && k == StringKey(Numbered(prefix, n))
  }

  /** A response to the request with key `k`. */
  ghost predicate RepliesTo(reply: Payload, k: string) {
    reply.Response? && IdKey(reply.id) == Some(k)
  }

  /** A request is pending and its handler has not run, or it is not pending and its handler ran once, with a response
      to this very request. */
  ghost predicate ExactlyOnce(p: Proxy) {
    && p.pending.Keys <= p.calls.Keys
    && (forall k :: k in p.calls ==> |p.calls[k]| == if k in p.pending then 0 else 1)
    && (forall k, i :: k in p.calls && 0 <= i < |p.calls[k]| ==> RepliesTo(p.calls[k][i], k))
    && (forall k :: k in p.calls ==> IsRequestKey(k, p.nextRequest))
    && (forall k :: k in p.pending ==> IdKey(p.pending[k]) == Some(k))
  }

  lemma RequestKeyIsNew(prefix: string, n: nat)
    ensures !IsRequestKey(StringKey(Numbered(prefix, n)), n) && IsRequestKey(StringKey(Numbered(prefix, n)), n + 1)
  {
    var k := StringKey(Numbered(prefix, n));
    if IsRequestKey(k, n) {
      var q: string, m: nat :| m < n && k == StringKey(Numbered(q, m));
      NumberedKeyInjective(prefix, n, q, m);
    }
  }

  lemma KeysStay(p: Proxy)
    requires ExactlyOnce(p)
    ensures forall k :: k in p.calls ==> IsRequestKey(k, p.nextRequest + 1)
  {
    hide StringKey, Numbered;
    forall k | k in p.calls
      ensures IsRequestKey(k, p.nextRequest + 1)
    {
      var q: string, m: nat :| m < p.nextRequest && k == StringKey(Numbered(q, m));
      assert m < p.nextRequest + 1;
    }
  }

  /** A new request is on record either as pending or as settled by one reply. */
  lemma OneMore(p: Proxy, q: Proxy, key: string, id: JsonId, history: seq<Payload>)
    requires ExactlyOnce(p) && key !in p.calls && IdKey(id) == Some(key) && IsRequestKey(key, q.nextRequest)
    requires forall k :: k in p.calls ==> IsRequestKey(k, q.nextRequest)
    requires q.calls == p.calls[key := history]
    requires
      || (history == [] && q.pending == p.pending[key := id])
      || (|history| == 1 && RepliesTo(history[0], key) && q.pending == p.pending)
    ensures ExactlyOnce(q)
  {
    hide IsRequestKey, IdKey, RepliesTo;
  }

  /** An issued request is pending, or its handler has run with an error at once. */
  lemma IssueShape(p: Proxy, taken: bool)
    requires StringKey(RequestId(p)) !in p.pending
    ensures var q := IssueRequest(p, taken); var id := Str(RequestId(p)); var key := StringKey(RequestId(p));
      && q.nextRequest == p.nextRequest + 1
      && if Usable(p.view) && taken then q.calls == p.calls[key := []] && q.pending == p.pending[key := id]
         else q.pending == p.pending && exists code :: q.calls == p.calls[key := [ErrorResponse(id, code)]]
  {
    hide StringKey, RequestId;
    var id, key, q := Str(RequestId(p)), StringKey(RequestId(p)), IssueRequest(p, taken);
    if !(Usable(p.view) && taken) {
      var code := if Usable(p.view) then -32020 else if p.view.connectionId.Some? then -32002 else -32021;
      var none: seq<Payload>, once := [], [ErrorResponse(id, code)];
      assert p.pending - {key} == p.pending && none + once == once;
      assert p.calls[key := none][key := once] == p.calls[key := once];
      assert q.calls == p.calls[key := once];
    }
  }

  lemma IssueOnce(p: Proxy, taken: bool)
    requires ExactlyOnce(p)
    ensures ExactlyOnce(IssueRequest(p, taken)) && StringKey(RequestId(p)) !in p.calls
  {
    KeysStay(p);
    RequestKeyIsNew(RequestPrefix(p.view), p.nextRequest);
    var id, key, q := Str(RequestId(p)), StringKey(RequestId(p)), IssueRequest(p, taken);
    StringKeyIsIdKey(RequestId(p));
    assert key !in p.calls && IsRequestKey(key, p.nextRequest + 1);
    hide StringKey, RequestId, IsRequestKey, IdKey, ExactlyOnce, IssueRequest;
    NotPending(p, key);
    IssueShape(p, taken);
    if Usable(p.view) && taken {
      OneMore(p, q, key, id, []);
    } else {
      var code :| q.calls == p.calls[key := [ErrorResponse(id, code)]];
      OneMore(p, q, key, id, [ErrorResponse(id, code)]);
    }
  }

  lemma NotPending(p: Proxy, key: string)
    requires ExactlyOnce(p) && key !in p.calls
    ensures key !in p.pending
  {
  }

  lemma StringKeyIsIdKey(text: string)
    ensures IdKey(Str(text)) == Some(StringKey(text))
  {
  }

  lemma FailPendingOnce(p: Proxy, code: int)
    requires ExactlyOnce(p)
    ensures ExactlyOnce(FailPending(p, code)) && FailPending(p, code).pending == map[]
  {
    hide IdKey, IsRequestKey;
  }

  lemma ReceiveOnce(p: Proxy, e: Event)
    requires ExactlyOnce(p)
    ensures ExactlyOnce(Receive(p, e))
  {
    hide IdKey, IsRequestKey;
    FailPendingOnce(p, -32002);
  }

  // ----- no request is forgotten ----------------------------------------------------------------

  /** The key of the request that is issued next. */
  function IssueKey(p: Proxy): string {
    StringKey(RequestId(p))
  }

  /** Every request issued so far stays on record, with all calls of its handler. */
  ghost predicate CallsGrow(p: Proxy, q: Proxy) {
    forall k :: k in p.calls ==> k in q.calls && p.calls[k] <= q.calls[k]
  }

  lemma IssueRecords(p: Proxy, taken: bool)
    requires ExactlyOnce(p)
    ensures var q := IssueRequest(p, taken);
      CallsGrow(p, q) && IssueKey(p) !in p.calls && q.calls.Keys == p.calls.Keys + {IssueKey(p)}
  {
    IssueOnce(p, taken);
    hide RequestId, StringKey, IsRequestKey, IdKey;
  }

  lemma FailPendingRecords(p: Proxy, code: int)
    requires ExactlyOnce(p)
    ensures CallsGrow(p, FailPending(p, code)) && FailPending(p, code).calls.Keys == p.calls.Keys
  {
    hide IsRequestKey, IdKey;
  }

  lemma ReceiveRecords(p: Proxy, e: Event)
    requires ExactlyOnce(p)
    ensures CallsGrow(p, Receive(p, e)) && Receive(p, e).calls.Keys == p.calls.Keys
  {
    hide IsRequestKey, IdKey, FailPending;
    FailPendingRecords(p, -32002);
  }

  /** No act forgets a request or a call, and exactly an Issue adds a request, under a new key. */
  lemma NextRecords(w: System, link: Link, takes: Endpoints, act: Act)
    requires ExactlyOnce(w.proxy)
    ensures var q := Next(w, link, takes, act).proxy;
      && CallsGrow(w.proxy, q)
      && (act.Issue? ==> IssueKey(w.proxy) !in w.proxy.calls)
      && q.calls.Keys == w.proxy.calls.Keys + if act.Issue? then {IssueKey(w.proxy)} else {}
  {
    hide ExactlyOnce, IssueRequest, Receive, FailPending, IssueKey, Register, ReceiveFromFrontend, Step;
    match act
    case Issue(_, _, taken) => IssueRecords(w.proxy, taken);
    case DeliverDown(_, _) =>
      if w.wire.Online? && w.wire.delivered < |Log(w.bridge, w.wire.connectionId)| {
        ReceiveRecords(w.proxy, Log(w.bridge, w.wire.connectionId)[w.wire.delivered]);
      }
    case Detach => FailPendingRecords(w.proxy, -32020);
    case _ =>
  }

  // ----- the invariant of the composed system ---------------------------------------------------

  ghost predicate TakesFirst(takes: Endpoints, c: string, n: nat) {
    forall i :: 0 <= i < n ==> takes(c, i)
  }

  ghost predicate WireSound(w: System) {
    w.wire.Online? ==>
      IsConnectionName(w.wire.connectionId, w.bridge.tables.nextConnection) &&
      w.wire.delivered <= |Log(w.bridge, w.wire.connectionId)|
  }

  /** Offline, the proxy knows nothing and waits for nothing; online, it knows what it was told. */
  ghost predicate ViewSound(w: System, takes: Endpoints) {
    match w.wire
    case Offline => w.proxy.view == Detached && w.proxy.pending == map[]
    case Online(c, _, delivered) =>
      delivered <= |Log(w.bridge, c)| && TakesFirst(takes, c, delivered) ==>
        w.proxy.view == Fold(Detached, Log(w.bridge, c)[..delivered])
  }

  /** Registered, and every event sent to it so far was taken. */
  ghost predicate Live(w: System, takes: Endpoints) {
    w.wire.Online? && w.wire.connectionId in w.bridge.tables.frontends &&
    TakesFirst(takes, w.wire.connectionId, |Log(w.bridge, w.wire.connectionId)|)
  }

  ghost predicate InQueue(up: seq<FrontendMessage>, k: string) {
    exists i :: 0 <= i < |up| && IsRequestFor(up[i], k)
  }

  ghost predicate IsRequestFor(m: FrontendMessage, k: string) {
    m.AppServerMessage? && m.payload.Some? && m.payload.value.Request? && IdKey(m.payload.value.id) == Some(k)
  }

  ghost predicate AnswerUnderway(w: System, k: string)
    requires w.wire.Online?
  {
    exists i ::
      w.wire.delivered <= i < |Log(w.bridge, w.wire.connectionId)| && IsAnswer(Log(w.bridge, w.wire.connectionId)[i], k)
  }

  /** Where a pending request is: on its way up, outstanding in the bridge, or answered and on its way down. */
  ghost predicate Located(w: System, k: string)
    requires w.wire.Online?
  {
    InQueue(w.wire.up, k) || Awaits(w.bridge, w.wire.connectionId, k) || AnswerUnderway(w, k)
  }

  ghost predicate NoOrphan(w: System, takes: Endpoints) {
    Live(w, takes) ==> forall k :: k in w.proxy.pending ==> Located(w, k)
  }

  ghost predicate Sound(w: System, takes: Endpoints) {
    Inv(w.bridge) && ReplicasExact(w.bridge) && ExactlyOnce(w.proxy) && WireSound(w) && ViewSound(w, takes)
      && NoOrphan(w, takes)
  }

  lemma InitialSound(options: Options, takes: Endpoints)
    ensures Sound(InitialSystem(options), takes)
  {
  }

  // ----- bridge steps ---------------------------------------------------------------------------

  /** What any bridge step means for a connection that existed before it. */
  lemma BridgeStepFrame(s: State, link: Link, input: Input, c: string)
    requires Inv(s) && Enabled(s, input) && IsConnectionName(c, s.tables.nextConnection)
    ensures var t := Step(s, link, input);
      && s.tables.nextConnection <= t.tables.nextConnection && Log(s, c) <= Log(t, c)
      && (c in t.tables.frontends ==> c in s.tables.frontends && (input.DoUnregister? ==> input.connectionId != c))
  {
    hide Step, Consistent;
    StepFrontends(s, link, input);
    ConnectionNameIsNew(s.tables.nextConnection);
    if input.DoUnregister? && input.connectionId == c {
      UnregisterGrows(s, link, c, input.order, c);
      assert Step(s, link, input) == Unregister(s, link, c, input.order) by { UnregisterStep(s, link, c, input.order); }
    } else {
      StepCovers(s, link, input, c, "");
    }
  }

  lemma UnregisterStep(s: State, link: Link, c: string, order: seq<string>)
    ensures Step(s, link, DoUnregister(c, order)) == Unregister(s, link, c, order)
  {
  }

  /** A bridge step keeps the composed invariant, provided it accounts for what left the up queue. */
  lemma BridgeStepSound(w: System, link: Link, takes: Endpoints, input: Input, up: seq<FrontendMessage>)
    requires Sound(w, takes) && w.wire.Online? && Enabled(w.bridge, input)
    requires var c := w.wire.connectionId; forall k :: InQueue(w.wire.up, k) ==>
      InQueue(up, k) || c !in w.bridge.tables.frontends ||
      Awaits(Step(w.bridge, link, input), c, k) || AnsweredSince(w.bridge, Step(w.bridge, link, input), c, k)
    ensures Sound(w.(bridge := Step(w.bridge, link, input), wire := w.wire.(up := up)), takes)
  {
    hide Consistent, Step, ReplicasExact, ExactlyOnce, Awaits, IsConnectionName, IsAnswer, Fold, InQueue;
    var c := w.wire.connectionId;
    var s, t := w.bridge, Step(w.bridge, link, input);
    var after := w.(bridge := t, wire := w.wire.(up := up));
    StepInv(s, link, input);
    StepExact(s, link, input);
    BridgeStepFrame(s, link, input, c);
    NameStays(c, s.tables.nextConnection, t.tables.nextConnection);
    assert w.wire.delivered <= |Log(s, c)| ==> Log(t, c)[..w.wire.delivered] == Log(s, c)[..w.wire.delivered];
    if Live(after, takes) {
      assert Live(w, takes);
      forall k | k in w.proxy.pending ensures Located(after, k) {
        assert Located(w, k);
        StepCovers(s, link, input, c, k);
        if AnswerUnderway(w, k) {
          var i :| w.wire.delivered <= i < |Log(s, c)| && IsAnswer(Log(s, c)[i], k);
          assert Log(t, c)[i] == Log(s, c)[i];
        }
      }
    }
  }

  // ----- each act keeps the invariant -----------------------------------------------------------

  lemma AttachSound(w: System, link: Link, takes: Endpoints)
    requires Sound(w, takes) && w.wire.Offline?
    ensures Sound(Next(w, link, takes, Attach), takes)
  {
    hide Consistent, ReplicasExact, ExactlyOnce, Fold, IsConnectionName, Register;
    StepInv(w.bridge, link, DoRegister);
    StepExact(w.bridge, link, DoRegister);
    ConnectionNameIsNew(w.bridge.tables.nextConnection);
    if |w.bridge.tables.frontends| < w.bridge.tables.options.maximumFrontends {
      assert Register(w.bridge, link).tables.nextConnection == w.bridge.tables.nextConnection + 1 by {
        RegisterNumber(w.bridge, link);
      }
      var newcomer := ConnectionName(w.bridge.tables.nextConnection);
      assert Fold(Detached, Log(Next(w, link, takes, Attach).bridge, newcomer)[..0]) == Detached by {
        FoldNothing(Log(Next(w, link, takes, Attach).bridge, newcomer));
      }
    }
  }

  lemma FoldNothing(log: seq<Event>)
    ensures Fold(Detached, log[..0]) == Detached
  {
  }

  lemma RegisterNumber(s: State, link: Link)
    requires |s.tables.frontends| < s.tables.options.maximumFrontends
    ensures Register(s, link).tables.nextConnection == s.tables.nextConnection + 1
  {
  }

  lemma EnqueueSound(w: System, takes: Endpoints, m: seq<FrontendMessage>)
    requires Sound(w, takes) && w.wire.Online?
    ensures Sound(w.(wire := w.wire.(up := w.wire.up + m)), takes)
  {
    hide Inv, ReplicasExact, ExactlyOnce, Fold, IsConnectionName, IsRequestFor, Awaits, IsAnswer;
    var after := w.(wire := w.wire.(up := w.wire.up + m));
    if Live(after, takes) {
      forall k | k in w.proxy.pending ensures Located(after, k) {
        assert Located(w, k);
        if InQueue(w.wire.up, k) {
          var i :| 0 <= i < |w.wire.up| && IsRequestFor(w.wire.up[i], k);
          assert after.wire.up[i] == w.wire.up[i];
        }
        assert AnswerUnderway(w, k) ==> AnswerUnderway(after, k);
      }
    }
  }

  lemma IssueSound(w: System, link: Link, takes: Endpoints, verb: string, body: string, taken: bool)
    requires Sound(w, takes)
    ensures Sound(Next(w, link, takes, Issue(verb, body, taken)), takes)
  {
    hide Inv, ReplicasExact, ExactlyOnce, Fold, IsConnectionName, Awaits, IsAnswer, RequestId, StringKey, IdKey;
    IssueOnce(w.proxy, taken);
    if w.wire.Online? {
      var m := RequestMessage(w.proxy, verb, body, taken);
      var id := RequestId(w.proxy);
      EnqueueSound(w, takes, m);
      var after := Next(w, link, takes, Issue(verb, body, taken));
      var queued := w.(wire := w.wire.(up := w.wire.up + m));
      StringKeyIsIdKey(id);
      if Live(after, takes) {
        assert Live(queued, takes);
        forall k | k in after.proxy.pending ensures Located(after, k) {
          if k in w.proxy.pending {
            assert Located(queued, k);
            assert AnswerUnderway(queued, k) ==> AnswerUnderway(after, k);
          } else {
            assert IsRequestFor(after.wire.up[|w.wire.up|], k);
          }
        }
      }
    }
  }

  lemma DeliverUpSound(w: System, link: Link, takes: Endpoints)
    requires Sound(w, takes) && w.wire.Online? && w.wire.up != []
    ensures Sound(Next(w, link, takes, DeliverUp), takes)
  {
    hide Sound, Consistent, Awaits, AnsweredSince, IdKey, ReceiveFromFrontend;
    var c, m := w.wire.connectionId, w.wire.up[0];
    var input := DoReceiveFromFrontend(c, m);
    var s, t := w.bridge, Step(w.bridge, link, input);
    forall k | InQueue(w.wire.up, k)
      ensures InQueue(w.wire.up[1..], k) || c !in s.tables.frontends || Awaits(t, c, k) || AnsweredSince(s, t, c, k)
    {
      var i :| 0 <= i < |w.wire.up| && IsRequestFor(w.wire.up[i], k);
      if i > 0 {
        assert w.wire.up[1..][i - 1] == w.wire.up[i];
      } else if c in s.tables.frontends {
        RequestAccounted(s, link, c, m.payload.value, k);
      }
    }
    BridgeStepSound(w, link, takes, input, w.wire.up[1..]);
  }

  lemma ReceiveView(p: Proxy, e: Event)
    ensures Receive(p, e).view == Observe(p.view, e)
  {
    hide IdKey;
  }

  /** An event takes a request out of the table only by being its answer or by failing the whole table. */
  lemma ReceivePending(p: Proxy, e: Event, k: string)
    ensures k in Receive(p, e).pending ==> k in p.pending && !IsAnswer(e, k)
  {
    hide IdKey;
  }

  lemma DeliverDownSound(w: System, link: Link, takes: Endpoints, throws: bool, taken: bool)
    requires Sound(w, takes) && w.wire.Online? && w.wire.delivered < |Log(w.bridge, w.wire.connectionId)|
    ensures Sound(Next(w, link, takes, DeliverDown(throws, taken)), takes)
  {
    hide Inv, ReplicasExact, ExactlyOnce, IsConnectionName, IsRequestFor, Awaits, IsAnswer, Receive, Observe,
      ReplyMessage;
    var c, n := w.wire.connectionId, w.wire.delivered;
    var log := Log(w.bridge, c);
    var e := log[n];
    var after := Next(w, link, takes, DeliverDown(throws, taken));
    ReceiveOnce(w.proxy, e);
    ReceiveView(w.proxy, e);
    assert log[..n + 1][..n] == log[..n];
    assert TakesFirst(takes, c, n + 1) ==> TakesFirst(takes, c, n);
    assert ViewSound(after, takes);
    if Live(after, takes) {
      var m := ReplyMessage(w.proxy, e, throws, taken);
      var queued := w.(wire := w.wire.(up := w.wire.up + m));
      EnqueueSound(w, takes, m);
      assert Live(queued, takes);
      forall k | k in after.proxy.pending ensures Located(after, k) {
        ReceivePending(w.proxy, e, k);
        assert Located(queued, k);
        if AnswerUnderway(queued, k) {
          var i :| n <= i < |log| && IsAnswer(log[i], k);
          assert n + 1 <= i;
          assert AnswerUnderway(after, k);
        }
      }
    }
  }

  lemma DetachSound(w: System, link: Link, takes: Endpoints)
    requires Sound(w, takes) && w.wire.Online?
    ensures Sound(Next(w, link, takes, Detach), takes)
  {
    hide Inv, ReplicasExact, ExactlyOnce, FailPending;
    FailPendingOnce(w.proxy, -32020);
    DetachedOnce(FailPending(w.proxy, -32020), Detached);
  }

  lemma DetachedOnce(p: Proxy, v: View)
    requires ExactlyOnce(p)
    ensures ExactlyOnce(p.(view := v))
  {
  }

  lemma ElsewhereSound(w: System, link: Link, takes: Endpoints, input: Input)
    requires Sound(w, takes) && Enabled(w.bridge, input)
    ensures Sound(Next(w, link, takes, Elsewhere(input)), takes)
  {
    hide Consistent, ReplicasExact, ExactlyOnce, Step, Awaits, AnsweredSince;
    if w.wire.Online? {
      BridgeStepSound(w, link, takes, input, w.wire.up);
      assert w.wire.(up := w.wire.up) == w.wire;
    } else {
      StepInv(w.bridge, link, input);
      StepExact(w.bridge, link, input);
    }
  }

  /** Every act of the composed system keeps its invariant. */
  lemma NextSound(w: System, link: Link, takes: Endpoints, act: Act)
    requires Sound(w, takes) && Possible(w, act)
    ensures Sound(Next(w, link, takes, act), takes)
  {
    hide Sound, Register, ReceiveFromFrontend, Receive, IssueRequest, Step, TransportDisconnected;
    match act
    case Attach =>
      if w.wire.Offline? {
        AttachSound(w, link, takes);
      }
    case Issue(verb, body, taken) => IssueSound(w, link, takes, verb, body, taken);
    case Post(message, taken) =>
      if w.wire.Online? {
        EnqueueSound(w, takes, [message]);
      }
    case DeliverUp =>
      if w.wire.Online? && w.wire.up != [] {
        DeliverUpSound(w, link, takes);
      }
    case DeliverDown(throws, taken) =>
      if w.wire.Online? && w.wire.delivered < |Log(w.bridge, w.wire.connectionId)| {
        DeliverDownSound(w, link, takes, throws, taken);
      }
    case Elsewhere(input) => ElsewhereSound(w, link, takes, input);
    case Detach =>
      if w.wire.Online? {
        DetachSound(w, link, takes);
      }
  }

  // ----- whole runs -----------------------------------------------------------------------------

  /** The system after a sequence of acts, each with its own state of the app-server link. */
  function Run(w: System, takes: Endpoints, acts: seq<(Link, Act)>): System {
    if acts == [] then w
    else
      var last := acts[|acts| - 1];
      Next(Run(w, takes, acts[..|acts| - 1]), last.0, takes, last.1)
  }

  ghost predicate Feasible(w: System, takes: Endpoints, acts: seq<(Link, Act)>) {
    forall i :: 0 <= i < |acts| ==> Possible(Run(w, takes, acts[..i]), acts[i].1)
  }

  lemma {:induction false} RunSound(options: Options, takes: Endpoints, acts: seq<(Link, Act)>)
    requires Feasible(InitialSystem(options), takes, acts)
    ensures Sound(Run(InitialSystem(options), takes, acts), takes)
  {
    hide Sound, Possible, Next;
    var w := InitialSystem(options);
    if acts == [] {
      InitialSound(options, takes);
    } else {
      var before := acts[..|acts| - 1];
      assert forall i :: 0 <= i <= |before| ==> before[..i] == acts[..i];
      assert Feasible(w, takes, before) by {
        forall i | 0 <= i < |before| ensures Possible(Run(w, takes, before[..i]), before[i].1) {
          assert Possible(Run(w, takes, acts[..i]), acts[i].1);
        }
      }
      RunSound(options, takes, before);
      assert Possible(Run(w, takes, acts[..|acts| - 1]), acts[|acts| - 1].1);
      NextSound(Run(w, takes, before), acts[|acts| - 1].0, takes, acts[|acts| - 1].1);
    }
  }

  lemma SoundOnce(w: System, takes: Endpoints)
    requires Sound(w, takes)
    ensures ExactlyOnce(w.proxy)
  {
  }

  lemma FeasibleUpTo(w: System, takes: Endpoints, acts: seq<(Link, Act)>, n: nat)
    requires Feasible(w, takes, acts) && n <= |acts|
    ensures Feasible(w, takes, acts[..n])
  {
    hide Run, Possible;
    forall i | 0 <= i < n
      ensures Possible(Run(w, takes, acts[..n][..i]), acts[..n][i].1)
    {
      assert acts[..n][..i] == acts[..i];
      assert Possible(Run(w, takes, acts[..i]), acts[i].1);
    }
  }

  /** Act `i` of the run issues the request with key `k`. */
  ghost predicate Issues(w: System, takes: Endpoints, acts: seq<(Link, Act)>, i: nat, k: string) {
    i < |acts| && acts[i].1.Issue? && k == IssueKey(Run(w, takes, acts[..i]).proxy)
  }

  lemma IssuesPrefix(w: System, takes: Endpoints, acts: seq<(Link, Act)>, n: nat)
    requires n <= |acts|
    ensures forall i: nat, k :: i < n ==> (Issues(w, takes, acts[..n], i, k) <==> Issues(w, takes, acts, i, k))
  {
    hide Run, IssueKey;
    assert forall i: nat :: i < n ==> acts[..n][..i] == acts[..i];
  }

  /** The requests on record are exactly those issued: one for each Issue of the run, no two the same. */
  lemma {:induction false} RunRecords(options: Options, takes: Endpoints, acts: seq<(Link, Act)>)
    requires Feasible(InitialSystem(options), takes, acts)
    ensures var w0 := InitialSystem(options); var calls := Run(w0, takes, acts).proxy.calls;
      && (forall i: nat, k :: Issues(w0, takes, acts, i, k) ==> k in calls)
      && (forall i: nat, j: nat, k :: Issues(w0, takes, acts, i, k) && Issues(w0, takes, acts, j, k) ==> i == j)
      && (forall k :: k in calls ==> exists i: nat :: Issues(w0, takes, acts, i, k))
  {
    hide Sound, Possible, Next, IssueKey, ExactlyOnce, Feasible, Issues;
    var w0 := InitialSystem(options);
    if acts == [] {
      NothingIssued(options, takes);
    } else {
      var n := |acts| - 1;
      var w := Run(w0, takes, acts[..n]);
      FeasibleUpTo(w0, takes, acts, n);
      RunRecords(options, takes, acts[..n]);
      RunSound(options, takes, acts[..n]);
      SoundOnce(w, takes);
      NextRecords(w, acts[n].0, takes, acts[n].1);
      IssuesPrefix(w0, takes, acts, n);
      IssuesLast(w0, takes, acts);
      forall k | k in Run(w0, takes, acts).proxy.calls
        ensures exists i: nat :: Issues(w0, takes, acts, i, k)
      {
        if k in w.proxy.calls {
          var i: nat :| Issues(w0, takes, acts[..n], i, k);
          IssuesWithin(w0, takes, acts[..n], i, k);
        }
      }
    }
  }

  lemma IssuesWithin(w: System, takes: Endpoints, acts: seq<(Link, Act)>, i: nat, k: string)
    requires Issues(w, takes, acts, i, k)
    ensures i < |acts|
  {
  }

  lemma NothingIssued(options: Options, takes: Endpoints)
    ensures Run(InitialSystem(options), takes, []).proxy.calls == map[]
    ensures forall i: nat, k :: !Issues(InitialSystem(options), takes, [], i, k)
  {
  }

  lemma IssuesLast(w: System, takes: Endpoints, acts: seq<(Link, Act)>)
    requires acts != []
    ensures var n := |acts| - 1; forall i: nat, k :: Issues(w, takes, acts, i, k) && i >= n ==>
              i == n && acts[n].1.Issue? && k == IssueKey(Run(w, takes, acts[..n]).proxy)
    ensures var n := |acts| - 1; acts[n].1.Issue? ==>
      Issues(w, takes, acts, n, IssueKey(Run(w, takes, acts[..n]).proxy))
  {
    hide Run, IssueKey;
  }

  /** No request is orphaned and every handler runs exactly once. Over every run of the composed system, each request
      that was issued is on record, under a key of its own: it is either pending and its handler has not run, or not
      pending and its handler ran exactly once, with a response to this request. A pending one on a live connection is
      in the queue to the bridge, outstanding there, or answered in the queue back; and when the proxy is offline
      nothing is pending at all. */
  lemma NoRequestOrphaned(options: Options, takes: Endpoints, acts: seq<(Link, Act)>)
    requires Feasible(InitialSystem(options), takes, acts)
    ensures var w0 := InitialSystem(options); var w := Run(w0, takes, acts);
      && (forall i: nat, k :: Issues(w0, takes, acts, i, k) ==> k in w.proxy.calls)
      && (forall i: nat, j: nat, k :: Issues(w0, takes, acts, i, k) && Issues(w0, takes, acts, j, k) ==> i == j)
      && (forall k :: k in w.proxy.calls ==> |w.proxy.calls[k]| == if k in w.proxy.pending then 0 else 1)
      && (forall k, i :: k in w.proxy.calls && 0 <= i < |w.proxy.calls[k]| ==> RepliesTo(w.proxy.calls[k][i], k))
      && (forall k :: k in w.proxy.pending ==> k in w.proxy.calls)
      && (w.wire.Offline? ==> w.proxy.pending == map[] && w.proxy.view == Detached)
      && (Live(w, takes) ==> forall k :: k in w.proxy.pending ==> Located(w, k))
  {
    hide Inv, ReplicasExact, Next, Located, Issues, RepliesTo, IsRequestKey, Feasible, Run, Live, IsConnectionName;
    RunSound(options, takes, acts);
    RunRecords(options, takes, acts);
  }

  /** Once a live connection has no message in flight, the proxy knows exactly what the bridge knows, and its
      pending requests are all outstanding at the app-server. */
  lemma QuiescentReplica(options: Options, takes: Endpoints, acts: seq<(Link, Act)>)
    requires Feasible(InitialSystem(options), takes, acts)
    ensures var w := Run(InitialSystem(options), takes, acts);
      Live(w, takes) && w.wire.up == [] && w.wire.delivered == |Log(w.bridge, w.wire.connectionId)| ==>
        w.proxy.view == ViewOf(w.bridge.tables, w.wire.connectionId) &&
        forall k :: k in w.proxy.pending ==> Awaits(w.bridge, w.wire.connectionId, k)
  {
    hide Inv, ExactlyOnce, Next, NeverStale, Fold, Awaits, IsAnswer;
    RunSound(options, takes, acts);
    var w := Run(InitialSystem(options), takes, acts);
    if Live(w, takes) && w.wire.up == [] && w.wire.delivered == |Log(w.bridge, w.wire.connectionId)| {
      var log := Log(w.bridge, w.wire.connectionId);
      assert log[..w.wire.delivered] == log;
      assert forall k :: k in w.proxy.pending ==> Located(w, k);
    }
  }
}
