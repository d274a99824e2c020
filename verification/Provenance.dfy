/** Whose answer a request gets. Every result that reaches a handler is followed back through the composed system:
    from the handler to the app-server's response, to the entry the response was filed under, to the message that was
    forwarded for it, and to the act of the proxy that sent the message. */
module Provenance {
  import opened Wrappers
  import opened JsonRpc
  import opened BridgeState
  import opened BridgeInvariant
  import opened ProxyState
  import opened Coverage
  import B = BridgeRuns
  import opened Answers
  import opened FrontendRequests
  import opened Composition
  import Routing

  type Acts = seq<(Link, Act)>

  /** The system before act `n` of a run. */
  function At(options: Options, takes: Endpoints, acts: Acts, n: nat): System
    requires n <= |acts|
  {
    Run(InitialSystem(options), takes, acts[..n])
  }

  // ----- the links of the chain -----------------------------------------------------------------

  /** Act `act`, taken in the system `w`, puts the message into the queue to the bridge. */
  ghost predicate Puts(w: System, act: Act, m: FrontendMessage) {
    match act
    case Issue(verb, body, taken) => m in RequestMessage(w.proxy, verb, body, taken)
    case Post(message, _) => m == message
    case _ => false
  }

  /** Some act of the run put the message into the queue. */
  ghost predicate Sourced(options: Options, takes: Endpoints, acts: Acts, m: FrontendMessage) {
    exists i :: 0 <= i < |acts| && Puts(At(options, takes, acts, i), acts[i].1, m)
  }

  /** Act `j` takes the message from the queue of connection `c` to the bridge, which forwards it under the upstream
      id with key `u`. */
  ghost predicate ForwardsAt(options: Options, takes: Endpoints, acts: Acts, j: nat, c: string, m: FrontendMessage,
                             u: string)
    requires j < |acts|
  {
    var w, w' := At(options, takes, acts, j), At(options, takes, acts, j + 1);
    && acts[j].1.DeliverUp? && w.wire.Online? && w.wire.connectionId == c && w.wire.up != [] && w.wire.up[0] == m
    && m.AppServerMessage? && m.payload.Some? && m.payload.value.Request?
    && B.ForwardsStep(w.bridge, w'.bridge, DoReceiveFromFrontend(c, m), u, c, m.payload.value.id)
  }

  /** The message was put into the queue by an act of the run, and later forwarded under `u`. */
  ghost predicate Filed(options: Options, takes: Endpoints, acts: Acts, c: string, m: FrontendMessage, u: string) {
    exists j :: 0 <= j < |acts| && ForwardsAt(options, takes, acts, j, c, m, u) && Sourced(options, takes, acts[..j], m)
  }

  /** The act in which the app-server answers the request with key `u`. */
  ghost predicate Answered(act: Act, u: string, outcome: Outcome) {
    && act.Elsewhere? && act.input.DoReceiveFromAppServer? && act.input.payload.Response?
    && IdKey(act.input.payload.id) == Some(u) && act.input.payload.outcome == outcome
  }

  /** The outcome is the app-server's answer to the forwarding of a message with the id key `k` that an act of the run
      put into the queue. */
  ghost predicate Returned(options: Options, takes: Endpoints, acts: Acts, k: string, outcome: Outcome) {
    exists r, c, m, u :: 0 <= r < |acts| && Answered(acts[r].1, u, outcome) && IsRequestFor(m, k) &&
                         Filed(options, takes, acts[..r], c, m, u)
  }

  // ----- longer runs ----------------------------------------------------------------------------

  lemma AtPrefix(options: Options, takes: Endpoints, acts: Acts, n: nat, i: nat)
    requires i <= n <= |acts|
    ensures At(options, takes, acts[..n], i) == At(options, takes, acts, i)
  {
    assert acts[..n][..i] == acts[..i];
  }

  lemma SourcedLonger(options: Options, takes: Endpoints, acts: Acts, n: nat, m: FrontendMessage)
    requires n <= |acts| && Sourced(options, takes, acts[..n], m)
    ensures Sourced(options, takes, acts, m)
  {
    hide At, Puts;
    var i :| 0 <= i < n && Puts(At(options, takes, acts[..n], i), acts[..n][i].1, m);
    AtPrefix(options, takes, acts, n, i);
    assert Puts(At(options, takes, acts, i), acts[i].1, m);
  }

  lemma FiledLonger(options: Options, takes: Endpoints, acts: Acts, n: nat, c: string, m: FrontendMessage, u: string)
    requires n <= |acts| && Filed(options, takes, acts[..n], c, m, u)
    ensures Filed(options, takes, acts, c, m, u)
  {
    hide At, Sourced, B.ForwardsStep;
    var j :| 0 <= j < n && ForwardsAt(options, takes, acts[..n], j, c, m, u) &&
             Sourced(options, takes, acts[..n][..j], m);
    AtPrefix(options, takes, acts, n, j);
    AtPrefix(options, takes, acts, n, j + 1);
    assert acts[..n][..j] == acts[..j];
    assert ForwardsAt(options, takes, acts, j, c, m, u);
  }

  lemma ReturnedLonger(options: Options, takes: Endpoints, acts: Acts, n: nat, k: string, outcome: Outcome)
    requires n <= |acts| && Returned(options, takes, acts[..n], k, outcome)
    ensures Returned(options, takes, acts, k, outcome)
  {
    hide Filed, Answered, IsRequestFor;
    var r, c, m, u :| 0 <= r < n && Answered(acts[..n][r].1, u, outcome) && IsRequestFor(m, k) &&
                      Filed(options, takes, acts[..n][..r], c, m, u);
    assert acts[..n][..r] == acts[..r];
  }

  // ----- the invariant --------------------------------------------------------------------------

  /** Every request in the queue was put there by an act. */
  ghost predicate QueueSourced(options: Options, takes: Endpoints, acts: Acts, up: seq<FrontendMessage>) {
    forall m :: m in up && m.AppServerMessage? && m.payload.Some? && m.payload.value.Request? ==>
                  Sourced(options, takes, acts, m)
  }

  /** Every entry of the connection was filed for a message of its queue, and holds the message's own id. */
  ghost predicate EntriesFiled(options: Options, takes: Endpoints, acts: Acts, c: string, t: Tables) {
    forall u :: u in t.requestOwners && t.requestOwners[u].connectionId == c ==>
      exists m :: Filed(options, takes, acts, c, m, u) && HasId(m, t.requestOwners[u].frontendId)
  }

  ghost predicate HasId(m: FrontendMessage, id: JsonId) {
    m.AppServerMessage? && m.payload.Some? && m.payload.value.Request? && m.payload.value.id == id
  }

  /** Every result among the responses has been returned for a message with its id. */
  ghost predicate ResultsReturned(options: Options, takes: Endpoints, acts: Acts, responses: seq<Payload>) {
    forall p, k :: p in responses && RepliesTo(p, k) && p.outcome.Result? ==>
      Returned(options, takes, acts, k, p.outcome)
  }

  ghost predicate CallsReturned(options: Options, takes: Endpoints, acts: Acts, calls: map<string, seq<Payload>>) {
    forall k :: k in calls ==> ResultsReturned(options, takes, acts, calls[k])
  }

  ghost predicate WireTraced(options: Options, takes: Endpoints, acts: Acts, w: System) {
    w.wire.Online? ==>
      && QueueSourced(options, takes, acts, w.wire.up)
      && EntriesFiled(options, takes, acts, w.wire.connectionId, w.bridge.tables)
      && ResultsReturned(options, takes, acts, Responses(Log(w.bridge, w.wire.connectionId)))
  }

  ghost predicate Traced(options: Options, takes: Endpoints, acts: Acts, w: System) {
    WireTraced(options, takes, acts, w) && CallsReturned(options, takes, acts, w.proxy.calls)
  }

  lemma WireLonger(options: Options, takes: Endpoints, acts: Acts, n: nat, w: System)
    requires n <= |acts| && WireTraced(options, takes, acts[..n], w)
    ensures WireTraced(options, takes, acts, w)
  {
    hide Sourced, Filed, Returned, Responses, RepliesTo;
    if w.wire.Online? {
      forall m | m in w.wire.up && Sourced(options, takes, acts[..n], m)
        ensures Sourced(options, takes, acts, m)
      {
        SourcedLonger(options, takes, acts, n, m);
      }
      forall c, m, u | Filed(options, takes, acts[..n], c, m, u)
        ensures Filed(options, takes, acts, c, m, u)
      {
        FiledLonger(options, takes, acts, n, c, m, u);
      }
      ResultsLonger(options, takes, acts, n, Responses(Log(w.bridge, w.wire.connectionId)));
    }
  }

  lemma ResultsLonger(options: Options, takes: Endpoints, acts: Acts, n: nat, responses: seq<Payload>)
    requires n <= |acts| && ResultsReturned(options, takes, acts[..n], responses)
    ensures ResultsReturned(options, takes, acts, responses)
  {
    hide Returned, IdKey;
    forall p, k | p in responses && RepliesTo(p, k) && p.outcome.Result?
      ensures Returned(options, takes, acts, k, p.outcome)
    {
      ReturnedLonger(options, takes, acts, n, k, p.outcome);
    }
  }

  lemma CallsLonger(options: Options, takes: Endpoints, acts: Acts, n: nat, calls: map<string, seq<Payload>>)
    requires n <= |acts| && CallsReturned(options, takes, acts[..n], calls)
    ensures CallsReturned(options, takes, acts, calls)
  {
    hide ResultsReturned;
    forall k | k in calls
      ensures ResultsReturned(options, takes, acts, calls[k])
    {
      ResultsLonger(options, takes, acts, n, calls[k]);
    }
  }

  // ----- bridge steps ---------------------------------------------------------------------------

  /** Of the responses a step sends, only the app-server's own carry a result. */
  lemma {:induction false} LostAreErrors(lost: map<string, FrontendRequest>, order: seq<string>, c: string, p: Payload)
    requires p in LostTo(lost, order, c)
    ensures p.Response? && p.outcome.Error?
  {
    if order != [] && p in LostTo(lost, order[..|order| - 1], c) {
      LostAreErrors(lost, order[..|order| - 1], c, p);
    }
  }

  lemma RejectionsAreErrors(s: State, link: Link, c: string, m: FrontendMessage)
    requires Rejection(s, link, c, m).Some?
    ensures Rejection(s, link, c, m).value.Response? && Rejection(s, link, c, m).value.outcome.Error?
  {
    hide IdKey, FrontendKey, Refusal, Owns, Takes;
  }

  lemma ResultIsReturned(s: State, link: Link, input: Input, c: string, p: Payload)
    requires p in StepAnswers(s, link, input, c) && p.Response? && p.outcome.Result?
    ensures input.DoReceiveFromAppServer? && OwnersCopy(s.tables, input.payload, c) == Some(p)
  {
    hide LostTo, Rejection, OwnersCopy;
    match input
    case DoReceiveFromFrontend(d, m) => RejectionsAreErrors(s, link, c, m);
    case DoDisconnected(order) => LostAreErrors(s.tables.requestOwners, order, c, p);
    case _ =>
  }

  lemma ReturnedShape(t: Tables, p: Payload, c: string)
    requires OwnersCopy(t, p, c).Some?
    ensures p.Response? && IdKey(p.id).Some? && IdKey(p.id).value in t.requestOwners
    ensures var r := t.requestOwners[IdKey(p.id).value];
      r.connectionId == c && OwnersCopy(t, p, c).value == Response(r.frontendId, p.outcome, p.strict)
  {
    hide IdKey;
  }

  /** The responses after a bridge step, from those before it and the entries at its start. */
  lemma StepResults(options: Options, takes: Endpoints, acts: Acts, s: State, t: State, c: string)
    requires acts != [] && ResultsReturned(options, takes, acts[..|acts| - 1], Responses(Log(s, c)))
    requires EntriesFiled(options, takes, acts[..|acts| - 1], c, s.tables)
    requires var link, act := acts[|acts| - 1].0, acts[|acts| - 1].1;
      (act.Elsewhere? && Says(s, t, c, StepAnswers(s, link, act.input, c))) ||
      (exists m :: Says(s, t, c, StepAnswers(s, link, DoReceiveFromFrontend(c, m), c)))
    ensures ResultsReturned(options, takes, acts, Responses(Log(t, c)))
  {
    hide Responses, Returned, Filed, StepAnswers, IdKey, OwnersCopy;
    var n := |acts| - 1;
    var link, act := acts[n].0, acts[n].1;
    ResultsLonger(options, takes, acts, n, Responses(Log(s, c)));
    forall p, k | p in Responses(Log(t, c)) && RepliesTo(p, k) && p.outcome.Result?
      ensures Returned(options, takes, acts, k, p.outcome)
    {
      if p !in Responses(Log(s, c)) {
        if act.Elsewhere? && p in StepAnswers(s, link, act.input, c) {
          ResultIsReturned(s, link, act.input, c, p);
          ReturnedShape(s.tables, act.input.payload, c);
          ReturnedNow(options, takes, acts, s.tables, c, k, p.outcome);
        } else {
          var m :| Says(s, t, c, StepAnswers(s, link, DoReceiveFromFrontend(c, m), c));
          ResultIsReturned(s, link, DoReceiveFromFrontend(c, m), c, p);
        }
      }
    }
  }

  lemma ReturnedNow(options: Options, takes: Endpoints, acts: Acts, t: Tables, c: string, k: string, outcome: Outcome)
    requires acts != [] && EntriesFiled(options, takes, acts[..|acts| - 1], c, t)
    requires var act := acts[|acts| - 1].1;
      && act.Elsewhere? && act.input.DoReceiveFromAppServer?
      && var p := act.input.payload;
      && p.Response? && p.outcome == outcome && IdKey(p.id).Some? && IdKey(p.id).value in t.requestOwners
      && var r := t.requestOwners[IdKey(p.id).value];
      r.connectionId == c && IdKey(r.frontendId) == Some(k)
    ensures Returned(options, takes, acts, k, outcome)
  {
    hide Filed, IdKey;
    var n := |acts| - 1;
    var u := IdKey(acts[n].1.input.payload.id).value;
    var m :| Filed(options, takes, acts[..n], c, m, u) && HasId(m, t.requestOwners[u].frontendId);
    assert Answered(acts[n].1, u, outcome) && IsRequestFor(m, k);
  }

  /** The entries after a bridge step: those before it, and one for a message of the connection that it forwards. */
  lemma StepEntries(options: Options, takes: Endpoints, acts: Acts, s: State, link: Link, input: Input, c: string)
    requires acts != [] && EntriesFiled(options, takes, acts[..|acts| - 1], c, s.tables)
    requires input.DoReceiveFromFrontend? && input.connectionId == c ==>
               forall u, id :: B.ForwardsStep(s, Step(s, link, input), input, u, c, id) ==>
                 Filed(options, takes, acts, c, input.message, u)
    ensures EntriesFiled(options, takes, acts, c, Step(s, link, input).tables)
  {
    hide Filed, Step;
    var n, t := |acts| - 1, Step(s, link, input).tables;
    forall u | u in t.requestOwners && t.requestOwners[u].connectionId == c
      ensures exists m :: Filed(options, takes, acts, c, m, u) && HasId(m, t.requestOwners[u].frontendId)
    {
      B.EntryOrigin(s, link, input, u);
      if u in s.tables.requestOwners && s.tables.requestOwners[u] == t.requestOwners[u] {
        var m :| Filed(options, takes, acts[..n], c, m, u) && HasId(m, t.requestOwners[u].frontendId);
        FiledLonger(options, takes, acts, n, c, m, u);
      } else {
        assert B.ForwardsStep(s, Step(s, link, input), input, u, c, t.requestOwners[u].frontendId);
        assert Filed(options, takes, acts, c, input.message, u);
      }
    }
  }

  // ----- each act -------------------------------------------------------------------------------

  lemma LastAct(options: Options, takes: Endpoints, acts: Acts)
    requires acts != []
    ensures var n := |acts| - 1;
      && At(options, takes, acts, n) == Run(InitialSystem(options), takes, acts[..n])
      && At(options, takes, acts, n + 1) == Next(At(options, takes, acts, n), acts[n].0, takes, acts[n].1)
  {
    hide Next;
    assert acts[..|acts|] == acts;
  }

  /** What an act puts into the queue, seen from the run that ends with it. */
  lemma PutsLast(options: Options, takes: Endpoints, acts: Acts, m: FrontendMessage)
    requires acts != [] && Puts(At(options, takes, acts, |acts| - 1), acts[|acts| - 1].1, m)
    ensures Sourced(options, takes, acts, m)
  {
    hide At, Puts;
  }

  lemma AttachTraced(options: Options, takes: Endpoints, acts: Acts, w: System, link: Link)
    requires acts != [] && w.wire.Offline? && Inv(w.bridge) && HeardNames(w.bridge)
    ensures WireTraced(options, takes, acts, Next(w, link, takes, Attach))
  {
    hide Filed, Sourced, Returned, Register, HeardNames, ConnectionName, Says, IdKey;
    var s, c := w.bridge, ConnectionName(w.bridge.tables.nextConnection);
    var t := Register(s, link);
    if |s.tables.frontends| < s.tables.options.maximumFrontends {
      StepHeardNames(s, link, DoRegister);
      RegisterSays(s, link, c);
      NoResponses(s, t, c);
      NewNameOwnsNothing(s, link);
    }
  }

  lemma NoResponses(s: State, t: State, c: string)
    requires Log(s, c) == [] && Says(s, t, c, [])
    ensures Responses(Log(t, c)) == []
  {
  }

  lemma NewNameOwnsNothing(s: State, link: Link)
    requires Inv(s)
    ensures var t := Register(s, link).tables;
      forall u :: u in t.requestOwners ==> t.requestOwners[u].connectionId != ConnectionName(s.tables.nextConnection)
  {
    hide ConnectionName, Greet, IdKey, FrontendKey, KeysFresh, OwnersRegistered;
    ConnectionNameIsNew(s.tables.nextConnection);
  }

  lemma DeliverUpTraced(options: Options, takes: Endpoints, acts: Acts, w: System, link: Link)
    requires acts != [] && w == At(options, takes, acts, |acts| - 1) && acts[|acts| - 1] == (link, DeliverUp)
    requires w.wire.Online? && w.wire.up != [] && WireTraced(options, takes, acts[..|acts| - 1], w)
    requires Inv(w.bridge) && HeardNames(w.bridge)
    ensures WireTraced(options, takes, acts, Next(w, link, takes, DeliverUp))
  {
    hide Filed, Sourced, Returned, ReceiveFromFrontend, HeardNames, Says, IdKey, Responses, StepAnswers, EntriesFiled,
      ResultsReturned, Consistent, B.ForwardsStep, At;
    var n, s, c, m := |acts| - 1, w.bridge, w.wire.connectionId, w.wire.up[0];
    var input := DoReceiveFromFrontend(c, m);
    var t := Step(s, link, input);
    WireLonger(options, takes, acts, n, w);
    StepHeardNames(s, link, input);
    OwnersRegisteredHere(s.tables);
    StepSays(s, link, input, c);
    StepResults(options, takes, acts, s, t, c);
    forall u, id | B.ForwardsStep(s, t, input, u, c, id)
      ensures Filed(options, takes, acts, c, m, u)
    {
      ForwardedNow(options, takes, acts, w, link, u, id);
    }
    StepEntries(options, takes, acts, s, link, input, c);
  }

  lemma ForwardedNow(options: Options, takes: Endpoints, acts: Acts, w: System, link: Link, u: string, id: JsonId)
    requires acts != [] && w == At(options, takes, acts, |acts| - 1) && acts[|acts| - 1] == (link, DeliverUp)
    requires w.wire.Online? && w.wire.up != [] && QueueSourced(options, takes, acts[..|acts| - 1], w.wire.up)
    requires var input := DoReceiveFromFrontend(w.wire.connectionId, w.wire.up[0]);
      B.ForwardsStep(w.bridge, Step(w.bridge, link, input), input, u, w.wire.connectionId, id)
    ensures Filed(options, takes, acts, w.wire.connectionId, w.wire.up[0], u)
  {
    LastAct(options, takes, acts);
    hide At, Sourced, ReceiveFromFrontend;
    assert ForwardsAt(options, takes, acts, |acts| - 1, w.wire.connectionId, w.wire.up[0], u);
  }

  lemma ElsewhereTraced(options: Options, takes: Endpoints, acts: Acts, w: System, link: Link, input: Input)
    requires acts != [] && acts[|acts| - 1] == (link, Elsewhere(input)) && Possible(w, Elsewhere(input))
    requires WireTraced(options, takes, acts[..|acts| - 1], w) && Inv(w.bridge) && HeardNames(w.bridge)
    ensures WireTraced(options, takes, acts, Next(w, link, takes, Elsewhere(input)))
  {
    hide Filed, Sourced, Returned, Step, HeardNames, Says, IdKey, Responses, StepAnswers, EntriesFiled, ResultsReturned,
      Consistent, B.ForwardsStep, Enabled;
    if w.wire.Online? {
      var n, s, c := |acts| - 1, w.bridge, w.wire.connectionId;
      WireLonger(options, takes, acts, n, w);
      StepHeardNames(s, link, input);
      OwnersRegisteredHere(s.tables);
      StepSays(s, link, input, c);
      StepResults(options, takes, acts, s, Step(s, link, input), c);
      StepEntries(options, takes, acts, s, link, input, c);
    }
  }

  lemma QueueTraced(options: Options, takes: Endpoints, acts: Acts, w: System, link: Link)
    requires acts != [] && w == At(options, takes, acts, |acts| - 1) && acts[|acts| - 1].0 == link
    requires acts[|acts| - 1].1.Issue? || acts[|acts| - 1].1.Post? || acts[|acts| - 1].1.DeliverDown?
    requires WireTraced(options, takes, acts[..|acts| - 1], w)
    ensures WireTraced(options, takes, acts, Next(w, link, takes, acts[|acts| - 1].1))
  {
    hide Filed, Sourced, Returned, IdKey, Responses, ResultsReturned, EntriesFiled, At, Receive, IssueRequest,
      RequestId;
    var n, act := |acts| - 1, acts[|acts| - 1].1;
    WireLonger(options, takes, acts, n, w);
    forall m | Puts(w, act, m)
      ensures Sourced(options, takes, acts, m)
    {
      PutsLast(options, takes, acts, m);
    }
  }

  // ----- the calls of the handlers --------------------------------------------------------------

  /** A new call is the response just received, or an error of the proxy's own. */
  lemma ReceiveCalls(p: Proxy, e: Event, k: string, reply: Payload)
    requires k in Receive(p, e).calls && reply in Receive(p, e).calls[k]
    ensures || (k in p.calls && reply in p.calls[k])
            || (reply.Response? && reply.outcome.Error?)
            || (e.Envelope? && e.payload == reply)
  {
    hide IdKey;
  }

  lemma IssueCalls(p: Proxy, taken: bool, k: string, reply: Payload)
    requires k in IssueRequest(p, taken).calls && reply in IssueRequest(p, taken).calls[k]
    ensures (k in p.calls && reply in p.calls[k]) || (reply.Response? && reply.outcome.Error?)
  {
    hide StringKey, RequestId;
  }

  lemma FailCalls(p: Proxy, code: int, k: string, reply: Payload)
    requires k in FailPending(p, code).calls && reply in FailPending(p, code).calls[k]
    ensures (k in p.calls && reply in p.calls[k]) || (reply.Response? && reply.outcome.Error?)
  {
  }

  lemma {:induction false} InResponses(log: seq<Event>, i: nat)
    requires i < |log| && log[i].Envelope? && log[i].payload.Response?
    ensures log[i].payload in Responses(log)
  {
    if i < |log| - 1 {
      InResponses(log[..|log| - 1], i);
    }
  }

  lemma CallsTraced(options: Options, takes: Endpoints, acts: Acts, w: System, link: Link, act: Act)
    requires CallsReturned(options, takes, acts, w.proxy.calls)
    requires w.wire.Online? ==> ResultsReturned(options, takes, acts, Responses(Log(w.bridge, w.wire.connectionId)))
    ensures CallsReturned(options, takes, acts, Next(w, link, takes, act).proxy.calls)
  {
    hide Returned, IdKey, Responses, Receive, IssueRequest, FailPending, Register, ReceiveFromFrontend, Step, Log;
    var q := Next(w, link, takes, act).proxy;
    forall k, p, l | k in q.calls && p in q.calls[k] && RepliesTo(p, l) && p.outcome.Result?
      ensures Returned(options, takes, acts, l, p.outcome)
    {
      match act
      case Issue(_, _, taken) => IssueCalls(w.proxy, taken, k, p);
      case DeliverDown(_, _) =>
        if w.wire.Online? && w.wire.delivered < |Log(w.bridge, w.wire.connectionId)| {
          var log := Log(w.bridge, w.wire.connectionId);
          if takes(w.wire.connectionId, w.wire.delivered) {
            ReceiveCalls(w.proxy, log[w.wire.delivered], k, p);
            if log[w.wire.delivered].Envelope? && log[w.wire.delivered].payload == p {
              InResponses(log, w.wire.delivered);
            }
          }
        }
      case Detach =>
        if w.wire.Online? {
          FailCalls(w.proxy, -32020, k, p);
        }
      case _ =>
    }
  }

  lemma NextTraced(options: Options, takes: Endpoints, acts: Acts)
    requires acts != [] && Possible(At(options, takes, acts, |acts| - 1), acts[|acts| - 1].1)
    requires var w := At(options, takes, acts, |acts| - 1);
      Traced(options, takes, acts[..|acts| - 1], w) && Inv(w.bridge) && HeardNames(w.bridge)
    ensures Traced(options, takes, acts, At(options, takes, acts, |acts|))
  {
    hide At, Next, Possible, WireTraced, CallsReturned, ResultsReturned, HeardNames, Consistent, Responses;
    var n := |acts| - 1;
    var w, link, act := At(options, takes, acts, n), acts[n].0, acts[n].1;
    LastAct(options, takes, acts);
    CallsLonger(options, takes, acts, n, w.proxy.calls);
    WireLonger(options, takes, acts, n, w);
    assert w.wire.Online? ==> ResultsReturned(options, takes, acts, Responses(Log(w.bridge, w.wire.connectionId))) by {
      WireResults(options, takes, acts, w);
    }
    CallsTraced(options, takes, acts, w, link, act);
    WireNext(options, takes, acts);
  }

  lemma WireResults(options: Options, takes: Endpoints, acts: Acts, w: System)
    requires WireTraced(options, takes, acts, w)
    ensures w.wire.Online? ==> ResultsReturned(options, takes, acts, Responses(Log(w.bridge, w.wire.connectionId)))
  {
  }

  lemma WireNext(options: Options, takes: Endpoints, acts: Acts)
    requires acts != [] && Possible(At(options, takes, acts, |acts| - 1), acts[|acts| - 1].1)
    requires var w := At(options, takes, acts, |acts| - 1);
      WireTraced(options, takes, acts[..|acts| - 1], w) && Inv(w.bridge) && HeardNames(w.bridge)
    ensures var w := At(options, takes, acts, |acts| - 1);
      WireTraced(options, takes, acts, Next(w, acts[|acts| - 1].0, takes, acts[|acts| - 1].1))
  {
    hide At, Possible, WireTraced, HeardNames, Consistent, Register, ReceiveFromFrontend, Step, Receive, IssueRequest,
      TransportDisconnected;
    var n := |acts| - 1;
    var w, link, act := At(options, takes, acts, n), acts[n].0, acts[n].1;
    WireLonger(options, takes, acts, n, w);
    match act
    case Attach =>
      if w.wire.Offline? {
        AttachTraced(options, takes, acts, w, link);
      }
    case DeliverUp =>
      if w.wire.Online? && w.wire.up != [] {
        DeliverUpTraced(options, takes, acts, w, link);
      }
    case Elsewhere(input) => ElsewhereTraced(options, takes, acts, w, link, input);
    case Detach => OfflineTraced(options, takes, acts, Next(w, link, takes, act));
    case _ => QueueTraced(options, takes, acts, w, link);
  }

  lemma OfflineTraced(options: Options, takes: Endpoints, acts: Acts, w: System)
    ensures w.wire.Offline? ==> WireTraced(options, takes, acts, w)
  {
  }

  // ----- whole runs -----------------------------------------------------------------------------

  lemma NextHeard(w: System, link: Link, takes: Endpoints, act: Act)
    requires Inv(w.bridge) && HeardNames(w.bridge) && Possible(w, act)
    ensures HeardNames(Next(w, link, takes, act).bridge)
  {
    hide HeardNames, Consistent, Register, ReceiveFromFrontend, Receive, IssueRequest, TransportDisconnected,
      Enumerates;
    match act
    case Attach => StepHeardNames(w.bridge, link, DoRegister);
    case DeliverUp =>
      if w.wire.Online? && w.wire.up != [] {
        StepHeardNames(w.bridge, link, DoReceiveFromFrontend(w.wire.connectionId, w.wire.up[0]));
      }
    case Elsewhere(input) => StepHeardNames(w.bridge, link, input);
    case _ =>
  }

  lemma StartTraced(options: Options, takes: Endpoints)
    ensures Traced(options, takes, [], InitialSystem(options)) && HeardNames(InitialSystem(options).bridge)
  {
  }

  lemma {:induction false} RunTraced(options: Options, takes: Endpoints, acts: Acts)
    requires Feasible(InitialSystem(options), takes, acts)
    ensures var w := At(options, takes, acts, |acts|); Traced(options, takes, acts, w) && HeardNames(w.bridge)
  {
    hide Traced, HeardNames, Possible, Next, Sound;
    if acts == [] {
      StartTraced(options, takes);
    } else {
      var n := |acts| - 1;
      FeasibleUpTo(InitialSystem(options), takes, acts, n);
      RunTraced(options, takes, acts[..n]);
      RunSound(options, takes, acts[..n]);
      AtPrefix(options, takes, acts, n, n);
      LastAct(options, takes, acts);
      var w := At(options, takes, acts, n);
      assert acts[..n][..n] == acts[..n];
      BridgeSound(w, takes);
      assert Possible(w, acts[n].1);
      NextTraced(options, takes, acts);
      NextHeard(w, acts[n].0, takes, acts[n].1);
    }
  }

  lemma BridgeSound(w: System, takes: Endpoints)
    requires Sound(w, takes)
    ensures Inv(w.bridge) && ExactlyOnce(w.proxy)
  {
  }

  /** Over every run: a result that reached the handler of a request is the outcome of the app-server's response to the
      forwarding of a message with this request's id, and the proxy itself had put that message into the queue, by
      issuing the request or by a posted message that used the same id. Every other reply is an error. */
  lemma ResultsAreAnswers(options: Options, takes: Endpoints, acts: Acts, k: string, reply: Payload)
    requires Feasible(InitialSystem(options), takes, acts)
    requires var calls := At(options, takes, acts, |acts|).proxy.calls; k in calls && reply in calls[k]
    ensures RepliesTo(reply, k) && (reply.outcome.Error? || Returned(options, takes, acts, k, reply.outcome))
  {
    hide Feasible, Sound, Returned, WireTraced, ExactlyOnce, Run;
    RunTraced(options, takes, acts);
    RunSound(options, takes, acts);
    assert acts[..|acts|] == acts;
    BridgeSound(At(options, takes, acts, |acts|), takes);
    CallReplies(At(options, takes, acts, |acts|).proxy, k, reply);
  }

  lemma CallReplies(p: Proxy, k: string, reply: Payload)
    requires ExactlyOnce(p) && k in p.calls && reply in p.calls[k]
    ensures RepliesTo(reply, k)
  {
    var i :| 0 <= i < |p.calls[k]| && p.calls[k][i] == reply;
  }

  /** The outcome is the app-server's answer to the request that act `i` itself issued and sent. */
  ghost predicate AnswersIssue(options: Options, takes: Endpoints, acts: Acts, i: nat, k: string, outcome: Outcome) {
    && Issues(InitialSystem(options), takes, acts, i, k)
    && exists j, r, c, m, u :: i < j < r < |acts| && Answered(acts[r].1, u, outcome) &&
         ForwardsAt(options, takes, acts, j, c, m, u) && IsRequestFor(m, k) &&
         m in RequestMessage(At(options, takes, acts, i).proxy, acts[i].1.verb, acts[i].1.body, acts[i].1.taken)
  }

  /** No posted message uses the id of this request. */
  ghost predicate NotPosted(acts: Acts, k: string) {
    forall i :: 0 <= i < |acts| && acts[i].1.Post? ==> !IsRequestFor(acts[i].1.message, k)
  }

  /** The answer a handler gets is the answer to its own request: as long as the application posts no raw message under
      the request's id, a result is the outcome of the app-server's response to the very message the Issue sent. */
  lemma ResultIsOwn(options: Options, takes: Endpoints, acts: Acts, k: string, outcome: Outcome)
    requires Returned(options, takes, acts, k, outcome) && NotPosted(acts, k)
    ensures exists i :: AnswersIssue(options, takes, acts, i, k, outcome)
  {
    hide At, B.ForwardsStep, RequestMessage, IdKey;
    var r, c, m, u :| 0 <= r < |acts| && Answered(acts[r].1, u, outcome) && IsRequestFor(m, k) &&
                      Filed(options, takes, acts[..r], c, m, u);
    var j :| 0 <= j < r && ForwardsAt(options, takes, acts[..r], j, c, m, u)
      && Sourced(options, takes, acts[..r][..j], m);
    assert acts[..r][..j] == acts[..j];
    var i: nat :| i < j && Puts(At(options, takes, acts[..j], i), acts[..j][i].1, m);
    AtPrefix(options, takes, acts, j, i);
    AtPrefix(options, takes, acts, r, j);
    AtPrefix(options, takes, acts, r, j + 1);
    assert ForwardsAt(options, takes, acts, j, c, m, u);
    assert acts[i].1.Issue?;
    OwnMessage(options, takes, acts, i, m, k);
    assert AnswersIssue(options, takes, acts, i, k, outcome);
  }

  lemma OwnMessage(options: Options, takes: Endpoints, acts: Acts, i: nat, m: FrontendMessage, k: string)
    requires i < |acts| && acts[i].1.Issue? && IsRequestFor(m, k)
    requires m in RequestMessage(At(options, takes, acts, i).proxy, acts[i].1.verb, acts[i].1.body, acts[i].1.taken)
    ensures Issues(InitialSystem(options), takes, acts, i, k)
  {
    hide Run, RequestId;
    StringKeyIsIdKey(RequestId(At(options, takes, acts, i).proxy));
  }

  // ----- why the posted messages matter ---------------------------------------------------------

  /** An idle connection of the controller over which a request could be sent and answered at once. */
  ghost predicate Idle(w: System, link: Link, takes: Endpoints) {
    && Inv(w.bridge) && w.wire.Online? && w.wire.up == []
    && var c := w.wire.connectionId;
    && w.bridge.tables.controller == Some(c) && w.bridge.tables.ready && link.reachable && (forall n :: link.takes(n))
    && w.wire.delivered == |Log(w.bridge, c)| && takes(c, |Log(w.bridge, c)|)
    && w.proxy.view.connectionId.Some? && w.proxy.view.ready
    && FrontendKey(c, IssueKey(w.proxy)) !in w.bridge.tables.requestKeys
  }

  /** A raw message under the id of the next request. */
  function Guess(w: System, verb: string, body: string): Payload {
    Request(Str(RequestId(w.proxy)), verb, body, true)
  }

  /** The bridge forwards the posted message. */
  lemma GuessForwarded(w: System, link: Link, takes: Endpoints, verb: string, body: string)
    requires Idle(w, link, takes) && verb != "initialize" && verb != "initialized"
    ensures var s, c, id := w.bridge, w.wire.connectionId, Str(RequestId(w.proxy));
      var t := ReceiveFromFrontend(s, link, c, AppServerMessage(Some(Guess(w, verb, body))));
      var u := StringKey(RemoteId(s.tables, c));
      && t.down == s.down && t.tables == FileRequest(s.tables, c, id)
      && t.up == s.up + [Sent(Request(Str(RemoteId(s.tables, c)), verb, body, true), FromFrontend(c), true)]
      && u in t.tables.requestOwners && t.tables.requestOwners[u].connectionId == c
      && t.tables.requestOwners[u].frontendId == id && IdKey(id) == Some(IssueKey(w.proxy)) && Inv(t)
  {
    hide RequestId, RemoteId, RemoteNumber, StringKey, FrontendKey, IdKey, KeysFresh, TablesInverse, OwnersRegistered,
      IsConnectionName;
    StringKeyIsIdKey(RequestId(w.proxy));
    StepInv(w.bridge, link, DoReceiveFromFrontend(w.wire.connectionId, AppServerMessage(Some(Guess(w, verb, body)))));
  }

  /** The acts of the run: the application posts a raw message under the id of its next request, then issues the
      request, and the app-server answers the raw message. */
  function StealingActs(w: System, takes: Endpoints, link: Link, raw: Payload, verb: string, body: string,
                        answer: Payload, order: seq<string>): Acts
  {
    [(link, Post(AppServerMessage(Some(raw)), true)), (link, DeliverUp), (link, Issue(verb, body, true)),
     (link, Elsewhere(DoReceiveFromAppServer(answer, false, order))), (link, DeliverDown(false, true))]
  }

  /** Without the condition the result need not be the request's own: on any idle connection, posting a raw message
      under the id of the next request makes that request's handler receive the raw message's outcome. */
  lemma PostedIdSteals(w: System, link: Link, takes: Endpoints, rawVerb: string, rawBody: string, verb: string,
                       body: string, outcome: Outcome, order: seq<string>)
    requires Idle(w, link, takes) && rawVerb != "initialize" && rawVerb != "initialized"
    ensures var answer := Response(Str(RemoteId(w.bridge.tables, w.wire.connectionId)), outcome, true);
      var acts := StealingActs(w, takes, link, Guess(w, rawVerb, rawBody), verb, body, answer, order);
      var k, id := IssueKey(w.proxy), Str(RequestId(w.proxy));
      var q := Run(w, takes, acts).proxy;
      k in q.calls && q.calls[k] == [Response(id, outcome, true)] && k !in q.pending
  {
    var answer := Response(Str(RemoteId(w.bridge.tables, w.wire.connectionId)), outcome, true);
    var raw := Guess(w, rawVerb, rawBody);
    var acts := StealingActs(w, takes, link, raw, verb, body, answer, order);
    hide Idle, Next, Guess, RequestId, RemoteId, IssueKey;
    var w1 := Next(w, acts[0].0, takes, acts[0].1);
    var w2 := Next(w1, acts[1].0, takes, acts[1].1);
    var w3 := Next(w2, acts[2].0, takes, acts[2].1);
    var w4 := Next(w3, acts[3].0, takes, acts[3].1);
    RunTrail(takes, acts, [w, w1, w2, w3, w4, Next(w4, acts[4].0, takes, acts[4].1)]);
    StolenReply(w, link, takes, rawVerb, rawBody, verb, body, outcome, order);
  }

  /** A run passes through the systems that the acts lead to, one after the other. */
  lemma {:induction false} RunTrail(takes: Endpoints, acts: Acts, ws: seq<System>)
    requires |ws| == |acts| + 1
    requires forall i :: 0 <= i < |acts| ==> ws[i + 1] == Next(ws[i], acts[i].0, takes, acts[i].1)
    ensures forall i :: 0 <= i <= |acts| ==> Run(ws[0], takes, acts[..i]) == ws[i]
    ensures Run(ws[0], takes, acts) == ws[|acts|]
    ensures Feasible(ws[0], takes, acts) <==> forall i :: 0 <= i < |acts| ==> Possible(ws[i], acts[i].1)
    decreases |acts|
  {
    hide Next, Possible;
    assert acts[..|acts|] == acts;
    if acts != [] {
      var before := acts[..|acts| - 1];
      RunTrail(takes, before, ws[..|acts|]);
      forall i | 0 <= i < |acts|
        ensures Run(ws[0], takes, acts[..i]) == ws[i]
      {
        assert before[..i] == acts[..i];
      }
    }
  }

  lemma StolenReply(w: System, link: Link, takes: Endpoints, rawVerb: string, rawBody: string, verb: string,
                    body: string, outcome: Outcome, order: seq<string>)
    requires Idle(w, link, takes) && rawVerb != "initialize" && rawVerb != "initialized"
    ensures var c := w.wire.connectionId; var answer := Response(Str(RemoteId(w.bridge.tables, c)), outcome, true);
      var k, id := IssueKey(w.proxy), Str(RequestId(w.proxy));
      var w1 := Next(w, link, takes, Post(AppServerMessage(Some(Guess(w, rawVerb, rawBody))), true));
      var w2 := Next(w1, link, takes, DeliverUp);
      var w3 := Next(w2, link, takes, Issue(verb, body, true));
      var w4 := Next(w3, link, takes, Elsewhere(DoReceiveFromAppServer(answer, false, order)));
      var q := Next(w4, link, takes, DeliverDown(false, true)).proxy;
      k in q.calls && q.calls[k] == [Response(id, outcome, true)] && k !in q.pending
  {
    hide RequestId, RemoteId, StringKey, FrontendKey, IdKey, Consistent, ReceiveFromFrontend, ReceiveFromAppServer,
      FileRequest;
    var s, c, raw := w.bridge, w.wire.connectionId, Guess(w, rawVerb, rawBody);
    var t := ReceiveFromFrontend(s, link, c, AppServerMessage(Some(raw)));
    var answer := Response(Str(RemoteId(s.tables, c)), outcome, true);
    var none: seq<Payload> := [];
    GuessForwarded(w, link, takes, rawVerb, rawBody);
    StringKeyIsIdKey(RemoteId(s.tables, c));
    Routed(t, link, answer, order, StringKey(RemoteId(s.tables, c)));
    assert none + [Response(Str(RequestId(w.proxy)), outcome, true)] ==
      [Response(Str(RequestId(w.proxy)), outcome, true)];
  }

  lemma Routed(s: State, link: Link, p: Payload, order: seq<string>, u: string)
    requires Inv(s) && p.Response? && IdKey(p.id) == Some(u) && u in s.tables.requestOwners
    ensures var t := ReceiveFromAppServer(s, link, p, false, order); var r := s.tables.requestOwners[u];
      && r.connectionId in s.tables.frontends
      && Log(t, r.connectionId) == Log(s, r.connectionId) +
           [Envelope(r.connectionId, s.tables.frontends[r.connectionId], s.sequence + 1,
                     Response(r.frontendId, p.outcome, p.strict))]
  {
    hide Inv, IdKey, ReceiveFromAppServer;
    Routing.ResponseReachesOwner(s, link, p, false, order, u);
  }

  // ----- such a connection can be reached -------------------------------------------------------

  /** The app-server connects and completes the handshake, a frontend attaches and is greeted. */
  function OpeningActs(options: Options, link: Link, body: string): Acts {
    var id := LocalId(Initial(options).tables.(generation := 1));
    [(link, Elsewhere(DoConnected)),
     (link, Elsewhere(DoReceiveFromAppServer(Response(id, Result(body), true), false, []))),
     (link, Attach), (link, DeliverDown(false, true)), (link, DeliverDown(false, true)),
     (link, DeliverDown(false, true))]
  }

  lemma Handshaken(options: Options, link: Link, body: string)
    requires link.reachable && forall n :: link.takes(n)
    ensures var id := LocalId(Initial(options).tables.(generation := 1));
      var s := AppServerConnected(Initial(options), link);
      var t := ReceiveFromAppServer(s, link, Response(id, Result(body), true), false, []);
      && s.tables.frontends == map[] && t.tables.ready && t.tables.frontends == map[] && t.tables.controller.None?
      && t.tables.requestKeys == map[] && t.tables.options == options
  {
    hide Diagnose, BroadcastProvider, LocalNumber, Numbered, StringKey;
    var id := LocalId(Initial(options).tables.(generation := 1));
    StringKeyIsIdKey(id.text);
  }

  /** The three events of the greeting. */
  lemma Greeted(s: State, link: Link)
    requires s.tables.frontends == map[] && s.tables.options.maximumFrontends > 0
    requires s.tables.options.firstFrontendBecomesController && s.tables.controller.None?
    ensures var t, c := Register(s, link), ConnectionName(s.tables.nextConnection);
      && c in t.tables.frontends && t.tables.controller == Some(c) && t.tables.ready == s.tables.ready
      && t.tables.requestKeys == s.tables.requestKeys
      && |Log(t, c)| == 3 && forall i :: 0 <= i < 3 ==> !Log(t, c)[i].Envelope?
  {
    hide ConnectionName;
  }

  /** An event that is no envelope draws no message from the proxy. */
  lemma Heard(w: System, link: Link, takes: Endpoints)
    requires w.wire.Online? && w.wire.delivered < |Log(w.bridge, w.wire.connectionId)|
    requires !Log(w.bridge, w.wire.connectionId)[w.wire.delivered].Envelope?
    ensures var v := Next(w, link, takes, DeliverDown(false, true));
      && v.bridge == w.bridge && v.wire.Online? && v.wire.connectionId == w.wire.connectionId
      && v.wire.up == w.wire.up && v.wire.delivered == w.wire.delivered + 1
  {
    assert w.wire.up + [] == w.wire.up;
  }

  /** So the condition is needed on runs from the initial state. */
  lemma IdleReached(options: Options, link: Link, takes: Endpoints, body: string)
    requires options.firstFrontendBecomesController && options.maximumFrontends > 0
    requires link.reachable && (forall n :: link.takes(n)) && (forall c, n :: takes(c, n))
    ensures var w0, acts := InitialSystem(options), OpeningActs(options, link, body);
      Feasible(w0, takes, acts) && Idle(Run(w0, takes, acts), link, takes)
  {
    hide AppServerConnected, ReceiveFromAppServer, Register, Inv, LocalId, ConnectionName, Log, Feasible, Receive;
    var w0, acts := InitialSystem(options), OpeningActs(options, link, body);
    Handshaken(options, link, body);
    var w1 := Next(w0, link, takes, acts[0].1);
    var w2 := Next(w1, link, takes, acts[1].1);
    var w3 := Next(w2, link, takes, Attach);
    Greeted(w2.bridge, link);
    var w4 := Next(w3, link, takes, acts[3].1);
    Heard(w3, link, takes);
    var w5 := Next(w4, link, takes, acts[3].1);
    Heard(w4, link, takes);
    var w6 := Next(w5, link, takes, acts[3].1);
    Heard(w5, link, takes);
    RunTrail(takes, acts, [w0, w1, w2, w3, w4, w5, w6]);
    QuiescentReplica(options, takes, acts);
    RunSound(options, takes, acts);
    BridgeSound(w6, takes);
  }
}
