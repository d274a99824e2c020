/** Server requests: who may answer them, and where each of them ends. */
module ServerRequests {
  import opened Wrappers
  import opened JsonRpc
  import opened BridgeState
  import opened BridgeEffects
  import opened BridgeInvariant
  import opened Routing
  import opened BridgeRuns

  /** One if the request is waiting for a frontend's answer. */
  function Held(t: Tables, k: string): nat {
    if k in t.serverOwners && t.serverOwners[k].Frontend? then 1 else 0
  }

  predicate IsReply(sent: Sent, k: string) {
    sent.payload.Response? && !sent.origin.FromLocal? && IdKey(sent.payload.id) == Some(k)
  }

  /** The replies attempted to requests with key `k`, those of the bridge's own process apart. */
  function Replies(up: seq<Sent>, k: string): nat {
    if up == [] then 0 else Replies(up[..|up| - 1], k) + if IsReply(up[|up| - 1], k) then 1 else 0
  }

  lemma RepliesSnoc(up: seq<Sent>, sent: Sent, k: string)
    ensures Replies(up + [sent], k) == Replies(up, k) + if IsReply(sent, k) then 1 else 0
  {
    assert (up + [sent])[..|up|] == up;
  }

  /** One if the step receives a server request that the bridge's own process does not take. */
  function Receives(t: Tables, input: Input, k: string): nat {
    if input.DoReceiveFromAppServer? && input.payload.Request? && IdKey(input.payload.id) == Some(k) &&
       (k in t.serverOwners || input.payload.verb !in t.localMethods) then 1 else 0
  }

  /** One if the step learns that a held request was resolved elsewhere. */
  function Resolves(t: Tables, input: Input, k: string): nat {
    if input.DoReceiveFromAppServer? && ResolvedKey(input.payload) == Some(k) then Held(t, k) else 0
  }

  /** One if the step loses the app-server that asked. */
  function Clears(t: Tables, input: Input, k: string): nat {
    if input.DoDisconnected? then Held(t, k) else 0
  }

  ghost predicate Balanced(s: State, link: Link, input: Input, t: State, k: string) {
    Replies(t.up, k) + Held(t.tables, k) + Resolves(s.tables, input, k) + Clears(s.tables, input, k) ==
    Replies(s.up, k) + Held(s.tables, k) + Receives(s.tables, input, k)
  }

  // ----- departing frontends --------------------------------------------------------------------

  /** What the last element of the order adds. */
  lemma FailedLast(s: State, link: Link, prior: seq<string>, last: string)
    requires last !in prior
    ensures var before := FailServerRequests(s, link, prior);
      FailServerRequests(s, link, prior + [last]).up ==
        if last in s.tables.serverOwners
        then before.up + [Sent(ErrorResponse(s.tables.serverOwners[last].id, -32011), FromBridge, Takes(before, link))]
        else before.up
  {
    FailServerRequestsTables(s, link, prior);
    assert (prior + [last])[..|prior|] == prior;
  }

  /** Exactly one -32011 reply is attempted for each server request of a departing frontend. */
  lemma {:induction false} FailedExactlyOnce(s: State, link: Link, order: seq<string>)
    requires forall i, j :: 0 <= i < j < |order| ==> order[i] != order[j]
    requires forall i :: 0 <= i < |order| ==> order[i] in s.tables.serverOwners
    ensures var t := FailServerRequests(s, link, order);
      && |t.up| == |s.up| + |order| && s.up <= t.up
      && forall i :: 0 <= i < |order| ==>
           t.up[|s.up| + i].payload == ErrorResponse(s.tables.serverOwners[order[i]].id, -32011) &&
           t.up[|s.up| + i].origin.FromBridge?
  {
    if order != [] {
      hide FailServerRequests;
      var prior, last := order[..|order| - 1], order[|order| - 1];
      assert order == prior + [last] && last !in prior;
      FailedExactlyOnce(s, link, prior);
      FailedLast(s, link, prior, last);
      var before, t := FailServerRequests(s, link, prior), FailServerRequests(s, link, order);
      assert before.up == t.up[..|before.up|];
      forall i | 0 <= i < |prior| ensures t.up[|s.up| + i] == before.up[|s.up| + i] && order[i] == prior[i] {
      }
    }
  }

  lemma FailedOne(s: State, link: Link, prior: seq<string>, last: string, k: string)
    requires OwnersRegistered(s.tables) && last !in prior
    ensures Replies(FailServerRequests(s, link, prior + [last]).up, k) ==
      Replies(FailServerRequests(s, link, prior).up, k) + if k == last && k in s.tables.serverOwners then 1 else 0
  {
    hide IdKey, Replies, FailServerRequests;
    FailedLast(s, link, prior, last);
    var before := FailServerRequests(s, link, prior);
    if last in s.tables.serverOwners {
      RepliesSnoc(before.up,
                  Sent(ErrorResponse(s.tables.serverOwners[last].id, -32011), FromBridge, Takes(before, link)), k);
    }
  }

  lemma {:induction false} FailedReplies(s: State, link: Link, order: seq<string>, k: string)
    requires OwnersRegistered(s.tables)
    requires forall i, j :: 0 <= i < j < |order| ==> order[i] != order[j]
    ensures Replies(FailServerRequests(s, link, order).up, k) ==
      Replies(s.up, k) + if k in order && k in s.tables.serverOwners then 1 else 0
  {
    if order != [] {
      hide OwnersRegistered, Replies, FailServerRequests;
      var prior, last := order[..|order| - 1], order[|order| - 1];
      FailedReplies(s, link, prior, k);
      assert last !in prior;
      FailedOne(s, link, prior, last, k);
      assert order == prior + [last];
    }
  }

  lemma UnregisterBalanced(s: State, link: Link, c: string, order: seq<string>, k: string)
    requires Inv(s) && Enabled(s, DoUnregister(c, order))
    ensures Balanced(s, link, DoUnregister(c, order), Unregister(s, link, c, order), k)
  {
    hide IdKey, RolesAgree, TablesInverse, KeysFresh, BroadcastController;
    if c in s.tables.frontends {
      FailedReplies(s, link, order, k);
      FailServerRequestsTables(s, link, order);
      assert k in order <==> k in OwnedBy(s.tables, c);
    }
  }

  // ----- answers from frontends -----------------------------------------------------------------

  lemma AnswerOwners(s: State, link: Link, c: string, m: FrontendMessage)
    ensures var f := Forwarded(s.tables, link, c, m); var t := ReceiveFromFrontend(s, link, c, m).tables;
      t.serverOwners == if f.Some? && f.value.Response? && IdKey(f.value.id).Some?
                        then s.tables.serverOwners - {IdKey(f.value.id).value} else s.tables.serverOwners
  {
    hide ReceiveFromFrontend, CommandEffect, IdKey, FrontendKey, RemoteId, RemoteNumber, StringKey, Refusal, Owns,
      Takes;
    FromFrontendEffect(s, link, c, m);
  }

  /** The only response a frontend's message sends upstream answers a request that this frontend holds. */
  lemma ForwardedAnswer(t: Tables, link: Link, c: string, m: FrontendMessage)
    requires Forwarded(t, link, c, m).Some? && Forwarded(t, link, c, m).value.Response?
    ensures var p := Forwarded(t, link, c, m).value;
      c in t.frontends && m == AppServerMessage(Some(p)) && IdKey(p.id).Some? && Owns(t, c, IdKey(p.id).value)
  {
    hide IdKey;
  }

  lemma FromFrontendBalanced(s: State, link: Link, c: string, m: FrontendMessage, k: string)
    ensures Balanced(s, link, DoReceiveFromFrontend(c, m), ReceiveFromFrontend(s, link, c, m), k)
  {
    hide IdKey, Forwarded, ReceiveFromFrontend;
    FrontendStepSends(s, link, c, m);
    AnswerOwners(s, link, c, m);
    var f := Forwarded(s.tables, link, c, m);
    if f.Some? {
      RepliesSnoc(s.up, Sent(f.value, FromFrontend(c), Takes(s, link)), k);
      if f.value.Response? {
        ForwardedAnswer(s.tables, link, c, m);
      }
    } else {
      assert s.up + [] == s.up;
    }
  }

  // ----- messages from the app-server -----------------------------------------------------------

  lemma RouteResponseBalanced(s: State, link: Link, key: string, p: Payload, k: string)
    requires p.Response?
    ensures var t := RouteResponse(s, link, key, p);
      Replies(t.up, k) == Replies(s.up, k) && t.tables.serverOwners == s.tables.serverOwners
  {
    hide IdKey, Diagnose, Deliver, BroadcastProvider, Replies;
    var acknowledged := Sent(InitializedNotification, FromLocal, Takes(s, link));
    RepliesSnoc(s.up, acknowledged, k);
  }

  lemma RouteServerRequestBalanced(s: State, link: Link, key: string, p: Payload, throws: bool, order: seq<string>,
                                   k: string)
    requires p.Request? && IdKey(p.id) == Some(key)
    ensures Balanced(s, link, DoReceiveFromAppServer(p, throws, order), RouteServerRequest(s, link, key, p, throws), k)
  {
    hide IdKey, Diagnose, Deliver, Replies;
    RepliesSnoc(s.up, Sent(ErrorResponse(p.id, -32600), FromBridge, Takes(s, link)), k);
    RepliesSnoc(s.up, Sent(ErrorResponse(p.id, -32603), FromLocal, Takes(s, link)), k);
    RepliesSnoc(s.up, Sent(ErrorResponse(p.id, -32010), FromBridge, Takes(s, link)), k);
  }

  lemma FromAppServerBalanced(s: State, link: Link, p: Payload, throws: bool, order: seq<string>, k: string)
    ensures Balanced(s, link, DoReceiveFromAppServer(p, throws, order), ReceiveFromAppServer(s, link, p, throws, order),
                     k)
  {
    hide IdKey, Diagnose, Fanout, RouteResponse, RouteServerRequest, Replies;
    if p.Response? && IdKey(p.id).Some? {
      RouteResponseBalanced(s, link, IdKey(p.id).value, p, k);
    } else if p.Request? && IdKey(p.id).Some? {
      RouteServerRequestBalanced(s, link, IdKey(p.id).value, p, throws, order, k);
    }
  }

  // ----- the other steps ------------------------------------------------------------------------

  lemma RequestLocallyBalanced(s: State, link: Link, verb: string, body: string, handler: Handler, k: string)
    ensures var t := RequestLocally(s, link, verb, body, handler);
      Replies(t.up, k) == Replies(s.up, k) && t.tables.serverOwners == s.tables.serverOwners
  {
    hide IdKey, LocalId, LocalNumber, Replies;
    RepliesSnoc(s.up, Sent(Request(LocalId(s.tables), verb, body, true), FromLocal, Takes(s, link)), k);
  }

  /** Every step balances the account of every server-request id. */
  lemma StepBalanced(s: State, link: Link, input: Input, k: string)
    requires Inv(s) && Enabled(s, input)
    ensures Balanced(s, link, input, Step(s, link, input), k)
  {
    hide Inv, IdKey, Unregister, ReceiveFromFrontend, ReceiveFromAppServer, RequestLocally, Diagnose, BroadcastProvider,
      FailRequests, Greet, Replies;
    match input
    case DoUnregister(c, order) => UnregisterBalanced(s, link, c, order, k);
    case DoReceiveFromFrontend(c, m) => FromFrontendBalanced(s, link, c, m, k);
    case DoReceiveFromAppServer(p, throws, order) => FromAppServerBalanced(s, link, p, throws, order, k);
    case DoConnected =>
      var s1 := s.(tables := s.tables.(ready := false, generation := s.tables.generation + 1));
      var s2 := Diagnose(BroadcastProvider(s1, Connected), "appserver-connected", None);
      RequestLocallyBalanced(s2, link, "initialize", "clientInfo", InitializeHandler, k);
    case DoRequestLocally(verb, body) => RequestLocallyBalanced(s, link, verb, body, UserHandler, k);
    case DoSendRaw(p) => RepliesSnoc(s.up, Sent(p, FromLocal, Takes(s, link)), k);
    case DoDisconnected(order) => assert Held(Step(s, link, input).tables, k) == 0;
    case DoRegister =>
    case DoSetLocalHandler(verb, present) =>
  }

  // ----- whole runs -----------------------------------------------------------------------------

  function Received(options: Options, trace: Trace, k: string): nat {
    if trace == [] then 0
    else
      var n := |trace| - 1;
      Received(options, trace[..n], k) + Receives(After(options, trace[..n]).tables, trace[n].1, k)
  }

  function Resolved(options: Options, trace: Trace, k: string): nat {
    if trace == [] then 0
    else
      var n := |trace| - 1;
      Resolved(options, trace[..n], k) + Resolves(After(options, trace[..n]).tables, trace[n].1, k)
  }

  function Cleared(options: Options, trace: Trace, k: string): nat {
    if trace == [] then 0
    else
      var n := |trace| - 1;
      Cleared(options, trace[..n], k) + Clears(After(options, trace[..n]).tables, trace[n].1, k)
  }

  /** Conservation of server requests: over every run, and for every id, the requests received are exactly
      those replied to, still held by a frontend, resolved elsewhere, or lost with the app-server. */
  lemma {:induction false} Conservation(options: Options, trace: Trace, k: string)
    requires Feasible(options, trace)
    ensures var s := After(options, trace);
      Received(options, trace, k) ==
        Replies(s.up, k) + Held(s.tables, k) + Resolved(options, trace, k) + Cleared(options, trace, k)
  {
    hide Inv, Enabled, Step, Receives, Resolves, Clears, Held, Sound;
    if trace == [] {
      assert Held(Initial(options).tables, k) == 0 by { NothingHeld(options, k); }
    } else {
      var n := |trace| - 1;
      FeasiblePrefix(options, trace, n);
      Conservation(options, trace[..n], k);
      RunSound(options, trace[..n]);
      assert Inv(After(options, trace[..n])) by { SoundInv(After(options, trace[..n])); }
      assert Enabled(After(options, trace[..n]), trace[n].1);
      StepBalanced(After(options, trace[..n]), trace[n].0, trace[n].1, k);
    }
  }

  lemma NothingHeld(options: Options, k: string)
    ensures Held(Initial(options).tables, k) == 0
  {
  }

  // ----- a held request was delivered to its holder ---------------------------------------------

  /** The step receives a server request with key `k` that goes to the controller. */
  ghost predicate Routes(t: Tables, input: Input, k: string) {
    && input.DoReceiveFromAppServer? && input.payload.Request? && IdKey(input.payload.id) == Some(k)
    && k !in t.serverOwners && input.payload.verb !in t.localMethods
    && t.controller.Some? && t.controller.value in t.frontends
  }

  lemma AppServerHolds(t: Tables, link: Link, takes: bool, p: Payload, throws: bool, order: seq<string>, k: string)
    ensures var u := AppServerEffect(t, link, takes, p, throws);
      k in u.serverOwners && u.serverOwners[k].Frontend? ==>
        || (k in t.serverOwners && u.serverOwners[k] == t.serverOwners[k])
        || (Routes(t, DoReceiveFromAppServer(p, throws, order), k) &&
            u.serverOwners[k] == Frontend(t.controller.value, p.id))
  {
    hide ResponseEffect, IdKey, ResolvedKey;
  }

  /** A frontend comes to hold a server request only by the routing of one, and then it is the controller. */
  lemma StepHolds(s: State, link: Link, input: Input, k: string)
    ensures var t := Step(s, link, input).tables;
      k in t.serverOwners && t.serverOwners[k].Frontend? ==>
        || (k in s.tables.serverOwners && t.serverOwners[k] == s.tables.serverOwners[k])
        || (Routes(s.tables, input, k) && t.serverOwners[k] == Frontend(s.tables.controller.value, input.payload.id))
  {
    hide Step, Routes, Takes, AppServerEffect, LeaveEffect, FrontendEffect, LocalEffect, RawEffect, Forget, Enroll;
    StepEffect(s, link, input);
    if input.DoReceiveFromAppServer? {
      AppServerHolds(s.tables, link, Takes(s, link), input.payload, input.throws, input.order, k);
    } else {
      OnlyAppServerAsks(s.tables, link, Takes(s, link), input);
    }
  }

  /** Between `s` and `t` the server request `p` was delivered to connection `c`, once, and nothing to anybody else. */
  ghost predicate DeliversTo(s: State, t: State, p: Payload, c: string) {
    && c in s.tables.frontends
    && Log(t, c) == Log(s, c) + [Envelope(c, s.tables.frontends[c], s.sequence + 1, p)]
    && forall d :: d != c ==> Log(t, d) == Log(s, d)
  }

  /** Routing a server request files it under the controller and delivers exactly one copy, to the controller. */
  lemma RoutedIsDelivered(s: State, link: Link, input: Input, k: string)
    requires Routes(s.tables, input, k)
    ensures var t := Step(s, link, input); var c := s.tables.controller.value;
      && k in t.tables.serverOwners && t.tables.serverOwners[k] == Frontend(c, input.payload.id)
      && t.up == s.up && DeliversTo(s, t, input.payload, c)
  {
    hide IdKey;
  }

  /** The step that delivered the request `k` holds: it came from the app-server, went to this connection only, and
      the connection has held it ever since. */
  ghost predicate DeliveredAt(options: Options, trace: Trace, i: nat, k: string, owner: ServerOwner)
    requires i < |trace| && owner.Frontend?
  {
    var s, t := After(options, trace[..i]), After(options, trace[..i + 1]);
    && Routes(s.tables, trace[i].1, k) && trace[i].1.payload.id == owner.id
    && DeliversTo(s, t, trace[i].1.payload, owner.connectionId)
    && forall m :: i < m <= |trace| ==>
         k in After(options, trace[..m]).tables.serverOwners &&
         After(options, trace[..m]).tables.serverOwners[k] == owner
  }

  /** Over every run: whoever holds a server request is the one it was delivered to, and the only one. */
  lemma {:induction false} HeldWasDelivered(options: Options, trace: Trace, k: string)
    requires Held(After(options, trace).tables, k) == 1
    ensures var owner := After(options, trace).tables.serverOwners[k];
      exists i :: 0 <= i < |trace| && DeliveredAt(options, trace, i, k, owner)
  {
    hide Step, Routes, DeliversTo;
    if trace == [] {
      NothingHeld(options, k);
    } else {
      var n := |trace| - 1;
      var s, t := After(options, trace[..n]), After(options, trace);
      var owner := t.tables.serverOwners[k];
      assert trace[..n + 1] == trace;
      StepHolds(s, trace[n].0, trace[n].1, k);
      if k in s.tables.serverOwners && s.tables.serverOwners[k] == owner {
        HeldWasDelivered(options, trace[..n], k);
        var i :| 0 <= i < n && DeliveredAt(options, trace[..n], i, k, owner);
        DeliveredStays(options, trace, i, k, owner);
      } else {
        RoutedIsDelivered(s, trace[n].0, trace[n].1, k);
        RoutedShape(s.tables, trace[n].1, k);
        assert forall m :: n < m <= |trace| ==> trace[..m] == trace;
        assert DeliveredAt(options, trace, n, k, owner);
      }
    }
  }

  lemma RoutedShape(t: Tables, input: Input, k: string)
    requires Routes(t, input, k)
    ensures input.DoReceiveFromAppServer? && input.payload.Request? && t.controller.Some?
  {
  }

  lemma DeliveredStays(options: Options, trace: Trace, i: nat, k: string, owner: ServerOwner)
    requires i + 1 < |trace| && owner.Frontend? && DeliveredAt(options, trace[..|trace| - 1], i, k, owner)
    requires k in After(options, trace).tables.serverOwners && After(options, trace).tables.serverOwners[k] == owner
    ensures DeliveredAt(options, trace, i, k, owner)
  {
    hide Routes, DeliversTo, After;
    var before := trace[..|trace| - 1];
    assert before[..i] == trace[..i] && before[..i + 1] == trace[..i + 1];
    forall m | i < m <= |trace|
      ensures k in After(options, trace[..m]).tables.serverOwners &&
              After(options, trace[..m]).tables.serverOwners[k] == owner
    {
      if m < |trace| {
        assert before[..m] == trace[..m];
      } else {
        assert trace[..m] == trace;
      }
    }
  }

  // ----- notifications --------------------------------------------------------------------------

  lemma {:induction false} FanoutReaches(s: State, order: seq<string>, p: Payload)
    requires forall i, j :: 0 <= i < j < |order| ==> order[i] != order[j]
    requires forall i :: 0 <= i < |order| ==> order[i] in s.tables.frontends
    ensures var t := Fanout(s, order, p);
      && t.sequence == s.sequence + |order|
      && (forall i :: 0 <= i < |order| ==>
            Log(t, order[i]) == Log(s, order[i]) +
              [Envelope(order[i], s.tables.frontends[order[i]], s.sequence + 1 + i, p)])
      && forall c :: c !in order ==> Log(t, c) == Log(s, c)
  {
    if order != [] {
      hide Fanout, Log;
      var prior, last := order[..|order| - 1], order[|order| - 1];
      FanoutReaches(s, prior, p);
      assert order == prior + [last] && last !in prior;
      FanoutSnoc(s, order, p);
      DeliverLog(Fanout(s, prior, p), last, p);
    }
  }

  lemma FanoutSnoc(s: State, order: seq<string>, p: Payload)
    requires order != []
    ensures Fanout(s, order, p) == Deliver(Fanout(s, order[..|order| - 1], p), order[|order| - 1], p)
  {
    hide Deliver;
  }

  lemma DeliverLog(s: State, c: string, p: Payload)
    requires c in s.tables.frontends
    ensures var t := Deliver(s, c, p);
      && t.sequence == s.sequence + 1
      && Log(t, c) == Log(s, c) + [Envelope(c, s.tables.frontends[c], s.sequence + 1, p)]
      && forall d :: d != c ==> Log(t, d) == Log(s, d)
  {
  }

  /** Every registered frontend gets exactly one copy of a notification, and nobody else gets any. */
  lemma NotificationReachesAll(s: State, link: Link, p: Payload, throws: bool, order: seq<string>, c: string)
    requires p.Notification? && Enabled(s, DoReceiveFromAppServer(p, throws, order))
    ensures var t := ReceiveFromAppServer(s, link, p, throws, order);
      if c in s.tables.frontends then
        exists n :: s.sequence < n <= s.sequence + |s.tables.frontends| &&
          Log(t, c) == Log(s, c) + [Envelope(c, s.tables.frontends[c], n, p)]
      else Log(t, c) == Log(s, c)
  {
    hide Fanout, IdKey, Log;
    var key := ResolvedKey(p);
    var s1 := if key.Some? then s.(tables := Strike(s.tables, key.value)) else s;
    assert Log(s1, c) == Log(s, c) by { SameLog(s, s1, c); }
    FanoutReaches(s1, order, p);
    if c in s.tables.frontends {
      var i :| 0 <= i < |order| && order[i] == c;
      AtMostOnce(order, s.tables.frontends.Keys);
      assert s.sequence < s.sequence + 1 + i <= s.sequence + |s.tables.frontends|;
    }
  }

  lemma SameLog(s: State, t: State, c: string)
    requires t.down == s.down
    ensures Log(t, c) == Log(s, c)
  {
  }

  /** An enumeration is as long as what it enumerates is large. */
  lemma {:induction false} AtMostOnce(order: seq<string>, all: set<string>)
    requires Enumerates(order, all)
    ensures |order| == |all|
    decreases |order|
  {
    if order == [] {
      assert all == {};
    } else {
      var prior, last := order[..|order| - 1], order[|order| - 1];
      assert order == prior + [last];
      AtMostOnce(prior, all - {last});
    }
  }

  // ----- only the holder answers ----------------------------------------------------------------

  /** What ends a frontend's hold on a server request. */
  predicate EndsHold(t: Tables, input: Input, k: string, c: string) {
    match input
    case DoUnregister(d, _) => d == c
    case DoReceiveFromFrontend(d, m) =>
      d == c && m.AppServerMessage? && m.payload.Some? && m.payload.value.Response?
        && IdKey(m.payload.value.id) == Some(k)
    case DoReceiveFromAppServer(p, _, _) => ResolvedKey(p) == Some(k)
    case DoDisconnected(_) => true
    case _ => false
  }

  lemma AppServerKeepsHold(t: Tables, link: Link, takes: bool, p: Payload, throws: bool, k: string)
    requires Held(t, k) == 1 && ResolvedKey(p) != Some(k)
    ensures var u := AppServerEffect(t, link, takes, p, throws);
      k in u.serverOwners && u.serverOwners[k] == t.serverOwners[k]
  {
    hide ResponseEffect, RequestEffect, IdKey, ResolvedKey;
  }

  lemma LeaveKeepsHold(t: Tables, c: string, order: seq<string>, k: string)
    requires Held(t, k) == 1 && t.serverOwners[k].connectionId != c && Enumerates(order, OwnedBy(t, c))
    ensures var u := LeaveEffect(t, c, order); k in u.serverOwners && u.serverOwners[k] == t.serverOwners[k]
  {
    assert k !in OwnedBy(t, c) && k !in order;
  }

  /** A server request delivered to a frontend stays that frontend's, whoever holds control: only its own
      answer, its departure, a resolution or the loss of the app-server takes the request from it. */
  lemma HeldByRecipient(s: State, link: Link, input: Input, k: string)
    requires Enabled(s, input) && Held(s.tables, k) == 1
    requires !EndsHold(s.tables, input, k, s.tables.serverOwners[k].connectionId)
    ensures var t := Step(s, link, input).tables;
      k in t.serverOwners && t.serverOwners[k] == s.tables.serverOwners[k]
  {
    if input.DoReceiveFromFrontend? {
      hide IdKey, ReceiveFromFrontend, Forwarded;
      var c, m := input.connectionId, input.message;
      AnswerOwners(s, link, c, m);
      if Forwarded(s.tables, link, c, m).Some? && Forwarded(s.tables, link, c, m).value.Response? {
        ForwardedAnswer(s.tables, link, c, m);
      }
    } else {
      hide Step, AppServerEffect, LeaveEffect, LocalEffect, RawEffect, Enroll, Forget, Takes, ResolvedKey, Enumerates;
      StepEffect(s, link, input);
      match input
      case DoUnregister(c, order) => LeaveKeepsHold(s.tables, c, order, k);
      case DoReceiveFromAppServer(p, throws, _) => AppServerKeepsHold(s.tables, link, Takes(s, link), p, throws, k);
      case _ => OtherKeepHeld(s.tables, link, Takes(s, link), input);
    }
  }

  /** Over a run: as long as nothing that ends it happens, the hold lasts, through every change of control. */
  lemma {:induction false} HeldThroughout(options: Options, trace: Trace, i: nat, j: nat, k: string)
    requires Feasible(options, trace) && i <= j <= |trace| && Held(After(options, trace[..i]).tables, k) == 1
    requires var owner := After(options, trace[..i]).tables.serverOwners[k];
      forall m :: i <= m < j ==> !EndsHold(After(options, trace[..m]).tables, trace[m].1, k, owner.connectionId)
    ensures var t := After(options, trace[..j]).tables;
      k in t.serverOwners && t.serverOwners[k] == After(options, trace[..i]).tables.serverOwners[k]
    decreases j
  {
    hide After, Enabled, Step, Sound, EndsHold;
    if i < j {
      HeldThroughout(options, trace, i, j - 1, k);
      FeasiblePrefix(options, trace, j - 1);
      RunSound(options, trace[..j - 1]);
      SoundInv(After(options, trace[..j - 1]));
      assert Enabled(After(options, trace[..j - 1]), trace[j - 1].1);
      HeldByRecipient(After(options, trace[..j - 1]), trace[j - 1].0, trace[j - 1].1, k);
      AfterStep(options, trace, j - 1);
    }
  }

  /** Only the holder answers: a response that a step sends upstream for a frontend answers a server request which
      that frontend, registered and whatever its role, holds at that moment. */
  lemma {:induction false} OnlyHolderAnswers(s: State, link: Link, input: Input, x: nat)
    requires |s.up| <= x < |Step(s, link, input).up|
    requires var sent := Step(s, link, input).up[x]; FromSomeFrontend(sent) && sent.payload.Response?
    ensures var sent := Step(s, link, input).up[x]; var c := sent.origin.connectionId; var k := IdKey(sent.payload.id);
      && input == DoReceiveFromFrontend(c, AppServerMessage(Some(sent.payload)))
      && c in s.tables.frontends && k.Some?
      && Held(s.tables, k.value) == 1 && s.tables.serverOwners[k.value].connectionId == c
      && k.value !in Step(s, link, input).tables.serverOwners
  {
    hide IdKey, Forwarded, ReceiveFromFrontend;
    if input.DoReceiveFromFrontend? {
      var c, m := input.connectionId, input.message;
      FrontendStepSends(s, link, c, m);
      ForwardedAnswer(s.tables, link, c, m);
      AnswerOwners(s, link, c, m);
    } else {
      OtherStepSends(s, link, input);
    }
  }
}
