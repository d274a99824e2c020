/** Who answers the app-server. Over every run the bridge answers in its own name with errors only; a result comes
    from the frontend that holds the request, or from the application that does. */
module Replies {
  import opened Wrappers
  import opened JsonRpc
  import opened BridgeState
  import opened BridgeInvariant
  import opened BridgeRuns
  import opened Verdicts
  import Routing

  /** The grounds on which a response goes upstream. */
  ghost predicate MayAnswer(s: State, input: Input, sent: Sent)
    requires sent.payload.Response?
  {
    var key := IdKey(sent.payload.id);
    match sent.origin
    case FromBridge => sent.payload.outcome.Error?
    case FromFrontend(c) =>
      && input == DoReceiveFromFrontend(c, AppServerMessage(Some(sent.payload))) && key.Some?
      && key.value in s.tables.serverOwners && s.tables.serverOwners[key.value].Frontend?
      && s.tables.serverOwners[key.value].connectionId == c
    case FromLocal =>
      || (input == DoSendRaw(sent.payload) && key.Some? && key.value in s.tables.serverOwners &&
          s.tables.serverOwners[key.value].LocalApplication?)
      || (input.DoReceiveFromAppServer? && input.payload.Request? && input.payload.id == sent.payload.id &&
          input.throws && input.payload.verb in s.tables.localMethods && sent.payload.outcome == Error(-32603))
  }

  /** What a step adds upstream: of the bridge's own only responses, and responses only on these grounds. */
  ghost predicate Justified(s: State, input: Input, sent: Sent) {
    && (sent.origin.FromBridge? ==> sent.payload.Response?)
    && (sent.payload.Response? ==> MayAnswer(s, input, sent))
  }

  ghost predicate SendsJustified(s: State, input: Input, t: State) {
    s.up <= t.up && forall x :: |s.up| <= x < |t.up| ==> Justified(s, input, t.up[x])
  }

  lemma SendsOne(s: State, input: Input, t: State, sent: Sent)
    requires t.up == s.up + [sent] && Justified(s, input, sent)
    ensures SendsJustified(s, input, t)
  {
  }

  lemma SendsNone(s: State, input: Input, t: State)
    requires t.up == s.up
    ensures SendsJustified(s, input, t)
  {
  }

  lemma {:induction false} FailuresJustified(s: State, input: Input, link: Link, order: seq<string>)
    ensures SendsJustified(s, input, FailServerRequests(s, link, order))
  {
    if order != [] {
      FailuresJustified(s, input, link, order[..|order| - 1]);
    }
  }

  lemma FromFrontendJustified(s: State, link: Link, c: string, m: FrontendMessage)
    ensures SendsJustified(s, DoReceiveFromFrontend(c, m), ReceiveFromFrontend(s, link, c, m))
  {
    hide ReceiveFromFrontend, IdKey, FrontendKey, RemoteId, Refusal, Takes;
    Routing.FrontendStepSends(s, link, c, m);
    var f := Routing.Forwarded(s.tables, link, c, m);
    if f.Some? {
      SendsOne(s, DoReceiveFromFrontend(c, m), ReceiveFromFrontend(s, link, c, m),
               Sent(f.value, FromFrontend(c), Takes(s, link)));
    }
  }

  lemma FromAppServerJustified(s: State, link: Link, p: Payload, throws: bool, order: seq<string>)
    ensures SendsJustified(s, DoReceiveFromAppServer(p, throws, order), ReceiveFromAppServer(s, link, p, throws, order))
  {
    hide SendsJustified, ReceiveFromAppServer, IdKey;
    var input, t := DoReceiveFromAppServer(p, throws, order), ReceiveFromAppServer(s, link, p, throws, order);
    if !p.Invalid? && !p.Notification? {
      KeylessIsOther(p.id);
    }
    if p.Notification? {
      NotificationVerdict(s, link, p, throws, order);
      SendsNone(s, input, t);
    } else if p.Request? && !p.id.Other? {
      ServerRequestVerdict(s, link, p, throws, order);
      if t.up == s.up {
        SendsNone(s, input, t);
      } else {
        SendsOne(s, input, t, t.up[|s.up|]);
      }
    } else if p.Response? && IdKey(p.id).Some? && IdKey(p.id).value in s.tables.localRequests {
      LocalResponseVerdict(s, link, p, throws, order);
      if t.up == s.up {
        SendsNone(s, input, t);
      } else {
        SendsOne(s, input, t, t.up[|s.up|]);
      }
    } else if p.Response? && IdKey(p.id).Some? && IdKey(p.id).value in s.tables.requestOwners {
      OwnerHears(s, link, p, throws, order);
      SendsNone(s, input, t);
    } else {
      UnmatchedVerdict(s, link, p, throws, order);
      SendsNone(s, input, t);
    }
  }

  lemma OwnerHears(s: State, link: Link, p: Payload, throws: bool, order: seq<string>)
    requires p.Response? && IdKey(p.id).Some? && IdKey(p.id).value !in s.tables.localRequests
    ensures ReceiveFromAppServer(s, link, p, throws, order).up == s.up
  {
    hide IdKey, Deliver, Diagnose;
  }

  /** Every step sends only what it has grounds for. */
  lemma StepJustified(s: State, link: Link, input: Input)
    ensures SendsJustified(s, input, Step(s, link, input))
  {
    hide SendsJustified, IdKey, FailServerRequests, ReceiveFromFrontend, ReceiveFromAppServer, LocalId;
    var t := Step(s, link, input);
    match input
    case DoRegister => SendsNone(s, input, t);
    case DoUnregister(c, order) =>
      FailuresJustified(s, input, link, order);
      LeavingSends(s, link, input);
    case DoReceiveFromFrontend(c, m) => FromFrontendJustified(s, link, c, m);
    case DoReceiveFromAppServer(p, throws, order) => FromAppServerJustified(s, link, p, throws, order);
    case DoConnected =>
      ConnectedVerdict(s, link);
      SendsOne(s, input, t, t.up[|s.up|]);
    case DoDisconnected(order) => SendsNone(s, input, t);
    case DoRequestLocally(verb, body) => SendsOne(s, input, t, t.up[|s.up|]);
    case DoSendRaw(p) =>
      RawVerdict(s, link, p);
      if t.up == s.up {
        SendsNone(s, input, t);
      } else {
        SendsOne(s, input, t, t.up[|s.up|]);
      }
    case DoSetLocalHandler(verb, present) => SendsNone(s, input, t);
  }

  lemma LeavingSends(s: State, link: Link, input: Input)
    requires input.DoUnregister? && SendsJustified(s, input, FailServerRequests(s, link, input.order))
    ensures SendsJustified(s, input, Step(s, link, input))
  {
    hide FailServerRequests, Justified;
  }

  /** Step `i` sent the message number `x`, and had grounds for it. */
  ghost predicate SentBy(options: Options, trace: Trace, i: nat, x: nat, sent: Sent)
    requires i < |trace|
  {
    && |After(options, trace[..i]).up| <= x < |After(options, trace[..i + 1]).up|
    && Justified(After(options, trace[..i]), trace[i].1, sent)
  }

  /** Over every run: each message that went up was sent by a step that had grounds for it. */
  lemma {:induction false} EveryAnswerJustified(options: Options, trace: Trace, x: nat)
    requires x < |After(options, trace).up|
    ensures exists i :: 0 <= i < |trace| && SentBy(options, trace, i, x, After(options, trace).up[x])
  {
    hide Step, Justified;
    if trace == [] {
      NothingSent(options);
    } else {
      var n := |trace| - 1;
      var s, t := After(options, trace[..n]), After(options, trace);
      StepJustified(s, trace[n].0, trace[n].1);
      if x < |s.up| {
        EveryAnswerJustified(options, trace[..n], x);
        var i :| 0 <= i < n && SentBy(options, trace[..n], i, x, s.up[x]);
        assert trace[..n][..i] == trace[..i] && trace[..n][..i + 1] == trace[..i + 1];
        assert SentBy(options, trace, i, x, t.up[x]);
      } else {
        assert trace[..n + 1] == trace;
        assert SentBy(options, trace, n, x, t.up[x]);
      }
    }
  }

  lemma NothingSent(options: Options)
    ensures After(options, []).up == []
  {
  }

  /** In particular a result goes up only for the frontend that held the request, or for the application that did. */
  lemma ResultsComeFromHolders(options: Options, trace: Trace, x: nat)
    requires x < |After(options, trace).up|
    requires var p := After(options, trace).up[x].payload; p.Response? && p.outcome.Result?
    ensures var sent := After(options, trace).up[x];
      exists i :: 0 <= i < |trace| &&
        var owners := After(options, trace[..i]).tables.serverOwners;
        var input := trace[i].1;
        && IdKey(sent.payload.id).Some? && IdKey(sent.payload.id).value in owners
        && match owners[IdKey(sent.payload.id).value]
           case Frontend(c, _) => input == DoReceiveFromFrontend(c, AppServerMessage(Some(sent.payload)))
           case LocalApplication(_) => input == DoSendRaw(sent.payload)
  {
    hide After, IdKey;
    EveryAnswerJustified(options, trace, x);
    var i :| 0 <= i < |trace| && SentBy(options, trace, i, x, After(options, trace).up[x]);
  }
}
