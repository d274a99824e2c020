/** Who may send what upstream, and where the answers go, over whole runs of the bridge. */
module Routing {
  import opened Wrappers
  import opened JsonRpc
  import opened BridgeState
  import opened BridgeEffects
  import opened BridgeInvariant

  // ----- what a step sends upstream -------------------------------------------------------------

  predicate FromSomeFrontend(sent: Sent) {
    sent.origin.FromFrontend?
  }

  /** A request or notification sent on behalf of a frontend; the other messages of frontends are answers they owe. */
  predicate IsForwardedCall(sent: Sent) {
    FromSomeFrontend(sent) && (sent.payload.Request? || sent.payload.Notification?)
  }

  /** The one message of a frontend that a step hands to the app-server, if any. */
  function Forwarded(t: Tables, link: Link, c: string, m: FrontendMessage): Option<Payload> {
    if c !in t.frontends || !m.AppServerMessage? || m.payload.None? then None
    else
      var p := m.payload.value;
      match ClassifyStrict(p)
      case InvalidKind => None
      case ResponseKind => if IdKey(p.id).Some? && Owns(t, c, IdKey(p.id).value) then Some(p) else None
      case RequestKind =>
        if Refusal(t, link, c, p).Some? || IdKey(p.id).None? || FrontendKey(c, IdKey(p.id).value) in t.requestKeys
        then None
        else Some(Request(Str(RemoteId(t, c)), p.verb, p.body, p.strict))
      case NotificationKind => if Refusal(t, link, c, p).Some? then None else Some(p)
  }

  lemma ForwardedShape(t: Tables, link: Link, c: string, m: FrontendMessage)
    requires Forwarded(t, link, c, m).Some? && Forwarded(t, link, c, m).value.Request?
    ensures c in t.frontends && m.AppServerMessage? && m.payload.Some? && m.payload.value.Request?
  {
  }

  lemma FrontendStepSends(s: State, link: Link, c: string, m: FrontendMessage)
    ensures var f := Forwarded(s.tables, link, c, m);
      ReceiveFromFrontend(s, link, c, m).up ==
        s.up + if f.Some? then [Sent(f.value, FromFrontend(c), Takes(s, link))] else []
  {
    hide Reject, Diagnose, BroadcastController, IdKey, FrontendKey, RemoteId, RemoteNumber, MayForward;
  }

  ghost predicate SendsOwn(s: State, t: State) {
    s.up <= t.up && forall i :: |s.up| <= i < |t.up| ==> !FromSomeFrontend(t.up[i])
  }

  lemma {:induction false} FailServerRequestsSends(s: State, link: Link, order: seq<string>)
    ensures SendsOwn(s, FailServerRequests(s, link, order))
  {
    if order != [] {
      FailServerRequestsSends(s, link, order[..|order| - 1]);
    }
  }

  lemma FromAppServerSends(s: State, link: Link, p: Payload, throws: bool, order: seq<string>)
    ensures SendsOwn(s, ReceiveFromAppServer(s, link, p, throws, order))
  {
    hide IdKey, Diagnose, Deliver, BroadcastProvider, Fanout;
  }

  /** Only the receipt of a frontend's message sends anything on behalf of a frontend. */
  lemma OtherStepSends(s: State, link: Link, input: Input)
    requires !input.DoReceiveFromFrontend?
    ensures SendsOwn(s, Step(s, link, input))
  {
    hide IdKey, LocalId, LocalNumber, ReceiveFromAppServer, Diagnose, BroadcastController, BroadcastProvider, Greet,
      FailRequests;
    match input
    case DoUnregister(c, order) => FailServerRequestsSends(s, link, order);
    case DoReceiveFromAppServer(p, throws, order) => FromAppServerSends(s, link, p, throws, order);
    case _ =>
  }

  /** Authority: whatever a step sends upstream for a frontend, other than an answer it owes, that frontend
      sent in this step; it is the controller or an observer issuing a whitelisted read; the provider session
      is ready; and the message is no part of the provider handshake. */
  lemma {:induction false} ForwardAuthority(s: State, link: Link, input: Input, i: nat)
    requires Inv(s) && |s.up| <= i < |Step(s, link, input).up|
    requires IsForwardedCall(Step(s, link, input).up[i])
    ensures var sent := Step(s, link, input).up[i]; var c := sent.origin.connectionId;
      && input.DoReceiveFromFrontend? && input.connectionId == c && c in s.tables.frontends
      && input.message.AppServerMessage? && input.message.payload.Some?
      && (s.tables.controller == Some(c) ||
          (s.tables.options.observersMayRead && sent.payload.Request? && sent.payload.verb in ReadOnlyMethods))
      && s.tables.ready && link.reachable
      && sent.payload.verb != "initialize" && sent.payload.verb != "initialized"
  {
    hide TablesInverse, KeysFresh, OwnersRegistered, IsConnectionName, IdKey, FrontendKey, RemoteId,
      ReceiveFromFrontend;
    if input.DoReceiveFromFrontend? {
      FrontendStepSends(s, link, input.connectionId, input.message);
    } else {
      OtherStepSends(s, link, input);
    }
  }

  // ----- who is in control ----------------------------------------------------------------------

  /** The ways in which control may pass to `next`: a newcomer or a claim takes it while nobody holds it, its holder
      releases it, transfers it to a registered frontend, or leaves. */
  ghost predicate PassesTo(t: Tables, input: Input, next: Option<string>) {
    match input
    case DoRegister =>
      t.controller.None? && t.options.firstFrontendBecomesController && next == Some(ConnectionName(t.nextConnection))
    case DoUnregister(c, _) => t.controller == Some(c) && next.None?
    case DoReceiveFromFrontend(c, m) =>
      && c in t.frontends && m.Command?
      && (match m.action
          case Claim => t.controller.None? && next == Some(c)
          case Release => t.controller == Some(c) && next.None?
          case Transfer(target) => t.controller == Some(c) && next == Some(target) && target in t.frontends
          case UnknownAction => false)
    case _ => false
  }

  lemma EffectControl(t: Tables, link: Link, takes: bool, input: Input)
    ensures var u := Effect(t, link, takes, input); u.controller != t.controller ==> PassesTo(t, input, u.controller)
  {
    hide AppServerEffect, LocalEffect, RawEffect, MessageEffect, ConnectionName;
  }

  /** Control is never stolen: in any step it changes only in these ways, and otherwise stays where it is. */
  lemma ControlPasses(s: State, link: Link, input: Input)
    ensures var t := Step(s, link, input).tables;
      t.controller != s.tables.controller ==> PassesTo(s.tables, input, t.controller)
  {
    hide Step, Effect, Takes, PassesTo;
    StepEffect(s, link, input);
    EffectControl(s.tables, link, Takes(s, link), input);
  }

  // ----- upstream ids are never reused ----------------------------------------------------------

  predicate IsForwardedRequest(sent: Sent) {
    FromSomeFrontend(sent) && sent.payload.Request?
  }

  ghost predicate IsRemoteText(text: string, bound: nat) {
    exists g: nat, c: string, n: nat :: n < bound && text == Numbered(RemotePrefix(g, c), n)
  }

  /** Every forwarded request went up under a generated id, and no two of them share one. */
  ghost predicate IdsUnique(s: State) {
    && (forall i :: 0 <= i < |s.up| && IsForwardedRequest(s.up[i]) ==>
          s.up[i].payload.id.Str? && IsRemoteText(s.up[i].payload.id.text, s.tables.nextFrontend))
    && (forall i, j :: 0 <= i < j < |s.up| && IsForwardedRequest(s.up[i]) && IsForwardedRequest(s.up[j]) ==>
          s.up[i].payload.id != s.up[j].payload.id)
  }

  lemma RemoteTextIsNew(g: nat, c: string, n: nat, bound: nat)
    requires bound <= n
    ensures !IsRemoteText(Numbered(RemotePrefix(g, c), n), bound)
  {
    var text := Numbered(RemotePrefix(g, c), n);
    if IsRemoteText(text, bound) {
      var h: nat, d: string, m: nat :| m < bound && text == Numbered(RemotePrefix(h, d), m);
      NumberedKeyInjective(RemotePrefix(g, c), n, RemotePrefix(h, d), m);
    }
  }

  lemma RemoteTextStays(text: string, m: nat, n: nat)
    requires IsRemoteText(text, m) && m <= n
    ensures IsRemoteText(text, n)
  {
    var g: nat, c: string, i: nat :| i < m && text == Numbered(RemotePrefix(g, c), i);
    assert i < n;
  }

  /** A request is forwarded exactly when it is filed, or would be if the transport took it. */
  lemma ForwardedFiles(t: Tables, link: Link, c: string, m: FrontendMessage)
    ensures Forwarded(t, link, c, m).Some? && Forwarded(t, link, c, m).value.Request? <==>
              c in t.frontends && m.AppServerMessage? && m.payload.Some? && Files(t, link, c, m.payload.value)
  {
    hide IdKey, FrontendKey, RemoteId, Refusal, Owns;
  }

  lemma ForwardCounter(s: State, link: Link, c: string, m: FrontendMessage)
    ensures var t := ReceiveFromFrontend(s, link, c, m).tables;
      t.nextFrontend == if Forwarded(s.tables, link, c, m).Some? && Forwarded(s.tables, link, c, m).value.Request?
                        then RemoteNumber(s.tables, c) + 1 else s.tables.nextFrontend
  {
    hide ReceiveFromFrontend, Forwarded, Files, CommandEffect, RemoteNumber, RemoteId, StringKey, IdKey, FrontendKey,
      Takes, Owns;
    FromFrontendEffect(s, link, c, m);
    ForwardedFiles(s.tables, link, c, m);
    if c in s.tables.frontends && m.AppServerMessage? && m.payload.Some? {
      FiledIsRequest(s.tables, link, c, m.payload.value);
    }
  }

  lemma FiledIsRequest(t: Tables, link: Link, c: string, p: Payload)
    ensures Files(t, link, c, p) ==> p.Request? && !ClassifyStrict(p).ResponseKind?
  {
    hide IdKey, FrontendKey, Refusal;
  }

  lemma OtherStepCounter(s: State, link: Link, input: Input)
    requires !input.DoReceiveFromFrontend?
    ensures FewerRequests(s.tables, Step(s, link, input).tables)
  {
    hide Step, Effect, Takes;
    StepEffect(s, link, input);
    OnlyForwardingFiles(s.tables, link, Takes(s, link), input);
  }

  /** Across generations, connections and collisions, no upstream id is ever used for two forwarded requests. */
  lemma StepIdsUnique(s: State, link: Link, input: Input)
    requires IdsUnique(s)
    ensures IdsUnique(Step(s, link, input))
  {
    hide IsRemoteText, Forwarded, ReceiveFromFrontend, RemoteNumber, Numbered;
    var t := Step(s, link, input);
    if input.DoReceiveFromFrontend? {
      var c, m := input.connectionId, input.message;
      FrontendStepSends(s, link, c, m);
      ForwardCounter(s, link, c, m);
      var f := Forwarded(s.tables, link, c, m);
      if f.Some? && f.value.Request? {
        ForwardedId(s.tables, link, c, m);
        RemoteNumberGrows(s.tables, c);
        RemoteTextIsNew(s.tables.generation, c, RemoteNumber(s.tables, c), s.tables.nextFrontend);
        RemoteIdText(s.tables, c);
      }
    } else {
      OtherStepSends(s, link, input);
      OtherStepCounter(s, link, input);
    }
    assert s.up <= t.up && s.tables.nextFrontend <= t.tables.nextFrontend;
    forall i | 0 <= i < |s.up| && IsForwardedRequest(s.up[i])
      ensures t.up[i] == s.up[i] && IsRemoteText(t.up[i].payload.id.text, t.tables.nextFrontend)
    {
      RemoteTextStays(s.up[i].payload.id.text, s.tables.nextFrontend, t.tables.nextFrontend);
    }
  }

  lemma ForwardedId(t: Tables, link: Link, c: string, m: FrontendMessage)
    requires Forwarded(t, link, c, m).Some? && Forwarded(t, link, c, m).value.Request?
    ensures Forwarded(t, link, c, m).value.id == Str(RemoteId(t, c))
  {
  }

  lemma RemoteIdText(t: Tables, c: string)
    ensures RemoteId(t, c) == Numbered(RemotePrefix(t.generation, c), RemoteNumber(t, c))
    ensures IsRemoteText(RemoteId(t, c), RemoteNumber(t, c) + 1)
  {
  }

  // ----- responses reach the frontend that asked ------------------------------------------------

  /** The end of the provider handshake is announced by events, not by messages of the app-server. */
  lemma HandshakeQuiet(s: State, link: Link, outcome: Outcome)
    ensures var t := CompleteHandshake(s, link, outcome);
      forall d, i :: |Log(s, d)| <= i < |Log(t, d)| ==> !Log(t, d)[i].Envelope?
  {
  }

  /** A response whose id a frontend's request is filed under goes to that frontend only, under the
      frontend's own id, and settles the entry; any other response reaches no frontend. */
  lemma ResponseReachesOwner(s: State, link: Link, p: Payload, throws: bool, order: seq<string>, u: string)
    requires Inv(s) && p.Response? && IdKey(p.id) == Some(u)
    ensures var t := ReceiveFromAppServer(s, link, p, throws, order);
      if u in s.tables.requestOwners then
        var r := s.tables.requestOwners[u];
        && r.connectionId in s.tables.frontends && u !in t.tables.requestOwners
        && Log(t, r.connectionId) == Log(s, r.connectionId) +
             [Envelope(r.connectionId, s.tables.frontends[r.connectionId], s.sequence + 1,
                       Response(r.frontendId, p.outcome, p.strict))]
        && forall d :: d != r.connectionId ==> Log(t, d) == Log(s, d)
      else
        forall d, i :: |Log(s, d)| <= i < |Log(t, d)| ==> !Log(t, d)[i].Envelope?
  {
    hide RolesAgree, OwnersRegistered, IdKey, IsRemoteKey, FrontendKey, SetReady;
    if u in s.tables.requestOwners {
      assert u !in s.tables.localRequests;
    } else if u in s.tables.localRequests {
      HandshakeQuiet(s.(tables := s.tables.(localRequests := s.tables.localRequests - {u})), link, p.outcome);
    }
  }

  ghost predicate Issued(s: State, u: string) {
    exists i :: 0 <= i < |s.up| && IsForwardedRequest(s.up[i]) && IdKey(s.up[i].payload.id) == Some(u)
  }

  /** The bridge awaits only what it has issued, and an entry it has dropped never comes back. */
  ghost predicate OwnersIssued(s: State) {
    forall u :: u in s.tables.requestOwners ==> Issued(s, u)
  }

  lemma AnswerKeepsTables(s: State, link: Link, c: string, m: FrontendMessage)
    requires Forwarded(s.tables, link, c, m).None? || !Forwarded(s.tables, link, c, m).value.Request?
    ensures SameRequests(s.tables, ReceiveFromFrontend(s, link, c, m).tables)
  {
    hide ReceiveFromFrontend, Forwarded, Files, CommandEffect, IdKey, FrontendKey, Takes, Owns;
    FromFrontendEffect(s, link, c, m);
    ForwardedFiles(s.tables, link, c, m);
  }

  /** What a forwarded request files: its sender, the sender's id, and the fresh id it went up under, in both tables.
      A request the transport refuses leaves nothing behind but the number that was used up for it. */
  lemma ForwardFiles(s: State, link: Link, c: string, m: FrontendMessage)
    requires Forwarded(s.tables, link, c, m).Some? && Forwarded(s.tables, link, c, m).value.Request?
    ensures var t := ReceiveFromFrontend(s, link, c, m); var id := m.payload.value.id;
      var u := StringKey(RemoteId(s.tables, c)); var used := RemoteNumber(s.tables, c) + 1;
      && IdKey(id).Some? && FrontendKey(c, IdKey(id).value) !in s.tables.requestKeys
      && t.tables ==
           if Takes(s, link) then
             var key := FrontendKey(c, IdKey(id).value);
             s.tables.(requestOwners := s.tables.requestOwners[u := FrontendRequest(c, id, key)],
                       requestKeys := s.tables.requestKeys[key := u], nextFrontend := used)
           else s.tables.(nextFrontend := used)
  {
    hide ReceiveFromFrontend, Forwarded, RemoteNumber, RemoteId, StringKey, IdKey, FrontendKey, Takes, Owns, Refusal;
    FromFrontendEffect(s, link, c, m);
    ForwardedFiles(s.tables, link, c, m);
    FiledIsRequest(s.tables, link, c, m.payload.value);
  }

  lemma RemoteIdKey(t: Tables, c: string)
    ensures IdKey(Str(RemoteId(t, c))) == Some(StringKey(RemoteId(t, c)))
    ensures StringKey(RemoteId(t, c)) !in t.requestOwners
  {
    FirstFreeIsFirst(RemotePrefix(t.generation, c), t.nextFrontend, Outstanding(t));
  }

  /** An id that was issued and is no longer awaited is never awaited again: each forwarded request is
      answered at most once, and a late response can never match a newer request. */
  lemma {:induction false} IssuedNeverReturns(s: State, link: Link, input: Input, u: string)
    requires IdsUnique(s) && OwnersIssued(s)
    ensures OwnersIssued(Step(s, link, input))
    ensures Issued(s, u) ==> Issued(Step(s, link, input), u)
    ensures Issued(s, u) && u !in s.tables.requestOwners ==> u !in Step(s, link, input).tables.requestOwners
  {
    hide IdKey, RemoteId, StringKey, Forwarded, ReceiveFromFrontend, IsRemoteText;
    var t := Step(s, link, input);
    StepIdsUnique(s, link, input);
    if input.DoReceiveFromFrontend? {
      var c, m := input.connectionId, input.message;
      var f := Forwarded(s.tables, link, c, m);
      FrontendStepSends(s, link, c, m);
      if f.Some? && f.value.Request? {
        ForwardFiles(s, link, c, m);
        ForwardedId(s.tables, link, c, m);
        RemoteIdKey(s.tables, c);
        assert IsForwardedRequest(t.up[|s.up|]);
        assert Issued(t, StringKey(RemoteId(s.tables, c)));
        if Issued(s, StringKey(RemoteId(s.tables, c))) {
          var i :| 0 <= i < |s.up| && IsForwardedRequest(s.up[i])
            && IdKey(s.up[i].payload.id) == Some(StringKey(RemoteId(s.tables, c)));
          IdKeyInjective(s.up[i].payload.id, Str(RemoteId(s.tables, c)));
        }
      } else {
        AnswerKeepsTables(s, link, c, m);
      }
    } else {
      OtherStepSends(s, link, input);
      OtherStepCounter(s, link, input);
    }
    assert s.up <= t.up;
    forall v | Issued(s, v) ensures Issued(t, v) {
      var i :| 0 <= i < |s.up| && IsForwardedRequest(s.up[i]) && IdKey(s.up[i].payload.id) == Some(v);
      assert t.up[i] == s.up[i];
    }
  }
}
