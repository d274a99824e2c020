/** The provider session over whole runs: nothing of a frontend goes upstream before the handshake of the
    current generation has completed. */
module Handshake {
  import opened Wrappers
  import opened JsonRpc
  import opened BridgeState
  import opened BridgeEffects
  import opened BridgeInvariant
  import opened Replica
  import opened Routing
  import opened BridgeRuns

  predicate IsLifecycle(input: Input) {
    input.DoConnected? || input.DoDisconnected?
  }

  /** The step that opened the current provider session, if one is open. */
  function SessionStart(trace: Trace): Option<nat> {
    if trace == [] then None
    else
      var n := |trace| - 1;
      match trace[n].1
      case DoConnected => Some(n)
      case DoDisconnected(_) => None
      case _ => SessionStart(trace[..n])
  }

  /** The app-server transport does not come up again while it is up. */
  ghost predicate ConnectsInTurn(trace: Trace) {
    forall i :: 0 <= i < |trace| && trace[i].1.DoConnected? ==> SessionStart(trace[..i]).None?
  }

  predicate AwaitsInitialize(t: Tables, key: string) {
    key in t.localRequests && t.localRequests[key].handler.InitializeHandler?
  }

  // ----- one step -------------------------------------------------------------------------------

  /** How the session can become ready: by the successful answer to the bridge's own initialize request,
      acknowledged upstream in the same step. */
  ghost predicate CompletesNow(s: State, t: State, input: Input) {
    && input.DoReceiveFromAppServer? && input.payload.Response? && input.payload.outcome.Result?
    && IdKey(input.payload.id).Some? && AwaitsInitialize(s.tables, IdKey(input.payload.id).value)
    && t.up == s.up + [Sent(InitializedNotification, FromLocal, true)]
  }

  /** What the session's readiness depends on, in the tables. */
  lemma EffectReady(t: Tables, link: Link, takes: bool, input: Input)
    requires !IsLifecycle(input)
    ensures var u := Effect(t, link, takes, input);
      && u.generation == t.generation && (t.ready ==> u.ready)
      && (u.ready && !t.ready ==>
            && takes && input.DoReceiveFromAppServer? && input.payload.Response? && input.payload.outcome.Result?
            && IdKey(input.payload.id).Some? && AwaitsInitialize(t, IdKey(input.payload.id).value))
  {
    hide LeaveEffect, FrontendEffect, LocalEffect, RawEffect, RequestEffect, IdKey, ResolvedKey, ConnectionName;
  }

  /** Only coming up awaits a new answer to initialize. */
  lemma EffectAwaits(t: Tables, link: Link, takes: bool, input: Input, k: string)
    requires !IsLifecycle(input)
    ensures AwaitsInitialize(Effect(t, link, takes, input), k) ==> AwaitsInitialize(t, k)
  {
    hide LeaveEffect, FrontendEffect, RequestEffect, IdKey, ResolvedKey, ConnectionName, LocalNumber, StringKey;
  }

  lemma RouteResponseSends(s: State, link: Link, key: string, p: Payload)
    requires p.Response? && p.outcome.Result? && AwaitsInitialize(s.tables, key) && Takes(s, link)
    ensures RouteResponse(s, link, key, p).up == s.up + [Sent(InitializedNotification, FromLocal, true)]
  {
    hide Diagnose, BroadcastProvider;
  }

  lemma StepReady(s: State, link: Link, input: Input)
    requires !IsLifecycle(input)
    ensures var t := Step(s, link, input);
      && t.tables.generation == s.tables.generation && (s.tables.ready ==> t.tables.ready)
      && (t.tables.ready && !s.tables.ready ==> CompletesNow(s, t, input))
      && forall k :: AwaitsInitialize(t.tables, k) ==> AwaitsInitialize(s.tables, k)
  {
    var t := Step(s, link, input);
    if input.DoReceiveFromAppServer? && input.payload.Response? && IdKey(input.payload.id).Some? {
      ResponseStep(s, link, input);
    }
    hide Step, Effect, AwaitsInitialize, IdKey, Takes, IsLifecycle, RouteResponse;
    StepEffect(s, link, input);
    EffectReady(s.tables, link, Takes(s, link), input);
    if t.tables.ready && !s.tables.ready {
      RouteResponseSends(s, link, IdKey(input.payload.id).value, input.payload);
    }
    forall k
      ensures AwaitsInitialize(t.tables, k) ==> AwaitsInitialize(s.tables, k)
    {
      EffectAwaits(s.tables, link, Takes(s, link), input, k);
    }
  }

  lemma ResponseStep(s: State, link: Link, input: Input)
    requires input.DoReceiveFromAppServer? && input.payload.Response? && IdKey(input.payload.id).Some?
    ensures Step(s, link, input) == RouteResponse(s, link, IdKey(input.payload.id).value, input.payload)
  {
    hide IdKey, RouteResponse;
  }

  /** The id of the initialize request with which a session starts. */
  function InitializeId(t: Tables): JsonId {
    LocalId(t.(ready := false, generation := t.generation + 1))
  }

  /** Coming up starts a generation that is not ready and awaits at most the initialize request just sent. */
  lemma ConnectedStarts(s: State, link: Link)
    ensures var t := AppServerConnected(s, link); var id := InitializeId(s.tables);
      && t.tables.generation == s.tables.generation + 1 && !t.tables.ready
      && t.up == s.up + [Sent(Request(id, "initialize", "clientInfo", true), FromLocal, Takes(s, link))]
      && forall k :: AwaitsInitialize(t.tables, k) ==>
           AwaitsInitialize(s.tables, k) || (Takes(s, link) && IdKey(id) == Some(k))
  {
    hide LocalNumber, Numbered, Escape, BroadcastProvider, Diagnose;
    ConnectedEffect(s, link);
    LocalKey(s.tables.(ready := false, generation := s.tables.generation + 1));
  }

  lemma LocalKey(t: Tables)
    ensures IdKey(LocalId(t)) == Some(StringKey(LocalId(t).text))
  {
    hide LocalNumber, Numbered;
  }

  // ----- whole runs -----------------------------------------------------------------------------

  ghost predicate InitializeSent(options: Options, trace: Trace, i: nat, id: JsonId)
    requires i < |trace|
  {
    var up := After(options, trace[..i + 1]).up;
    trace[i].1.DoConnected? && up != []
      && up[|up| - 1] == Sent(Request(id, "initialize", "clientInfo", true), FromLocal, true)
  }

  /** Step `i` opened a session and sent the initialize request; step `j` received its successful answer and
      sent the initialized notification, which the app-server took. */
  ghost predicate HandshakeDone(options: Options, trace: Trace, i: nat, j: nat, id: JsonId)
    requires i < |trace| && j < |trace|
  {
    var before := After(options, trace[..j]).up;
    && i < j && InitializeSent(options, trace, i, id)
    && trace[j].1.DoReceiveFromAppServer? && trace[j].1.payload.Response?
    && trace[j].1.payload.id == id && trace[j].1.payload.outcome.Result?
    && After(options, trace[..j + 1]).up == before + [Sent(InitializedNotification, FromLocal, true)]
  }

  ghost predicate SessionSound(options: Options, trace: Trace) {
    var s := After(options, trace);
    match SessionStart(trace)
    case None => !s.tables.ready && forall k :: !AwaitsInitialize(s.tables, k)
    case Some(i) =>
      && i < |trace| && s.tables.generation == After(options, trace[..i + 1]).tables.generation
      && (forall m :: i < m < |trace| ==> !IsLifecycle(trace[m].1))
      && (forall k :: AwaitsInitialize(s.tables, k) ==>
          exists id :: InitializeSent(options, trace, i, id) && IdKey(id) == Some(k))
      && (s.tables.ready ==> exists j, id :: 0 <= j < |trace| && HandshakeDone(options, trace, i, j, id))
  }

  lemma {:induction false} RunSession(options: Options, trace: Trace)
    requires ConnectsInTurn(trace)
    ensures SessionSound(options, trace)
  {
    hide Step, IdKey, CompletesNow, AwaitsInitialize;
    if trace == [] {
      assert forall k :: !AwaitsInitialize(Initial(options).tables, k) by { NothingAwaited(options); }
    } else {
      var n := |trace| - 1;
      var before := trace[..n];
      forall i | 0 <= i < n ensures before[i].1.DoConnected? ==> SessionStart(before[..i]).None? {
        assert before[..i] == trace[..i];
      }
      RunSession(options, before);
      var s, link, input := After(options, before), trace[n].0, trace[n].1;
      assert trace[..n + 1] == trace;
      if input.DoConnected? {
        assert SessionStart(before).None?;
        ConnectedSession(options, trace, s, link);
      } else if input.DoDisconnected? {
        DisconnectedEnds(s, link, input);
      } else {
        StepReady(s, link, input);
        if SessionStart(before).Some? {
          SessionContinues(options, trace, SessionStart(before).value);
        } else {
          assert !After(options, trace).tables.ready by { NotCompleted(s, After(options, trace), input); }
        }
      }
    }
  }

  lemma NothingAwaited(options: Options)
    ensures forall k :: !AwaitsInitialize(Initial(options).tables, k)
  {
  }

  lemma NotCompleted(s: State, t: State, input: Input)
    requires forall k :: !AwaitsInitialize(s.tables, k)
    ensures !CompletesNow(s, t, input)
  {
  }

  lemma DisconnectedEnds(s: State, link: Link, input: Input)
    requires input.DoDisconnected?
    ensures var t := Step(s, link, input).tables; !t.ready && forall k :: !AwaitsInitialize(t, k)
  {
    hide Diagnose, BroadcastProvider, FailRequests;
  }

  lemma ConnectedSession(options: Options, trace: Trace, s: State, link: Link)
    requires trace != [] && s == After(options, trace[..|trace| - 1])
    requires link == trace[|trace| - 1].0 && trace[|trace| - 1].1.DoConnected?
    requires forall k :: !AwaitsInitialize(s.tables, k)
    ensures SessionSound(options, trace)
  {
    hide IdKey, AwaitsInitialize, AppServerConnected, Takes, InitializeId;
    var n := |trace| - 1;
    ConnectedStarts(s, link);
    assert trace[..n + 1] == trace;
    var t := After(options, trace);
    assert t == AppServerConnected(s, link);
    forall k | AwaitsInitialize(t.tables, k)
      ensures exists id :: InitializeSent(options, trace, n, id) && IdKey(id) == Some(k)
    {
      var id := InitializeId(s.tables);
      assert InitializeSent(options, trace, n, id);
    }
  }

  lemma SessionStays(trace: Trace, i: nat)
    requires trace != [] && SessionStart(trace[..|trace| - 1]) == Some(i) && !IsLifecycle(trace[|trace| - 1].1)
    ensures SessionStart(trace) == Some(i)
  {
  }

  lemma SessionContinues(options: Options, trace: Trace, i: nat)
    requires trace != [] && SessionStart(trace[..|trace| - 1]) == Some(i) && !IsLifecycle(trace[|trace| - 1].1)
    requires SessionSound(options, trace[..|trace| - 1])
    ensures SessionSound(options, trace)
  {
    hide Step, IdKey, AwaitsInitialize, IsLifecycle;
    var n := |trace| - 1;
    var before := trace[..n];
    assert SessionStart(trace) == Some(i) by { SessionStays(trace, i); }
    var s, t, input := After(options, before), After(options, trace), trace[n].1;
    StepReady(s, trace[n].0, input);
    assert before[..i + 1] == trace[..i + 1] && trace[..n + 1] == trace;
    forall id | InitializeSent(options, before, i, id) ensures InitializeSent(options, trace, i, id) {
    }
    if t.tables.ready && s.tables.ready {
      var j, id :| 0 <= j < n && HandshakeDone(options, before, i, j, id);
      assert before[..j] == trace[..j] && before[..j + 1] == trace[..j + 1];
      assert HandshakeDone(options, trace, i, j, id);
    } else if t.tables.ready {
      var id :| InitializeSent(options, before, i, id) && IdKey(id) == IdKey(input.payload.id);
      IdKeyInjective(id, input.payload.id);
      assert HandshakeDone(options, trace, i, n, id);
    }
  }

  /** Before step `n`, and since the provider's transport last came up or went down, a handshake completed
      that was started in the generation the bridge is in now. */
  ghost predicate HandshakenInGeneration(options: Options, trace: Trace, n: nat)
    requires n <= |trace|
  {
    exists i, j, id :: 0 <= i < j < n && HandshakeDone(options, trace, i, j, id) &&
      (forall m :: i < m < n ==> !IsLifecycle(trace[m].1)) &&
      After(options, trace[..i + 1]).tables.generation == After(options, trace[..n]).tables.generation
  }

  /** Whenever the session is ready, the handshake of the current generation has completed. */
  lemma ReadyMeansHandshaken(options: Options, trace: Trace, n: nat)
    requires ConnectsInTurn(trace) && n <= |trace| && After(options, trace[..n]).tables.ready
    ensures HandshakenInGeneration(options, trace, n)
  {
    hide After, IsLifecycle, AwaitsInitialize, IdKey;
    var before := trace[..n];
    forall i | 0 <= i < n ensures before[i].1.DoConnected? ==> SessionStart(before[..i]).None? {
      assert before[..i] == trace[..i];
    }
    RunSession(options, before);
    var i := SessionStart(before).value;
    var j, id :| 0 <= j < n && HandshakeDone(options, before, i, j, id);
    assert before[..j] == trace[..j] && before[..j + 1] == trace[..j + 1] && before[..i + 1] == trace[..i + 1];
    assert HandshakeDone(options, trace, i, j, id);
  }

  /** Authority and handshake over every run: when a step sends a frontend's request or notification upstream,
      that frontend is the controller or issues a whitelisted read, and the handshake of the current provider
      generation had already completed. */
  lemma {:induction false} ForwardedAfterHandshake(options: Options, trace: Trace, n: nat, x: nat)
    requires Feasible(options, trace) && ConnectsInTurn(trace) && n < |trace|
    requires |After(options, trace[..n]).up| <= x < |After(options, trace[..n + 1]).up|
    requires IsForwardedCall(After(options, trace[..n + 1]).up[x])
    ensures var s := After(options, trace[..n]); var sent := After(options, trace[..n + 1]).up[x];
      && (s.tables.controller == Some(sent.origin.connectionId) ||
          (options.observersMayRead && sent.payload.Request? && sent.payload.verb in ReadOnlyMethods))
      && sent.payload.verb != "initialize" && sent.payload.verb != "initialized"
      && HandshakenInGeneration(options, trace, n)
  {
    hide After, Step, Inv, ReplicasExact, IdsUnique, OwnersIssued, IsLifecycle, HandshakeDone;
    FeasiblePrefix(options, trace, n);
    RunSound(options, trace[..n]);
    AfterStep(options, trace, n);
    ForwardAuthority(After(options, trace[..n]), trace[n].0, trace[n].1, x);
    SameOptions(options, trace[..n]);
    ReadyMeansHandshaken(options, trace, n);
  }

  lemma {:induction false} SameOptions(options: Options, trace: Trace)
    ensures After(options, trace).tables.options == options
  {
    hide Step, Effect, Takes;
    if trace != [] {
      var s, link, input := After(options, trace[..|trace| - 1]), trace[|trace| - 1].0, trace[|trace| - 1].1;
      SameOptions(options, trace[..|trace| - 1]);
      StepEffect(s, link, input);
      OptionsStay(s.tables, link, Takes(s, link), input);
    }
  }
}
