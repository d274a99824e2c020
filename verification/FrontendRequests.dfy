/** The requests of the frontends: where each of them ends, and how often it is answered. */
module FrontendRequests {
  import opened Wrappers
  import opened JsonRpc
  import opened BridgeState
  import opened BridgeEffects
  import opened BridgeInvariant
  import opened Coverage
  import opened Routing
  import opened BridgeRuns
  import opened Answers

  // ----- only registered connections are heard --------------------------------------------------

  /** Nothing was ever sent to a name that has not been given out. */
  ghost predicate HeardNames(s: State) {
    forall c :: c in s.down ==> IsConnectionName(c, s.tables.nextConnection)
  }

  lemma CommandHeard(s: State, c: string, action: Action)
    ensures HandleCommand(s, c, action).down.Keys <= s.down.Keys + s.tables.frontends.Keys + {c}
  {
    hide Diagnose, BroadcastController;
  }

  lemma FromFrontendHeard(s: State, link: Link, c: string, m: FrontendMessage)
    ensures ReceiveFromFrontend(s, link, c, m).down.Keys <= s.down.Keys + s.tables.frontends.Keys
  {
    hide Reject, HandleCommand, IdKey, FrontendKey, RemoteId, RemoteNumber, Refusal, Takes, ClassifyStrict;
    if c in s.tables.frontends && m.Command? {
      CommandHeard(s, c, m.action);
    }
  }

  lemma FromAppServerHeard(s: State, link: Link, p: Payload, throws: bool, order: seq<string>)
    ensures ReceiveFromAppServer(s, link, p, throws, order).down.Keys <= s.down.Keys + s.tables.frontends.Keys
  {
    hide Deliver, Diagnose, BroadcastProvider, Fanout, IdKey, Takes;
  }

  lemma UnregisterHeard(s: State, link: Link, c: string, order: seq<string>)
    ensures Unregister(s, link, c, order).down.Keys <= s.down.Keys + s.tables.frontends.Keys
  {
    hide BroadcastController, FailServerRequests;
    FailServerRequestsTables(s, link, order);
  }

  lemma StepHeard(s: State, link: Link, input: Input)
    ensures var t := Step(s, link, input);
      t.down.Keys <= s.down.Keys + s.tables.frontends.Keys + t.tables.frontends.Keys
  {
    hide Unregister, ReceiveFromFrontend, ReceiveFromAppServer, Diagnose, BroadcastProvider, Greet, FailRequests,
      LocalId, LocalNumber, FileLocally, IdKey, ConnectionName, Takes;
    match input
    case DoUnregister(c, order) => UnregisterHeard(s, link, c, order);
    case DoReceiveFromFrontend(c, m) => FromFrontendHeard(s, link, c, m);
    case DoReceiveFromAppServer(p, throws, order) => FromAppServerHeard(s, link, p, throws, order);
    case _ =>
  }

  lemma StepHeardNames(s: State, link: Link, input: Input)
    requires Inv(s) && Enabled(s, input) && HeardNames(s)
    ensures HeardNames(Step(s, link, input)) && Log(s, ConnectionName(s.tables.nextConnection)) == []
  {
    hide Step, Enabled, IsConnectionName, ConnectionName, TablesInverse, KeysFresh, OwnersRegistered;
    var t, n := Step(s, link, input), s.tables.nextConnection;
    StepHeard(s, link, input);
    StepInv(s, link, input);
    StepFrontends(s, link, input);
    ConnectionNameIsNew(n);
    forall c | IsConnectionName(c, n)
      ensures IsConnectionName(c, t.tables.nextConnection)
    {
      NameStays(c, n, t.tables.nextConnection);
    }
  }

  // ----- the account of one id ------------------------------------------------------------------

  /** The responses among these that carry the id with key `k`. */
  function Count(answers: seq<Payload>, k: string): nat {
    if answers == [] then 0
    else
      var last := answers[|answers| - 1];
      Count(answers[..|answers| - 1], k) + if last.Response? && IdKey(last.id) == Some(k) then 1 else 0
  }

  lemma {:induction false} CountJoin(a: seq<Payload>, b: seq<Payload>, k: string)
    ensures Count(a + b, k) == Count(a, k) + Count(b, k)
  {
    hide IdKey;
    if b == [] {
      assert a + b == a;
    } else {
      assert (a + b)[..|a + b| - 1] == a + b[..|b| - 1];
      CountJoin(a, b[..|b| - 1], k);
    }
  }

  /** One if a request of `c` with key `k` is outstanding at the app-server. */
  function Waiting(t: Tables, c: string, k: string): nat {
    if FrontendKey(c, k) in t.requestKeys then 1 else 0
  }

  /** The message this step receives from the registered connection `c`, if it does. */
  function Received(t: Tables, input: Input, c: string): Option<Payload> {
    if input.DoReceiveFromFrontend? && input.connectionId == c && c in t.frontends && input.message.AppServerMessage?
    then input.message.payload else None
  }

  /** One if the step receives a request of `c` with key `k`. */
  function Requested(t: Tables, input: Input, c: string, k: string): nat {
    var p := Received(t, input, c);
    if p.Some? && ClassifyStrict(p.value).RequestKind? && IdKey(p.value.id) == Some(k) then 1 else 0
  }

  /** One if the step receives from `c`, under key `k`, a payload that is no valid message, or a response that `c` does
      not owe or that the app-server does not take: these too draw an error under their id. */
  function Misused(s: State, link: Link, input: Input, c: string, k: string): nat {
    var p := Received(s.tables, input, c);
    if p.None? || Ident(p.value).None? || IdKey(Ident(p.value).value) != Some(k) then 0
    else
      match ClassifyStrict(p.value)
      case InvalidKind => 1
      case ResponseKind => if Owns(s.tables, c, k) && Takes(s, link) then 0 else 1
      case _ => 0
  }

  /** One if the step drops an outstanding request because its connection leaves. */
  function Dropped(t: Tables, input: Input, c: string, k: string): nat {
    if input.DoUnregister? && input.connectionId == c then Waiting(t, c, k) else 0
  }

  ghost predicate Balanced(s: State, link: Link, input: Input, t: State, c: string, k: string) {
    Count(StepAnswers(s, link, input, c), k) + Waiting(t.tables, c, k) + Dropped(s.tables, input, c, k) ==
    Waiting(s.tables, c, k) + Requested(s.tables, input, c, k) + Misused(s, link, input, c, k)
  }

  // ----- each step keeps the account ------------------------------------------------------------

  lemma KeysInjective(c: string, k: string, d: string, l: string)
    requires '\n' !in c && '\n' !in d
    ensures FrontendKey(c, k) == FrontendKey(d, l) <==> c == d && k == l
  {
    if FrontendKey(c, k) == FrontendKey(d, l) {
      assert c + "\n" <= FrontendKey(c, k);
      FrontendKeyPrefix(c, d, l);
      assert k == FrontendKey(c, k)[|c| + 1..] == FrontendKey(d, l)[|d| + 1..] == l;
    }
  }

  /** The entry behind an outstanding request: its upstream key, and that no other entry has the same connection and
      id. */
  lemma WaitingEntry(t: Tables, c: string, k: string)
    requires Consistent(t) && '\n' !in c
    ensures FrontendKey(c, k) in t.requestKeys ==>
              && c in t.frontends && t.requestKeys[FrontendKey(c, k)] in t.requestOwners
              && var r := t.requestOwners[t.requestKeys[FrontendKey(c, k)]];
              r.connectionId == c && IdKey(r.frontendId) == Some(k)
    ensures forall u :: u in t.requestOwners && t.requestOwners[u].connectionId == c &&
                        IdKey(t.requestOwners[u].frontendId) == Some(k) ==>
              FrontendKey(c, k) in t.requestKeys && t.requestKeys[FrontendKey(c, k)] == u
  {
    hide IdKey, FrontendKey, OwnersRegistered, KeysFresh;
    if FrontendKey(c, k) in t.requestKeys {
      var r := t.requestOwners[t.requestKeys[FrontendKey(c, k)]];
      ConnectionNameHasNoNewline(r.connectionId, t.nextConnection);
      KeysInjective(c, k, r.connectionId, IdKey(r.frontendId).value);
    }
  }

  /** What a message of a frontend files, if anything: the request it forwards. */
  lemma FromFrontendKeys(s: State, link: Link, d: string, m: FrontendMessage, c: string, k: string)
    requires '\n' !in c && '\n' !in d
    ensures var f := Forwarded(s.tables, link, d, m);
      var files := f.Some? && f.value.Request? && Takes(s, link);
      Waiting(ReceiveFromFrontend(s, link, d, m).tables, c, k) ==
      Waiting(s.tables, c, k) + if files && d == c && IdKey(m.payload.value.id) == Some(k) then 1 else 0
  {
    hide IdKey, FrontendKey, RemoteId, RemoteNumber, StringKey, ReceiveFromFrontend, Forwarded, Takes;
    var f := Forwarded(s.tables, link, d, m);
    if f.Some? && f.value.Request? {
      ForwardedShape(s.tables, link, d, m);
      ForwardFiles(s, link, d, m);
      KeysInjective(c, k, d, IdKey(m.payload.value.id).value);
    } else {
      AnswerKeepsTables(s, link, d, m);
    }
  }

  /** A message of a frontend is forwarded, answered, rejected or a notification: each request and each misuse of an
      id is either filed or rejected under that id. */
  lemma MessageAccount(s: State, link: Link, c: string, m: FrontendMessage, k: string)
    ensures var f := Forwarded(s.tables, link, c, m); var input := DoReceiveFromFrontend(c, m);
      var files := f.Some? && f.value.Request? && Takes(s, link);
      Count(Optional(Rejection(s, link, c, m)), k)
      + (if files && IdKey(m.payload.value.id) == Some(k) then 1 else 0) ==
      Requested(s.tables, input, c, k) + Misused(s, link, input, c, k)
  {
    hide IdKey, FrontendKey, RemoteId, Refusal, Takes;
  }

  lemma FromFrontendBalanced(s: State, link: Link, d: string, m: FrontendMessage, c: string, k: string)
    requires Inv(s) && '\n' !in c
    ensures Balanced(s, link, DoReceiveFromFrontend(d, m), ReceiveFromFrontend(s, link, d, m), c, k)
  {
    hide IdKey, FrontendKey, Forwarded, Rejection, HandleAppServerMessage, HandleCommand, Reject, Consistent, Takes,
      ClassifyStrict;
    if d in s.tables.frontends {
      RegisteredName(s.tables, d);
      FromFrontendKeys(s, link, d, m, c, k);
      MessageAccount(s, link, d, m, k);
      assert Count([], k) == 0;
    }
  }

  lemma RegisteredName(t: Tables, c: string)
    requires Consistent(t) && c in t.frontends
    ensures '\n' !in c
  {
    ConnectionNameHasNoNewline(c, t.nextConnection);
  }

  /** What an entry is filed under tells its connection and its id. */
  lemma EntryKey(t: Tables, u: string, c: string, k: string)
    requires Consistent(t) && u in t.requestOwners && '\n' !in c
    ensures var r := t.requestOwners[u];
      && r.connectionId in t.frontends && r.frontendKey in t.requestKeys
      && (r.frontendKey == FrontendKey(c, k) <==> r.connectionId == c && IdKey(r.frontendId) == Some(k))
  {
    hide IdKey, FrontendKey, OwnersRegistered, KeysFresh;
    var r := t.requestOwners[u];
    ConnectionNameHasNoNewline(r.connectionId, t.nextConnection);
    KeysInjective(c, k, r.connectionId, IdKey(r.frontendId).value);
  }

  /** The response settles an entry of the frontends' requests. */
  predicate Settles(t: Tables, p: Payload) {
    p.Response? && IdKey(p.id).Some? && IdKey(p.id).value !in t.localRequests && IdKey(p.id).value in t.requestOwners
  }

  lemma FromAppServerKeys(s: State, link: Link, p: Payload, throws: bool, order: seq<string>)
    ensures var t := ReceiveFromAppServer(s, link, p, throws, order).tables;
      && (Settles(s.tables, p) ==>
            t.requestKeys == s.tables.requestKeys - {s.tables.requestOwners[IdKey(p.id).value].frontendKey})
      && (!Settles(s.tables, p) ==> t.requestKeys == s.tables.requestKeys)
  {
    hide ReceiveFromAppServer, RequestEffect, IdKey, ResolvedKey, Takes;
    FromAppServerEffect(s, link, p, throws, order);
  }

  lemma FromAppServerBalanced(s: State, link: Link, p: Payload, throws: bool, order: seq<string>, c: string, k: string)
    requires Inv(s) && '\n' !in c
    ensures Balanced(s, link, DoReceiveFromAppServer(p, throws, order), ReceiveFromAppServer(s, link, p, throws, order),
                     c, k)
  {
    hide IdKey, FrontendKey, ReceiveFromAppServer, Consistent, Takes, Count;
    FromAppServerKeys(s, link, p, throws, order);
    NoneCounted(k);
    if Settles(s.tables, p) {
      var r := s.tables.requestOwners[IdKey(p.id).value];
      EntryKey(s.tables, IdKey(p.id).value, c, k);
      CountOne(Response(r.frontendId, p.outcome, p.strict), k);
    }
  }

  /** Of the errors on losing the app-server exactly one carries an outstanding id. */
  lemma {:induction false} LostOnce(t: Tables, order: seq<string>, c: string, k: string)
    requires Consistent(t) && '\n' !in c
    requires forall i, j :: 0 <= i < j < |order| ==> order[i] != order[j]
    ensures Count(LostTo(t.requestOwners, order, c), k) ==
            if FrontendKey(c, k) in t.requestKeys && t.requestKeys[FrontendKey(c, k)] in order then 1 else 0
  {
    hide Consistent, IdKey, FrontendKey, Count;
    if order == [] {
      NoneCounted(k);
    } else {
      var prior, u := order[..|order| - 1], order[|order| - 1];
      LostOnce(t, prior, c, k);
      assert order == prior + [u] && u !in prior;
      WaitingEntry(t, c, k);
      var before := LostTo(t.requestOwners, prior, c);
      if u in t.requestOwners && t.requestOwners[u].connectionId == c {
        CountJoin(before, [ErrorResponse(t.requestOwners[u].frontendId, -32002)], k);
        CountOne(ErrorResponse(t.requestOwners[u].frontendId, -32002), k);
      } else {
        assert LostTo(t.requestOwners, order, c) == before + [] == before;
      }
    }
  }

  lemma CountOne(p: Payload, k: string)
    ensures Count([p], k) == if p.Response? && IdKey(p.id) == Some(k) then 1 else 0
  {
    assert [p][..0] == [];
  }

  lemma DisconnectedBalanced(s: State, link: Link, order: seq<string>, c: string, k: string)
    requires Inv(s) && Enabled(s, DoDisconnected(order)) && '\n' !in c
    ensures Balanced(s, link, DoDisconnected(order), AppServerDisconnected(s, order), c, k)
  {
    hide IdKey, FrontendKey, FailRequests, BroadcastProvider, Diagnose, Consistent, LostTo, Count;
    LostOnce(s.tables, order, c, k);
    WaitingEntry(s.tables, c, k);
    NoneCounted(k);
  }

  lemma NoneCounted(k: string)
    ensures Count([], k) == 0
  {
  }

  lemma UnregisterBalanced(s: State, link: Link, d: string, order: seq<string>, c: string, k: string)
    requires Inv(s) && '\n' !in c
    ensures Balanced(s, link, DoUnregister(d, order), Unregister(s, link, d, order), c, k)
  {
    hide IdKey, FrontendKey, FailServerRequests, BroadcastController, Consistent;
    WaitingEntry(s.tables, c, k);
    if d in s.tables.frontends {
      FailServerRequestsTables(s, link, order);
      RegisteredName(s.tables, d);
      FrontendKeyPrefix(d, c, k);
    }
  }

  /** Every step keeps the account of every connection and every id. */
  lemma StepBalanced(s: State, link: Link, input: Input, c: string, k: string)
    requires Inv(s) && Enabled(s, input) && '\n' !in c
    ensures Balanced(s, link, input, Step(s, link, input), c, k)
  {
    hide Inv, IdKey, FrontendKey, Unregister, ReceiveFromFrontend, ReceiveFromAppServer, AppServerDisconnected,
      Register, AppServerConnected, RequestLocally, SendRaw, SetLocalHandler, Count;
    NoneCounted(k);
    match input
    case DoUnregister(d, order) => UnregisterBalanced(s, link, d, order, c, k);
    case DoReceiveFromFrontend(d, m) => FromFrontendBalanced(s, link, d, m, c, k);
    case DoReceiveFromAppServer(p, throws, order) => FromAppServerBalanced(s, link, p, throws, order, c, k);
    case DoDisconnected(order) => DisconnectedBalanced(s, link, order, c, k);
    case _ => OtherKeys(s, link, input);
  }

  lemma OtherKeys(s: State, link: Link, input: Input)
    requires !input.DoUnregister? && !input.DoReceiveFromFrontend? && !input.DoReceiveFromAppServer?
      && !input.DoDisconnected?
    ensures Step(s, link, input).tables.requestKeys == s.tables.requestKeys
  {
    hide Step, Effect, Takes;
    StepEffect(s, link, input);
    OtherKeysStay(s.tables, link, Takes(s, link), input);
  }

  // ----- whole runs -----------------------------------------------------------------------------

  function RequestsBy(options: Options, trace: Trace, c: string, k: string): nat {
    if trace == [] then 0
    else
      var n := |trace| - 1;
      RequestsBy(options, trace[..n], c, k) + Requested(After(options, trace[..n]).tables, trace[n].1, c, k)
  }

  function MisusesBy(options: Options, trace: Trace, c: string, k: string): nat {
    if trace == [] then 0
    else
      var n := |trace| - 1;
      MisusesBy(options, trace[..n], c, k) + Misused(After(options, trace[..n]), trace[n].0, trace[n].1, c, k)
  }

  function DropsBy(options: Options, trace: Trace, c: string, k: string): nat {
    if trace == [] then 0
    else
      var n := |trace| - 1;
      DropsBy(options, trace[..n], c, k) + Dropped(After(options, trace[..n]).tables, trace[n].1, c, k)
  }

  /** The answers with key `k` that a connection has been sent. */
  function AnswersTo(s: State, c: string, k: string): nat {
    Count(Responses(Log(s, c)), k)
  }

  lemma {:induction false} RunHeard(options: Options, trace: Trace)
    requires Feasible(options, trace)
    ensures HeardNames(After(options, trace))
  {
    hide HeardNames, Step, Enabled, Sound;
    if trace == [] {
      NothingHeard(options);
    } else {
      var n := |trace| - 1;
      FeasiblePrefix(options, trace, n);
      RunHeard(options, trace[..n]);
      RunSound(options, trace[..n]);
      SoundInv(After(options, trace[..n]));
      assert Enabled(After(options, trace[..n]), trace[n].1);
      StepHeardNames(After(options, trace[..n]), trace[n].0, trace[n].1);
    }
  }

  lemma NothingHeard(options: Options)
    ensures HeardNames(Initial(options))
  {
  }

  /** One step of a run: the answers it adds are exactly those of Answers.StepAnswers, and the account is kept. */
  lemma RunStep(options: Options, trace: Trace, c: string, k: string)
    requires Feasible(options, trace) && trace != [] && '\n' !in c
    ensures var n := |trace| - 1; var s, t := After(options, trace[..n]), After(options, trace);
      && Says(s, t, c, StepAnswers(s, trace[n].0, trace[n].1, c))
      && Balanced(s, trace[n].0, trace[n].1, t, c, k)
  {
    hide Step, Enabled, Sound, Says, Balanced, StepAnswers, HeardNames, Consistent;
    var n := |trace| - 1;
    var s := After(options, trace[..n]);
    FeasiblePrefix(options, trace, n);
    RunSound(options, trace[..n]);
    RunHeard(options, trace[..n]);
    SoundInv(s);
    assert Enabled(s, trace[n].1);
    StepHeardNames(s, trace[n].0, trace[n].1);
    OwnersRegisteredHere(s.tables);
    StepSays(s, trace[n].0, trace[n].1, c);
    StepBalanced(s, trace[n].0, trace[n].1, c, k);
  }

  lemma OwnersRegisteredHere(t: Tables)
    requires Consistent(t)
    ensures OwnersAreFrontends(t)
  {
  }

  /** The account of the frontends' requests: over every run, for every connection and every id, the answers sent
      under that id, the request still outstanding and those dropped when the connection left are exactly the
      requests received and the misuses of the id. */
  lemma {:induction false} Conservation(options: Options, trace: Trace, c: string, k: string)
    requires Feasible(options, trace) && '\n' !in c
    ensures var s := After(options, trace);
      AnswersTo(s, c, k) + Waiting(s.tables, c, k) + DropsBy(options, trace, c, k) ==
      RequestsBy(options, trace, c, k) + MisusesBy(options, trace, c, k)
  {
    hide Step, Enabled, Feasible, Requested, Misused, Dropped, StepAnswers, FrontendKey, Count, Responses;
    if trace == [] {
      NothingAsked(options, c, k);
    } else {
      var n := |trace| - 1;
      var s, t := After(options, trace[..n]), After(options, trace);
      FeasiblePrefix(options, trace, n);
      Conservation(options, trace[..n], c, k);
      RunStep(options, trace, c, k);
      CountJoin(Responses(Log(s, c)), StepAnswers(s, trace[n].0, trace[n].1, c), k);
    }
  }

  lemma NothingAsked(options: Options, c: string, k: string)
    ensures AnswersTo(Initial(options), c, k) == 0 && Waiting(Initial(options).tables, c, k) == 0
  {
  }

  lemma NoGrowth(options: Options, trace: Trace, i: nat, j: nat, c: string, k: string)
    requires i <= j <= |trace|
    ensures DropsBy(options, trace[..i], c, k) <= DropsBy(options, trace[..j], c, k)
    decreases j
  {
    hide Dropped, After;
    if i < j {
      NoGrowth(options, trace, i, j - 1, c, k);
      assert trace[..j][..j - 1] == trace[..j - 1];
    }
  }

  /** The requests and misuses between two points of a run. */
  function Asked(options: Options, trace: Trace, c: string, k: string): nat {
    RequestsBy(options, trace, c, k) + MisusesBy(options, trace, c, k)
  }

  /** Each request is answered at most once: between any two points of a run the answers under an id are at most the
      request outstanding at the first, if any, and one for each request or misuse of the id in between. */
  lemma AnsweredAtMostOnceEach(options: Options, trace: Trace, i: nat, j: nat, c: string, k: string)
    requires Feasible(options, trace) && i <= j <= |trace| && '\n' !in c
    ensures var s, t := After(options, trace[..i]), After(options, trace[..j]);
      AnswersTo(t, c, k) + Waiting(t.tables, c, k) + Asked(options, trace[..i], c, k) <=
      AnswersTo(s, c, k) + Waiting(s.tables, c, k) + Asked(options, trace[..j], c, k)
  {
    hide After, Waiting, AnswersTo, RequestsBy, MisusesBy, DropsBy;
    FeasiblePrefix(options, trace, i);
    FeasiblePrefix(options, trace, j);
    Conservation(options, trace[..i], c, k);
    Conservation(options, trace[..j], c, k);
    NoGrowth(options, trace, i, j, c, k);
  }

  /** In particular a request that was forwarded gets one answer at most while its frontend does not use the id again:
      as long as it is outstanding there is none, and when it is not any more, there is exactly one unless the
      frontend has left. */
  lemma ForwardedAnsweredOnce(options: Options, trace: Trace, i: nat, j: nat, c: string, k: string)
    requires Feasible(options, trace) && i <= j <= |trace| && '\n' !in c
    requires Waiting(After(options, trace[..i]).tables, c, k) == 1
    requires Asked(options, trace[..j], c, k) == Asked(options, trace[..i], c, k)
    ensures var s, t := After(options, trace[..i]), After(options, trace[..j]);
      var left := DropsBy(options, trace[..j], c, k) - DropsBy(options, trace[..i], c, k);
      && left >= 0 && AnswersTo(t, c, k) - AnswersTo(s, c, k) == 1 - Waiting(t.tables, c, k) - left
      && 0 <= AnswersTo(t, c, k) - AnswersTo(s, c, k) <= 1
  {
    hide After, AnswersTo, RequestsBy, MisusesBy, DropsBy;
    FeasiblePrefix(options, trace, i);
    FeasiblePrefix(options, trace, j);
    Conservation(options, trace[..i], c, k);
    Conservation(options, trace[..j], c, k);
    NoGrowth(options, trace, i, j, c, k);
    AnswersGrow(options, trace, i, j, c, k);
  }

  /** No answer is ever taken back. */
  lemma {:induction false} AnswersGrow(options: Options, trace: Trace, i: nat, j: nat, c: string, k: string)
    requires Feasible(options, trace) && i <= j <= |trace| && '\n' !in c
    ensures AnswersTo(After(options, trace[..i]), c, k) <= AnswersTo(After(options, trace[..j]), c, k)
    decreases j
  {
    hide After, Balanced, StepAnswers, Responses, Count, Feasible;
    if i < j {
      AnswersGrow(options, trace, i, j - 1, c, k);
      FeasiblePrefix(options, trace, j);
      RunStep(options, trace[..j], c, k);
      assert trace[..j][..j - 1] == trace[..j - 1];
      var s := After(options, trace[..j - 1]);
      CountJoin(Responses(Log(s, c)), StepAnswers(s, trace[j - 1].0, trace[j - 1].1, c), k);
    }
  }
}
