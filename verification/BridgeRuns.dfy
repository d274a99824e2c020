/** Safety over whole runs of the bridge. */
module BridgeRuns {
  import opened Wrappers
  import opened JsonRpc
  import opened BridgeState
  import opened BridgeEffects
  import opened BridgeInvariant
  import opened Replica
  import opened Routing

  type Trace = seq<(Link, Input)>

  /** The state after the first steps of a trace. */
  function After(options: Options, trace: Trace): State {
    if trace == [] then Initial(options)
    else Step(After(options, trace[..|trace| - 1]), trace[|trace| - 1].0, trace[|trace| - 1].1)
  }

  ghost predicate Feasible(options: Options, trace: Trace) {
    forall i :: 0 <= i < |trace| ==> Enabled(After(options, trace[..i]), trace[i].1)
  }

  /** The state before step `i`, and the step itself. */
  lemma AfterStep(options: Options, trace: Trace, i: nat)
    requires i < |trace|
    ensures After(options, trace[..i + 1]) == Step(After(options, trace[..i]), trace[i].0, trace[i].1)
  {
    assert trace[..i + 1][..i] == trace[..i];
  }

  lemma FeasiblePrefix(options: Options, trace: Trace, n: nat)
    requires Feasible(options, trace) && n <= |trace|
    ensures Feasible(options, trace[..n])
  {
    hide After, Enabled;
    forall i | 0 <= i < n ensures Enabled(After(options, trace[..n][..i]), trace[..n][i].1) {
      assert trace[..n][..i] == trace[..i];
      assert Enabled(After(options, trace[..i]), trace[i].1);
    }
  }

  ghost predicate Sound(s: State) {
    Inv(s) && ReplicasExact(s) && IdsUnique(s) && OwnersIssued(s)
  }

  /** Every reachable state has consistent tables, exact replicas and unique upstream ids. */
  lemma {:induction false} RunSound(options: Options, trace: Trace)
    requires Feasible(options, trace)
    ensures Sound(After(options, trace))
  {
    hide Inv, Enabled, Step, ReplicasExact, IdsUnique, OwnersIssued;
    if trace == [] {
      InitialInv(options);
      InitialSilent(options);
    } else {
      var n := |trace| - 1;
      FeasiblePrefix(options, trace, n);
      RunSound(options, trace[..n]);
      var s := After(options, trace[..n]);
      assert Enabled(s, trace[n].1);
      StepInv(s, trace[n].0, trace[n].1);
      StepExact(s, trace[n].0, trace[n].1);
      StepIdsUnique(s, trace[n].0, trace[n].1);
      IssuedNeverReturns(s, trace[n].0, trace[n].1, "");
    }
  }

  lemma InitialSilent(options: Options)
    ensures ReplicasExact(Initial(options)) && IdsUnique(Initial(options)) && OwnersIssued(Initial(options))
  {
  }

  lemma SoundInv(s: State)
    requires Sound(s)
    ensures Inv(s)
  {
  }

  // ----- each forwarded request is answered at most once ----------------------------------------

  /** Step `i` answers the frontend request that went up as `u`: with the app-server's response, or with an error
      because the app-server is lost. By Answers.StepSays every other response to a frontend rejects a message that
      the frontend itself sends in that step. */
  ghost predicate Answers(options: Options, trace: Trace, i: nat, u: string)
    requires i < |trace|
  {
    u in After(options, trace[..i]).tables.requestOwners && AnswersAll(trace[i].1, u)
  }

  predicate AnswersAll(input: Input, u: string) {
    input.DoDisconnected? ||
    (input.DoReceiveFromAppServer? && input.payload.Response? && IdKey(input.payload.id) == Some(u))
  }

  /** An answered request is not outstanding any more. */
  lemma AnsweredIsSettled(s: State, link: Link, input: Input, u: string)
    requires Inv(s) && u in s.tables.requestOwners && AnswersAll(input, u)
    ensures u !in Step(s, link, input).tables.requestOwners
  {
    hide IdKey, Diagnose, BroadcastProvider, FailRequests, ReceiveFromAppServer, Consistent;
    if input.DoReceiveFromAppServer? {
      ResponseReachesOwner(s, link, input.payload, input.throws, input.order, u);
    }
  }

  lemma {:induction false} SettledStays(options: Options, trace: Trace, i: nat, j: nat, u: string)
    requires Feasible(options, trace) && i <= j <= |trace|
    requires var s := After(options, trace[..i]); Issued(s, u) && u !in s.tables.requestOwners
    ensures var t := After(options, trace[..j]); Issued(t, u) && u !in t.tables.requestOwners
    decreases j
  {
    hide After, Enabled, Step, Inv, ReplicasExact, Issued, IdsUnique, OwnersIssued;
    if i < j {
      SettledStays(options, trace, i, j - 1, u);
      FeasiblePrefix(options, trace, j - 1);
      RunSound(options, trace[..j - 1]);
      IssuedNeverReturns(After(options, trace[..j - 1]), trace[j - 1].0, trace[j - 1].1, u);
      AfterStep(options, trace, j - 1);
    }
  }

  /** Over a whole run, no forwarded request is answered twice, neither by the app-server nor on losing it. */
  lemma {:induction false} AnsweredAtMostOnce(options: Options, trace: Trace, i: nat, j: nat, u: string)
    requires Feasible(options, trace) && i < |trace| && j < |trace|
    requires Answers(options, trace, i, u) && Answers(options, trace, j, u)
    ensures i == j
  {
    if i < j {
      AnsweredLater(options, trace, i, j, u);
    } else if j < i {
      AnsweredLater(options, trace, j, i, u);
    }
  }

  lemma AnsweredLater(options: Options, trace: Trace, i: nat, j: nat, u: string)
    requires Feasible(options, trace) && i < j < |trace| && Answers(options, trace, i, u)
    ensures !Answers(options, trace, j, u)
  {
    hide After, Enabled, Inv, ReplicasExact, Issued, IdsUnique, Step, AnswersAll;
    var s, input := After(options, trace[..i]), trace[i].1;
    FeasiblePrefix(options, trace, i);
    RunSound(options, trace[..i]);
    AnsweredIsSettled(s, trace[i].0, input, u);
    IssuedNeverReturns(s, trace[i].0, input, u);
    AfterStep(options, trace, i);
    SettledStays(options, trace, i + 1, j, u);
  }

  /** A step that received the request with this id from connection `c` and sent it upstream, where it was taken,
      under the id with key `u`. */
  ghost predicate ForwardsStep(s: State, t: State, input: Input, u: string, c: string, id: JsonId) {
    && input.DoReceiveFromFrontend? && input.connectionId == c
    && input.message.AppServerMessage? && input.message.payload.Some?
    && var p := input.message.payload.value;
    && p.Request? && p.id == id && u == StringKey(RemoteId(s.tables, c))
    && t.up == s.up + [Sent(Request(Str(RemoteId(s.tables, c)), p.verb, p.body, p.strict), FromFrontend(c), true)]
  }

  /** Every entry of the table is as old as the step or was filed by forwarding in the step. */
  lemma EntryOrigin(s: State, link: Link, input: Input, u: string)
    requires u in Step(s, link, input).tables.requestOwners
    ensures var t := Step(s, link, input); var r := t.tables.requestOwners[u];
      || (u in s.tables.requestOwners && s.tables.requestOwners[u] == r)
      || ForwardsStep(s, t, input, u, r.connectionId, r.frontendId)
  {
    hide IdKey, FrontendKey, RemoteId, RemoteNumber, StringKey, Forwarded, ReceiveFromFrontend, Takes;
    if !input.DoReceiveFromFrontend? {
      OtherStepCounter(s, link, input);
    } else {
      var c, m := input.connectionId, input.message;
      var f := Forwarded(s.tables, link, c, m);
      if f.Some? && f.value.Request? {
        ForwardFiles(s, link, c, m);
        ForwardedCopy(s.tables, link, c, m);
        FrontendStepSends(s, link, c, m);
      } else {
        AnswerKeepsTables(s, link, c, m);
      }
    }
  }

  lemma ForwardedCopy(t: Tables, link: Link, c: string, m: FrontendMessage)
    requires Forwarded(t, link, c, m).Some? && Forwarded(t, link, c, m).value.Request?
    ensures m.AppServerMessage? && m.payload.Some? && m.payload.value.Request?
    ensures var p := m.payload.value;
      Forwarded(t, link, c, m).value == Request(Str(RemoteId(t, c)), p.verb, p.body, p.strict)
  {
    hide IdKey, FrontendKey, RemoteId, Refusal, Owns;
  }

  ghost predicate Forwards(options: Options, trace: Trace, i: nat, u: string, c: string, id: JsonId)
    requires i < |trace|
  {
    ForwardsStep(After(options, trace[..i]), After(options, trace[..i + 1]), trace[i].1, u, c, id)
  }

  /** Every awaited request was forwarded for its owner, with the id the answer will be restored to. */
  lemma {:induction false} AwaitedWasForwarded(options: Options, trace: Trace, u: string)
    requires u in After(options, trace).tables.requestOwners
    ensures var r := After(options, trace).tables.requestOwners[u];
      exists i :: 0 <= i < |trace| && Forwards(options, trace, i, u, r.connectionId, r.frontendId)
  {
    hide Step, ForwardsStep;
    if trace == [] {
      NothingOwned(options);
    } else {
      var n := |trace| - 1;
      var s, r := After(options, trace[..n]), After(options, trace).tables.requestOwners[u];
      assert trace[..n + 1] == trace;
      EntryOrigin(s, trace[n].0, trace[n].1, u);
      if u in s.tables.requestOwners && s.tables.requestOwners[u] == r {
        AwaitedWasForwarded(options, trace[..n], u);
        var i :| 0 <= i < n && Forwards(options, trace[..n], i, u, r.connectionId, r.frontendId);
        assert trace[..n][..i] == trace[..i] && trace[..n][..i + 1] == trace[..i + 1];
        assert Forwards(options, trace, i, u, r.connectionId, r.frontendId);
      } else {
        assert Forwards(options, trace, n, u, r.connectionId, r.frontendId);
      }
    }
  }

  lemma NothingOwned(options: Options)
    ensures Initial(options).tables.requestOwners == map[]
  {
  }
}
