/** What every step of the bridge keeps: the shape of its tables. */
module BridgeInvariant {
  import opened Wrappers
  import opened JsonRpc
  import opened BridgeState
  import opened BridgeEffects
  import Decimal

  // ----- identifiers ----------------------------------------------------------------------------

  lemma NumberedKeyInjective(p: string, m: nat, q: string, n: nat)
    requires StringKey(Numbered(p, m)) == StringKey(Numbered(q, n))
    ensures p == q && m == n
  {
    IdKeyInjective(Str(Numbered(p, m)), Str(Numbered(q, n)));
    Decimal.SuffixInjective(p, m, q, n);
  }

  /** The generators end on the first number, counting up, whose key is in no table. */
  lemma {:induction false} FirstFreeIsFirst(prefix: string, n: nat, taken: set<string>)
    ensures var m := FirstFree(prefix, n, taken);
      n <= m && StringKey(Numbered(prefix, m)) !in taken &&
      forall k :: n <= k < m ==> StringKey(Numbered(prefix, k)) in taken
    decreases taken
  {
    var key := StringKey(Numbered(prefix, n));
    if key in taken {
      var m := FirstFree(prefix, n + 1, taken - {key});
      FirstFreeIsFirst(prefix, n + 1, taken - {key});
      if StringKey(Numbered(prefix, m)) == key {
        NumberedKeyInjective(prefix, m, prefix, n);
      }
    }
  }

  ghost predicate IsConnectionName(c: string, bound: nat) {
    exists n: nat :: n < bound && c == ConnectionName(n)
  }

  lemma ConnectionNameIsNew(n: nat)
    ensures !IsConnectionName(ConnectionName(n), n) && IsConnectionName(ConnectionName(n), n + 1)
  {
    forall m: nat | m < n ensures ConnectionName(m) != ConnectionName(n) {
      if ConnectionName(m) == ConnectionName(n) {
        Decimal.SuffixInjective("frontend", m, "frontend", n);
      }
    }
  }

  lemma ConnectionNameHasNoNewline(c: string, bound: nat)
    requires IsConnectionName(c, bound)
    ensures '\n' !in c
  {
    var n: nat :| n < bound && c == ConnectionName(n);
    assert forall i :: 0 <= i < |c| ==> c[i] == if i < 9 then "frontend-"[i] else Decimal.ToString(n)[i - 9];
  }

  /** Matching the prefix `c` newline finds exactly the keys of connection `c`. */
  lemma FrontendKeyPrefix(c: string, d: string, key: string)
    requires '\n' !in c && '\n' !in d
    ensures c + "\n" <= FrontendKey(d, key) <==> c == d
  {
    var f := FrontendKey(d, key);
    assert f[|d|] == '\n' && d == f[..|d|];
    if c + "\n" <= f {
      assert f[|c|] == '\n' && c == f[..|c|];
      assert |c| == |d|;
    }
  }

  ghost predicate IsRemoteKey(u: string, bound: nat) {
    exists g: nat, c: string, n: nat :: n < bound && u == StringKey(Numbered(RemotePrefix(g, c), n))
  }

  // ----- the invariant --------------------------------------------------------------------------

  /** Registered names are numbered below the counter; the controller is the one frontend with that role. */
  ghost predicate RolesAgree(t: Tables) {
    && (forall c :: c in t.frontends ==> IsConnectionName(c, t.nextConnection))
    && (t.controller.Some? ==> t.controller.value in t.frontends)
    && (forall c :: c in t.frontends ==> (t.frontends[c].Controller? <==> t.controller == Some(c)))
  }

  /** The two request tables are inverse to each other and mention registered frontends only. */
  ghost predicate TablesInverse(t: Tables) {
    && (forall u :: u in t.requestOwners ==>
          var r := t.requestOwners[u];
          r.connectionId in t.frontends && IdKey(r.frontendId).Some? &&
          r.frontendKey == FrontendKey(r.connectionId, IdKey(r.frontendId).value) &&
          r.frontendKey in t.requestKeys && t.requestKeys[r.frontendKey] == u)
    && (forall f :: f in t.requestKeys ==>
          t.requestKeys[f] in t.requestOwners && t.requestOwners[t.requestKeys[f]].frontendKey == f)
  }

  /** No upstream id is awaited twice, and those of frontends were made by the generator. */
  ghost predicate KeysFresh(t: Tables) {
    && t.requestOwners.Keys !! t.localRequests.Keys
    && (forall u :: u in t.requestOwners ==> IsRemoteKey(u, t.nextFrontend))
  }

  /** An outstanding server request is filed under its own id, and a frontend that owns one is registered. */
  ghost predicate OwnersRegistered(t: Tables) {
    forall k :: k in t.serverOwners ==>
      IdKey(t.serverOwners[k].id) == Some(k) &&
      (t.serverOwners[k].Frontend? ==> t.serverOwners[k].connectionId in t.frontends)
  }

  ghost predicate Consistent(t: Tables) {
    RolesAgree(t) && TablesInverse(t) && KeysFresh(t) && OwnersRegistered(t)
  }

  ghost predicate Inv(s: State) {
    Consistent(s.tables)
  }

  lemma InitialInv(options: Options)
    ensures Inv(Initial(options))
  {
  }

  // ----- table transitions ----------------------------------------------------------------------

  lemma EnrollConsistent(t: Tables)
    requires Consistent(t)
    ensures Consistent(Enroll(t)) && ConnectionName(t.nextConnection) !in t.frontends
    ensures forall c :: IsConnectionName(c, t.nextConnection) ==> IsConnectionName(c, t.nextConnection + 1)
  {
    ConnectionNameIsNew(t.nextConnection);
    forall d | IsConnectionName(d, t.nextConnection) ensures IsConnectionName(d, t.nextConnection + 1) {
      var n: nat :| n < t.nextConnection && d == ConnectionName(n);
      assert n < t.nextConnection + 1;
    }
  }

  /** The prefix erase removes exactly the keys of the requests that the owner erase removes. */
  lemma DropRequestsInverse(t: Tables, c: string)
    requires RolesAgree(t) && TablesInverse(t) && c in t.frontends
    ensures var u := DropRequests(t, c);
      && (forall f :: f in u.requestKeys <==> f in t.requestKeys && t.requestOwners[t.requestKeys[f]].connectionId != c)
      && TablesInverse(u) && TablesInverse(Withdraw(u, c))
  {
    forall f | f in t.requestKeys
      ensures c + "\n" <= f <==> t.requestOwners[t.requestKeys[f]].connectionId == c
    {
      var r := t.requestOwners[t.requestKeys[f]];
      ConnectionNameHasNoNewline(c, t.nextConnection);
      ConnectionNameHasNoNewline(r.connectionId, t.nextConnection);
      FrontendKeyPrefix(c, r.connectionId, IdKey(r.frontendId).value);
    }
  }

  lemma LeaveConsistent(t: Tables, c: string)
    requires Consistent(t) && c in t.frontends && OwnedBy(t, c) == {}
    ensures Consistent(Withdraw(DropRequests(t, c), c))
  {
    DropRequestsInverse(t, c);
    assert forall k :: k in t.serverOwners ==> k !in OwnedBy(t, c);
  }

  lemma StrikeConsistent(t: Tables, key: string)
    requires Consistent(t)
    ensures Consistent(Strike(t, key))
  {
    hide IdKey, FrontendKey, IsRemoteKey, IsConnectionName;
  }

  lemma RaiseCounterConsistent(t: Tables, n: nat)
    requires Consistent(t) && t.nextFrontend <= n
    ensures Consistent(t.(nextFrontend := n))
  {
    forall u | u in t.requestOwners ensures IsRemoteKey(u, n) {
      var g: nat, d: string, m: nat :| m < t.nextFrontend && u == StringKey(Numbered(RemotePrefix(g, d), m));
      assert m < n;
    }
  }

  lemma FileConsistent(t: Tables, c: string, id: JsonId, u: string)
    requires Consistent(t) && c in t.frontends && IdKey(id).Some?
    requires FrontendKey(c, IdKey(id).value) !in t.requestKeys
    requires u !in Outstanding(t) && IsRemoteKey(u, t.nextFrontend)
    ensures var key := FrontendKey(c, IdKey(id).value);
      Consistent(t.(requestOwners := t.requestOwners[u := FrontendRequest(c, id, key)],
                    requestKeys := t.requestKeys[key := u]))
  {
    hide IdKey, FrontendKey, IsRemoteKey, IsConnectionName;
  }

  lemma FileRequestConsistent(t: Tables, c: string, id: JsonId)
    requires Consistent(t) && c in t.frontends && IdKey(id).Some?
    requires FrontendKey(c, IdKey(id).value) !in t.requestKeys
    ensures Consistent(FileRequest(t, c, id)) && StringKey(RemoteId(t, c)) !in Outstanding(t)
  {
    hide Consistent, IdKey, FrontendKey, StringKey, Numbered, RemotePrefix;
    FirstFreeIsFirst(RemotePrefix(t.generation, c), t.nextFrontend, Outstanding(t));
    var u := StringKey(RemoteId(t, c));
    assert IsRemoteKey(u, RemoteNumber(t, c) + 1);
    var raised := t.(nextFrontend := RemoteNumber(t, c) + 1);
    RaiseCounterConsistent(t, RemoteNumber(t, c) + 1);
    assert Outstanding(raised) == Outstanding(t);
    FileConsistent(raised, c, id, u);
  }

  lemma SettleConsistent(t: Tables, key: string)
    requires Consistent(t) && key in t.requestOwners
    ensures Consistent(Settle(t, key))
  {
    hide IdKey, FrontendKey, IsRemoteKey, IsConnectionName;
    var r := t.requestOwners[key];
    assert forall u :: u in t.requestOwners && u != key ==> t.requestOwners[u].frontendKey != r.frontendKey;
  }

  lemma AppointConsistent(t: Tables, c: Option<string>)
    requires Consistent(t) && (c.Some? ==> c.value in t.frontends)
    ensures Consistent(Appoint(t, c)) && Appoint(t, c).frontends.Keys == t.frontends.Keys
    ensures Appoint(t, c).nextConnection == t.nextConnection
  {
    hide IdKey, FrontendKey, IsRemoteKey, IsConnectionName;
  }

  lemma LocalRequestsConsistent(t: Tables, locals: map<string, LocalRequest>)
    requires Consistent(t) && t.requestOwners.Keys !! locals.Keys
    ensures Consistent(t.(localRequests := locals))
  {
    hide IdKey, FrontendKey, IsRemoteKey, IsConnectionName;
  }

  lemma FileLocallyConsistent(t: Tables, handler: Handler)
    requires Consistent(t)
    ensures Consistent(FileLocally(t, handler)) && Consistent(t.(nextLocal := LocalNumber(t) + 1))
  {
    FirstFreeIsFirst(LocalPrefix(t.generation), t.nextLocal, Outstanding(t));
    hide IdKey, FrontendKey, IsRemoteKey, IsConnectionName, TablesInverse, RolesAgree, OwnersRegistered, StringKey,
      FirstFree;
    LocalRequestsConsistent(t, FileLocally(t, handler).localRequests);
    ProviderConsistent(t, t.generation, t.ready, LocalNumber(t) + 1);
    ProviderConsistent(t.(localRequests := FileLocally(t, handler).localRequests), t.generation, t.ready,
                       LocalNumber(t) + 1);
  }

  lemma ServerOwnerConsistent(t: Tables, key: string, owner: ServerOwner)
    requires Consistent(t) && IdKey(owner.id) == Some(key)
    requires owner.Frontend? ==> owner.connectionId in t.frontends
    ensures Consistent(t.(serverOwners := t.serverOwners[key := owner]))
  {
    hide IdKey, FrontendKey, IsRemoteKey, IsConnectionName;
  }

  lemma ProviderConsistent(t: Tables, generation: nat, ready: bool, nextLocal: nat)
    requires Consistent(t)
    ensures Consistent(t.(generation := generation, ready := ready, nextLocal := nextLocal))
  {
    hide IdKey, FrontendKey, IsRemoteKey, IsConnectionName;
  }

  lemma ForgetConsistent(t: Tables)
    requires Consistent(t)
    ensures Consistent(Forget(t))
  {
    hide IdKey, FrontendKey, IsRemoteKey, IsConnectionName;
  }

  /** The server requests named by `order` are the only ones struck off, and no table or log moves besides. */
  lemma {:induction false} FailServerRequestsTables(s: State, link: Link, order: seq<string>)
    ensures var t := FailServerRequests(s, link, order);
      && t.tables == s.tables.(serverOwners := t.tables.serverOwners)
      && t.down == s.down && t.sequence == s.sequence
      && (forall k :: k in t.tables.serverOwners <==> k in s.tables.serverOwners && k !in order)
      && (forall k :: k in t.tables.serverOwners ==> t.tables.serverOwners[k] == s.tables.serverOwners[k])
  {
    if order != [] {
      FailServerRequestsTables(s, link, order[..|order| - 1]);
      assert order == order[..|order| - 1] + [order[|order| - 1]];
    }
  }

  // ----- each step keeps the invariant ----------------------------------------------------------

  lemma LeaveEffectConsistent(t: Tables, c: string, order: seq<string>)
    requires Consistent(t) && Enumerates(order, OwnedBy(t, c))
    ensures Consistent(LeaveEffect(t, c, order))
  {
    if c in t.frontends {
      var u := t.(serverOwners := t.serverOwners - (set k | k in order));
      assert forall k :: k in u.serverOwners ==> k !in OwnedBy(t, c);
      StruckConsistent(t, set k | k in order);
      LeaveConsistent(u, c);
    }
  }

  lemma StruckConsistent(t: Tables, gone: set<string>)
    requires Consistent(t)
    ensures Consistent(t.(serverOwners := t.serverOwners - gone))
  {
    hide IdKey, FrontendKey, IsRemoteKey, IsConnectionName;
  }

  lemma CommandConsistent(t: Tables, c: string, action: Action)
    requires Consistent(t) && c in t.frontends
    ensures Consistent(CommandEffect(t, c, action))
    ensures CommandEffect(t, c, action).frontends.Keys == t.frontends.Keys
  {
    hide Consistent, Appoint;
    AppointConsistent(t, None);
    AppointConsistent(t, Some(c));
    if action.Transfer? && action.target in t.frontends {
      AppointConsistent(t, Some(action.target));
    }
  }

  lemma FrontendConsistent(t: Tables, link: Link, takes: bool, c: string, m: FrontendMessage)
    requires Consistent(t)
    ensures Consistent(FrontendEffect(t, link, takes, c, m))
    ensures FrontendEffect(t, link, takes, c, m).frontends.Keys == t.frontends.Keys
  {
    hide Consistent, IdKey, FrontendKey, RemoteNumber, RemoteId, StringKey, Refusal, CommandEffect, Owns;
    if c in t.frontends && m.AppServerMessage? && m.payload.Some? {
      var p := m.payload.value;
      if p.Response? && IdKey(p.id).Some? {
        StrikeConsistent(t, IdKey(p.id).value);
      } else if p.Request? && Files(t, link, c, p) {
        FileRequestConsistent(t, c, p.id);
        RemoteNumberGrows(t, c);
        RaiseCounterConsistent(t, RemoteNumber(t, c) + 1);
      }
    } else if c in t.frontends && m.Command? {
      CommandConsistent(t, c, m.action);
    }
  }

  lemma RemoteNumberGrows(t: Tables, c: string)
    ensures t.nextFrontend <= RemoteNumber(t, c)
  {
    FirstFreeIsFirst(RemotePrefix(t.generation, c), t.nextFrontend, Outstanding(t));
  }

  lemma ResponseConsistent(t: Tables, link: Link, takes: bool, key: string, outcome: Outcome)
    requires Consistent(t)
    ensures Consistent(ResponseEffect(t, link, takes, key, outcome))
  {
    LocalDisjoint(t);
    hide Consistent, Settle;
    if key in t.localRequests {
      var u := t.(localRequests := t.localRequests - {key});
      LocalRequestsConsistent(t, u.localRequests);
      ProviderConsistent(u, t.generation, ResponseEffect(t, link, takes, key, outcome).ready, t.nextLocal);
    } else if key in t.requestOwners {
      SettleConsistent(t, key);
    }
  }

  lemma LocalDisjoint(t: Tables)
    requires Consistent(t)
    ensures t.requestOwners.Keys !! t.localRequests.Keys
  {
  }

  lemma AppServerConsistent(t: Tables, link: Link, takes: bool, p: Payload, throws: bool)
    requires Consistent(t)
    ensures Consistent(AppServerEffect(t, link, takes, p, throws))
  {
    hide Consistent, IdKey, ResolvedKey, ResponseEffect;
    match p
    case Response(id, outcome, _) =>
      if IdKey(id).Some? {
        ResponseConsistent(t, link, takes, IdKey(id).value, outcome);
      }
    case Request(id, _, _, _) =>
      if IdKey(id).Some? {
        ServerOwnerConsistent(t, IdKey(id).value, LocalApplication(id));
        if t.controller.Some? && t.controller.value in t.frontends {
          ServerOwnerConsistent(t, IdKey(id).value, Frontend(t.controller.value, id));
        }
      }
    case Notification(_, _, _, _) =>
      if ResolvedKey(p).Some? {
        StrikeConsistent(t, ResolvedKey(p).value);
      }
    case Invalid(_) =>
  }

  lemma LocalConsistent(t: Tables, takes: bool, handler: Handler)
    requires Consistent(t)
    ensures Consistent(LocalEffect(t, takes, handler))
  {
    hide Consistent, LocalNumber, FileLocally;
    FileLocallyConsistent(t, handler);
  }

  lemma RawConsistent(t: Tables, takes: bool, p: Payload)
    requires Consistent(t)
    ensures Consistent(RawEffect(t, takes, p))
  {
    LocalDisjoint(t);
    hide Consistent, IdKey;
    if (p.Request? || p.Response?) && IdKey(p.id).Some? {
      var key := IdKey(p.id).value;
      StrikeConsistent(t, key);
      if key !in Outstanding(t) {
        LocalRequestsConsistent(t, t.localRequests[key := LocalRequest(p.id, NoHandler)]);
      }
    }
  }

  lemma MethodsConsistent(t: Tables, verb: string, present: bool)
    requires Consistent(t)
    ensures Consistent(SetLocalHandler(t, verb, present))
  {
    hide IdKey, FrontendKey, IsRemoteKey, IsConnectionName;
  }

  lemma EffectConsistent(t: Tables, link: Link, takes: bool, input: Input)
    requires Consistent(t) && (input.DoUnregister? ==> Enumerates(input.order, OwnedBy(t, input.connectionId)))
    ensures Consistent(Effect(t, link, takes, input))
  {
    hide Consistent, LeaveEffect, FrontendEffect, AppServerEffect, LocalEffect, RawEffect, Forget, Enroll,
      SetLocalHandler, IsConnectionName, Enumerates;
    match input
    case DoRegister => EnrollConsistent(t);
    case DoUnregister(c, order) => LeaveEffectConsistent(t, c, order);
    case DoReceiveFromFrontend(c, m) => FrontendConsistent(t, link, takes, c, m);
    case DoReceiveFromAppServer(p, throws, _) => AppServerConsistent(t, link, takes, p, throws);
    case DoConnected =>
      ProviderConsistent(t, t.generation + 1, false, t.nextLocal);
      LocalConsistent(t.(ready := false, generation := t.generation + 1), takes, InitializeHandler);
    case DoDisconnected(_) => ForgetConsistent(t);
    case DoRequestLocally(_, _) => LocalConsistent(t, takes, UserHandler);
    case DoSendRaw(p) => RawConsistent(t, takes, p);
    case DoSetLocalHandler(verb, present) => MethodsConsistent(t, verb, present);
  }

  /** In every step, whatever the environment does, the tables stay consistent. */
  lemma {:induction false} StepInv(s: State, link: Link, input: Input)
    requires Inv(s) && Enabled(s, input)
    ensures Inv(Step(s, link, input))
  {
    hide Consistent, Step, Effect, Takes;
    StepEffect(s, link, input);
    EffectConsistent(s.tables, link, Takes(s, link), input);
  }

  // ----- who is registered ----------------------------------------------------------------------

  lemma EffectFrontends(t: Tables, link: Link, takes: bool, input: Input)
    requires Consistent(t)
    ensures var u := Effect(t, link, takes, input);
      && t.nextConnection <= u.nextConnection
      && u.frontends.Keys <= t.frontends.Keys + {ConnectionName(t.nextConnection)}
      && (input.DoUnregister? ==> input.connectionId !in u.frontends)
  {
    hide Consistent, LeaveEffect, FrontendEffect, AppServerEffect, LocalEffect, RawEffect, ConnectionName;
    if input.DoReceiveFromFrontend? {
      FrontendConsistent(t, link, takes, input.connectionId, input.message);
    }
  }

  lemma StepFrontends(s: State, link: Link, input: Input)
    requires Consistent(s.tables)
    ensures var t := Step(s, link, input).tables;
      && s.tables.nextConnection <= t.nextConnection
      && t.frontends.Keys <= s.tables.frontends.Keys + {ConnectionName(s.tables.nextConnection)}
      && (input.DoUnregister? ==> input.connectionId !in t.frontends)
  {
    hide Consistent, Step, Effect, Takes, ConnectionName;
    StepEffect(s, link, input);
    EffectFrontends(s.tables, link, Takes(s, link), input);
  }

  lemma NameStays(c: string, m: nat, n: nat)
    requires IsConnectionName(c, m) && m <= n
    ensures IsConnectionName(c, n)
  {
    var i: nat :| i < m && c == ConnectionName(i);
    assert i < n;
  }
}
