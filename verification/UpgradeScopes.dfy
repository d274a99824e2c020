/** The chain of active WebSocket upgrade scopes of one thread.
    Models src/ai/openai/codex/frontend/WebSocketUpgrade.cpp. */
module UpgradeScopes {
  import opened Wrappers

  /** The connections are told apart by a number; a context without a connection asks for None. */
  type Connection = nat

  datatype SubProtocol = SubProtocol(connection: Connection, maximumFrameBytes: nat)

  /** One ScopedWebSocketUpgrade. `serial` numbers the scopes in the order of their construction. */
  class Scope {
    const connection: Connection
    const maximumFrameBytes: nat
    ghost const serial: nat
    var previous: Scope?
    var consumed: bool

    constructor (connection: Connection, maximumFrameBytes: nat, previous: Scope?, ghost serial: nat)
      ensures this.connection == connection && this.maximumFrameBytes == maximumFrameBytes && this.serial == serial
      ensures this.previous == previous && !consumed
    {
      this.connection, this.maximumFrameBytes, this.serial := connection, maximumFrameBytes, serial;
      this.previous, this.consumed := previous, false;
    }

    method Consume(requested: Option<Connection>) returns (r: Option<SubProtocol>)
      modifies this`consumed
      ensures r == if !old(consumed) && requested == Some(connection)
                   then Some(SubProtocol(connection, maximumFrameBytes)) else None
      ensures consumed == (old(consumed) || r.Some?)
    {
      if consumed || requested.None? || requested.value != connection {
        return None;
      }
      consumed := true;
      r := Some(SubProtocol(connection, maximumFrameBytes));
    }
  }

  function Without<T(==)>(s: seq<T>, x: T): seq<T> {
    if s == [] then [] else (if s[0] == x then [] else [s[0]]) + Without(s[1..], x)
  }

  lemma {:induction false} WithoutAbsent<T>(s: seq<T>, x: T)
    requires forall i :: 0 <= i < |s| ==> s[i] != x
    ensures Without(s, x) == s
  {
    if s != [] {
      WithoutAbsent(s[1..], x);
    }
  }

  /** Taking an element out of a list without duplicates closes the gap and moves nothing else. */
  lemma {:induction false} WithoutAt<T>(s: seq<T>, n: nat)
    requires n < |s| && forall i :: 0 <= i < |s| && i != n ==> s[i] != s[n]
    ensures Without(s, s[n]) == s[..n] + s[n + 1..]
  {
    var rest := s[1..];
    if n == 0 {
      WithoutAbsent(rest, s[0]);
    } else {
      WithoutAt(rest, n - 1);
      assert s[..n] + s[n + 1..] == [s[0]] + (rest[..n - 1] + rest[n..]);
    }
  }

  ghost predicate NewestFirst(scopes: seq<Scope>) {
    forall i, j :: 0 <= i < j < |scopes| ==> scopes[i].serial > scopes[j].serial
  }

  ghost predicate Numbered(scopes: seq<Scope>, created: nat) {
    forall i :: 0 <= i < |scopes| ==> scopes[i].serial < created
  }

  lemma GapKeepsOrder(scopes: seq<Scope>, n: nat, created: nat)
    requires n < |scopes| && NewestFirst(scopes) && Numbered(scopes, created)
    ensures NewestFirst(scopes[..n] + scopes[n + 1..]) && Numbered(scopes[..n] + scopes[n + 1..], created)
    ensures forall i :: 0 <= i < |scopes| && i != n ==> scopes[i] != scopes[n]
  {
  }

  /** The thread-local variable activeUpgrade, with everything reachable from it. */
  class Registry {
    var active: Scope?
    ghost var chain: seq<Scope>
    ghost var created: nat
    ghost var issued: seq<Scope>

    /** The links from `active` list exactly the scopes of `chain`, newest first, and end; every scope that has been
        used was used once. */
    ghost predicate Valid()
      reads this, chain, issued
    {
      Linked() && Ordered() && UsedOnce()
    }

    ghost predicate Linked()
      reads this, chain
    {
      && active == (if chain == [] then null else chain[0])
      && forall i {:trigger chain[i].previous} :: 0 <= i < |chain| ==>
        chain[i].previous == if i + 1 < |chain| then chain[i + 1] else null
    }

    ghost predicate Ordered()
      reads this
    {
      NewestFirst(chain) && Numbered(chain, created) && Numbered(issued, created)
    }

    ghost predicate UsedOnce()
      reads this, chain, issued
    {
      && (forall i, j :: 0 <= i < j < |issued| ==> issued[i] != issued[j])
      && (forall i :: 0 <= i < |issued| ==> issued[i].consumed)
      && (forall i :: 0 <= i < |chain| && chain[i].consumed ==> chain[i] in issued)
    }

    constructor ()
      ensures Valid() && chain == [] && issued == []
    {
      active, chain, created, issued := null, [], 0, [];
    }

    /** The constructor of a scope: a frame limit of zero throws, and leaves the chain as it was. */
    method Open(connection: Connection, maximumFrameBytes: nat) returns (scope: Scope?)
      requires Valid()
      modifies this
      ensures Valid() && issued == old(issued)
      ensures scope == null <==> maximumFrameBytes == 0
      ensures scope == null ==> chain == old(chain)
      ensures scope != null ==>
        && fresh(scope) && chain == [scope] + old(chain)
        && scope.connection == connection && scope.maximumFrameBytes == maximumFrameBytes && !scope.consumed
    {
      var constructed := new Scope(connection, maximumFrameBytes, active, created);
      if maximumFrameBytes == 0 {
        return null;
      }
      active := constructed;
      chain := [constructed] + chain;
      created := created + 1;
      scope := constructed;
    }

    /** Dropping scopes from the chain changes no use. */
    twostate lemma UseKept()
      requires old(UsedOnce()) && issued == old(issued)
      requires forall i :: 0 <= i < |chain| ==> chain[i] in old(chain)
      requires forall i :: 0 <= i < |old(chain)| ==> old(chain)[i].consumed == old(chain[i].consumed)
      requires forall i :: 0 <= i < |issued| ==> issued[i].consumed == old(issued[i].consumed)
      ensures UsedOnce()
    {
    }

    /** The first use of a scope of the chain joins the record of uses. */
    twostate lemma UseAdded(scope: Scope)
      requires old(UsedOnce()) && chain == old(chain) && scope in chain && issued == old(issued) + [scope]
      requires !old(scope.consumed) && scope.consumed
      requires forall i :: 0 <= i < |chain| && chain[i] != scope ==> chain[i].consumed == old(chain[i].consumed)
      requires forall i :: 0 <= i < |old(issued)| && issued[i] != scope ==>
        issued[i].consumed == old(issued[i].consumed)
      ensures UsedOnce()
    {
      assert forall i :: 0 <= i < |old(issued)| ==> issued[i] == old(issued)[i];
    }

    /** `current->previous_ = previous_`: the scope behind `current` drops out of the chain. */
    method Unlink(current: Scope, scope: Scope, ghost n: nat)
      requires Valid() && n + 1 < |chain| && chain[n] == current && chain[n + 1] == scope
      modifies this`chain, current`previous
      ensures Valid() && chain == old(chain)[..n + 1] + old(chain)[n + 2..]
    {
      hide UsedOnce, NewestFirst, Numbered;
      ghost var links := chain;
      GapKeepsOrder(links, n, created);
      GapKeepsOrder(links, n + 1, created);
      current.previous := scope.previous;
      chain := links[..n + 1] + links[n + 2..];
      assert forall i :: 0 <= i <= n ==> chain[i] == links[i];
      assert forall i :: n < i < |chain| ==> chain[i] == links[i + 1];
      UseKept();
    }

    /** The destructor of a scope, at any place of the chain: it alone is taken out. */
    method Close(scope: Scope)
      requires Valid()
      modifies this`active, this`chain, chain`previous
      ensures Valid() && issued == old(issued)
      ensures chain == Without(old(chain), scope)
    {
      hide Without;
      if active == scope {
        WithoutAt(chain, 0);
        active := scope.previous;
        chain := chain[1..];
        assert forall i :: 0 <= i < |chain| ==> chain[i] == old(chain)[i + 1];
        assert Linked();
        return;
      }
      ghost var links := chain;
      ghost var n := 0;
      var current := active;
      while current != null && current.previous != scope
        invariant n <= |links| && (current == if n == |links| then null else links[n])
        invariant forall i :: 0 <= i <= n && i < |links| ==> links[i] != scope
        decreases |links| - n
      {
        assert n + 1 < |links| ==> links[n + 1] == current.previous;
        current := current.previous;
        n := n + 1;
      }
      if current == null {
        WithoutAbsent(links, scope);
      } else {
        assert n + 1 < |links| && links[n + 1] == scope;
        WithoutAt(links, n + 1);
        Unlink(current, scope, n);
      }
    }

    /** The static factory: the newest scope may yield one subprotocol, for its own connection only. */
    method Create(requested: Option<Connection>) returns (r: Option<SubProtocol>)
      requires Valid()
      modifies this`issued, chain
      ensures Valid() && chain == old(chain)
      ensures r.Some? <==> chain != [] && old(chain[0].consumed) == false && requested == Some(chain[0].connection)
      ensures r.Some? ==> r.value == SubProtocol(chain[0].connection, chain[0].maximumFrameBytes)
      ensures issued == old(issued) + if r.Some? then [chain[0]] else []
      ensures forall i :: 0 <= i < |chain| ==>
        chain[i].consumed == (old(chain[i].consumed) || (i == 0 && r.Some?))
    {
      hide NewestFirst, UsedOnce;
      if active == null {
        return None;
      }
      ghost var newest := active;
      GapKeepsOrder(chain, 0, created);
      r := active.Consume(requested);
      if r.Some? {
        issued := issued + [active];
        UseAdded(newest);
      } else {
        UseKept();
      }
    }
  }
}
