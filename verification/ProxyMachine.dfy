/** The frontend proxy itself: one client's end of a bridge connection. */
module ProxyMachine {
  import opened Wrappers
  import opened JsonRpc
  import opened BridgeState
  import opened ProxyState

  /** Every method is one transition of ProxyState. `taken` tells whether the transport takes the message the
      method sends, and `throws` whether the application's handler throws; both are recorded in `sent`, the
      messages taken, and `calls`, the invocations of each request's handler. */
  class FrontendProxy {
    var view: View
    var pending: map<string, JsonId>
    var calls: map<string, seq<Payload>>
    var nextRequest: nat
    var serverMethods: set<string>
    var sent: seq<FrontendMessage>

    ghost function Abstract(): Proxy
      reads this
    {
      Proxy(view, pending, calls, nextRequest, serverMethods)
    }

    constructor ()
      ensures Abstract() == InitialProxy() && sent == []
    {
      view, pending, calls, nextRequest, serverMethods, sent := Detached, map[], map[], 1, {}, [];
    }

    method Invoke(key: string, reply: Payload)
      modifies this`calls
      ensures Abstract() == Call(old(Abstract()), key, reply)
    {
      calls := calls[key := (if key in calls then calls[key] else []) + [reply]];
    }

    method FailPending(code: int)
      modifies this`pending, this`calls
      ensures Abstract() == ProxyState.FailPending(old(Abstract()), code)
    {
      hide CallsFailed;
      var failed := pending;
      ghost var before := Abstract();
      NoneFailed(before, code);
      pending := map[];
      var remaining := failed.Keys;
      while remaining != {}
        invariant remaining <= failed.Keys
        invariant Abstract() == before.(pending := map[], calls := CallsFailed(before, failed.Keys - remaining, code))
        decreases remaining
      {
        var k :| k in remaining;
        OneMoreFailed(before, failed.Keys - remaining, k, code);
        assert failed.Keys - (remaining - {k}) == failed.Keys - remaining + {k};
        Invoke(k, ErrorResponse(failed[k], code));
        remaining := remaining - {k};
      }
      assert failed.Keys - remaining == failed.Keys;
    }

    method TransportDisconnected()
      modifies this
      ensures Abstract() == ProxyState.TransportDisconnected(old(Abstract()), -32020) && sent == old(sent)
    {
      FailPending(-32020);
      view := Detached;
    }

    method RequestTyped(verb: string, body: string, taken: bool) returns (id: string)
      modifies this
      ensures Abstract() == IssueRequest(old(Abstract()), taken) && id == RequestId(old(Abstract()))
      ensures sent == old(sent) + RequestMessage(old(Abstract()), verb, body, taken)
    {
      hide StringKey, Numbered, RequestPrefix;
      id := Numbered(RequestPrefix(view), nextRequest);
      nextRequest := nextRequest + 1;
      var key := StringKey(id);
      calls := calls[key := []];
      if view.connectionId.None? || !view.ready {
        Invoke(key, ErrorResponse(Str(id), if view.connectionId.Some? then -32002 else -32021));
        return;
      }
      pending := pending[key := Str(id)];
      if taken {
        sent := sent + [AppServerMessage(Some(Request(Str(id), verb, body, true)))];
      } else {
        pending := pending - {key};
        assert pending == old(pending) - {key};
        Invoke(key, ErrorResponse(Str(id), -32020));
      }
    }

    method SendAppServerMessage(message: Payload, taken: bool) returns (accepted: bool)
      modifies this`sent
      ensures accepted <==> view.connectionId.Some? && taken
      ensures sent == old(sent) + if accepted then [AppServerMessage(Some(message))] else []
    {
      accepted := view.connectionId.Some? && taken;
      if accepted {
        sent := sent + [AppServerMessage(Some(message))];
      }
    }

    method Receive(e: Event, throws: bool, taken: bool)
      modifies this
      ensures Abstract() == ProxyState.Receive(old(Abstract()), e)
      ensures sent == old(sent) + ReplyMessage(old(Abstract()), e, throws, taken)
    {
      hide IdKey;
      if !e.Envelope? {
        UpdateBridgeState(e);
        return;
      }
      var p := e.payload;
      var key := Key(p);
      if p.Response? {
        if key.Some? && key.value in pending {
          pending := pending - {key.value};
          Invoke(key.value, p);
        }
      } else if p.Request? {
        if p.verb in serverMethods {
          if throws && key.Some? {
            var _ := SendAppServerMessage(ErrorResponse(p.id, -32603), taken);
          }
        } else if key.Some? {
          var _ := SendAppServerMessage(ErrorResponse(p.id, -32601), taken);
        }
      }
    }

    method UpdateBridgeState(e: Event)
      modifies this
      ensures Abstract() == ProxyState.UpdateBridgeState(old(Abstract()), e) && sent == old(sent)
    {
      match e
      case Opened(c, role, _) =>
        view := view.(connectionId := Some(c), role := Some(role));
      case ControllerIs(controller, _) =>
        view := view.(controller := controller);
        if view.connectionId.Some? {
          view := view.(role := Some(if controller == view.connectionId then Controller else Observer));
        }
      case Provider(phase, generation, _) =>
        if generation < view.generation {
          return;
        }
        if view.generation != 0 && generation > view.generation {
          FailPending(-32002);
        }
        view := view.(generation := generation, ready := phase.Ready?);
        if phase.Disconnected? {
          FailPending(-32002);
        }
      case Diagnostic(_, _, _) =>
      case Envelope(_, _, _, _) =>
    }
  }

  lemma NoneFailed(p: Proxy, code: int)
    ensures CallsFailed(p, p.pending.Keys - p.pending.Keys, code) == p.calls
  {
  }

  lemma OneMoreFailed(p: Proxy, done: set<string>, k: string, code: int)
    requires k in p.pending && k !in done
    ensures Call(p.(calls := CallsFailed(p, done, code)), k, ErrorResponse(p.pending[k], code)).calls ==
      CallsFailed(p, done + {k}, code)
  {
  }
}
