/** The class ClientConnection of packages/codex-frontend/src/ClientConnection.ts. */
module ClientMachine {
  import opened Wrappers
  import opened BridgeState
  import opened ProxyState
  import opened ProxyMachine
  import opened ClientLifecycle

  /** Every method is one transition of ClientLifecycle; `sdk` is the proxy it drives. */
  class ClientConnection {
    const sdk: FrontendProxy
    var endpoint: Option<nat>
    var isOnline: bool
    var isShuttingDown: bool
    var failureReported: bool
    var log: seq<Callback>
    var closes: seq<(nat, string)>

    ghost function Abstract(): Client
      reads this, sdk
    {
      Client(endpoint, isOnline, isShuttingDown, failureReported, sdk.Abstract(), log, closes)
    }

    constructor (sdk: FrontendProxy)
      requires sdk.Abstract() == InitialProxy()
      ensures this.sdk == sdk && Abstract() == InitialClient()
    {
      this.sdk := sdk;
      endpoint, isOnline, isShuttingDown, failureReported, log, closes := None, false, false, false, [], [];
    }

    method Attach(e: nat) returns (attached: bool)
      modifies this
      ensures attached == MayAttach(old(Abstract()), e) && Abstract() == ClientLifecycle.Attach(old(Abstract()), e)
    {
      if isShuttingDown || (endpoint.Some? && endpoint != Some(e)) {
        return false;
      }
      endpoint := Some(e);
      failureReported := false;
      attached := true;
    }

    method Connected(e: nat)
      modifies this
      ensures Abstract() == Connect(old(Abstract()), e)
    {
      if endpoint != Some(e) || isShuttingDown || isOnline {
        return;
      }
      isOnline := true;
      log := log + [OnConnected];
    }

    method Failed(e: nat, reason: string)
      modifies this
      ensures Abstract() == FailTransport(old(Abstract()), e, reason)
    {
      if endpoint != Some(e) {
        return;
      }
      if !failureReported {
        failureReported := true;
        log := log + [OnFailure(reason)];
      }
      closes := closes + [(e, reason)];
    }

    /** `throws` and `accepts` are what a server-request handler and the transport do meanwhile. */
    method ReceiveMessage(e: nat, message: Option<Event>, throws: bool, accepts: bool)
      modifies this, sdk
      ensures Abstract() == ClientLifecycle.ReceiveMessage(old(Abstract()), e, message)
      ensures sdk.sent == old(sdk.sent) +
                if Dispatches(old(Abstract()), e) && message.Some?
                then ReplyMessage(old(sdk.Abstract()), message.value, throws, accepts) else []
    {
      hide ReplyMessage, ProxyState.Receive;
      if endpoint != Some(e) || !isOnline || isShuttingDown {
        return;
      }
      if message.None? {
        Failed(e, INVALID);
      } else {
        sdk.Receive(message.value, throws, accepts);
      }
    }

    method Detach(e: nat)
      modifies this, sdk
      ensures Abstract() == ClientLifecycle.Detach(old(Abstract()), e) && sdk.sent == old(sdk.sent)
    {
      hide ProxyState.TransportDisconnected;
      if endpoint != Some(e) {
        return;
      }
      endpoint := None;
      var wasOnline := isOnline;
      isOnline := false;
      failureReported := false;
      sdk.TransportDisconnected();
      log := log + [OnDetached];
      if wasOnline {
        log := log + [OnDisconnected];
      }
    }

    method Disconnect(reason: string)
      modifies this
      ensures Abstract() == ClientLifecycle.Disconnect(old(Abstract()), reason)
    {
      if !isShuttingDown && endpoint.Some? {
        closes := closes + [(endpoint.value, reason)];
      }
    }

    method Shutdown()
      modifies this, sdk
      ensures Abstract() == ClientLifecycle.Shutdown(old(Abstract())) && sdk.sent == old(sdk.sent)
    {
      hide ProxyState.TransportDisconnected;
      if isShuttingDown {
        return;
      }
      isShuttingDown := true;
      if endpoint.Some? {
        closes := closes + [(endpoint.value, SHUTDOWN)];
      } else {
        sdk.TransportDisconnected();
      }
    }

    /** A request of the application goes out only while online. */
    method Request(verb: string, body: string, accepts: bool) returns (id: string)
      modifies this, sdk
      ensures Abstract() == Act(old(Abstract()), RequestAction(accepts))
      ensures sdk.sent ==
        old(sdk.sent) + RequestMessage(old(sdk.Abstract()), verb, body, Sends(old(Abstract()), accepts))
    {
      hide IssueRequest, RequestMessage;
      id := sdk.RequestTyped(verb, body, isOnline && !isShuttingDown && endpoint.Some? && accepts);
    }
  }
}
