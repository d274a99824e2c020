# A verified model of the routing and streaming stack

This Dafny project models the stateful core of the repository and proves what its parts promise, alone and together.
`dafny verify dfyconfig.toml` checks all of it.

**Bridge and proxy.** One app-server is shared by many frontends. The bridge (`src/ai/openai/codex/bridge/CodexBridge.cpp`)
rewrites request ids, keeps four ownership tables, elects one controller, counts provider generations and fails
outstanding work when either side leaves. The frontend proxy (`src/ai/openai/codex/frontend/CodexBridge.cpp`, and the
same machine in `packages/codex-frontend/src/CodexBridgeClient.ts`) correlates responses with handlers and replicates
the bridge's state.

| file | contents |
|---|---|
| BridgeState.dfy, ProxyState.dfy | the transitions: what each public operation does to the whole state, and everything sent |
| BridgeMachine.dfy, ProxyMachine.dfy | the classes `CodexBridge` and `FrontendProxy`; each method is proved to be one transition |
| BridgeEffects.dfy, BridgeInvariant.dfy | what each step does to the tables, and their consistency, kept by every step |
| Verdicts.dfy | what each kind of input brings about, told by the fields alone: who is obeyed, who is refused with which code, who hears of it |
| Routing.dfy, BridgeRuns.dfy, Handshake.dfy | authority, control, unique ids, at most one answer, the provider handshake - over whole runs |
| Answers.dfy, FrontendRequests.dfy, ServerRequests.dfy, Replies.dfy | the responses each connection is sent, the accounts of the frontends' and of the server's requests, and who may answer the app-server |
| Sequences.dfy | the numbers on the events increase strictly in every log |
| Replica.dfy, Coverage.dfy, Composition.dfy, Provenance.dfy, Generations.dfy | the composed system: proxy, two queues, bridge, and an arbitrary rest of the world; no orphans, whose answer a request gets, and what a loss of the provider ends |
| JsonRpc.dfy, Decimal.dfy | classified JSON-RPC 2.0 messages (sections 4 and 5), and the keys of their ids |

**Anthropic codec** (`src/ai/providers/anthropic/AnthropicProvider.cpp`). JsonValue.dfy is the part of `nlohmann::json`
it relies on. ToolNames.dfy (aliases), Transcript.dfy (pairing and merging), PrepareRequest.dfy (the loops and the
body) and ReadBack.dfy (a decoder that recovers the transcript) model `prepareRequest`; StreamState.dfy (transitions),
StreamMachine.dfy (the class), StreamLanguage.dfy and StreamCancel.dfy (safety over all inputs and all receivers),
StreamDelivery.dfy (completeness for well-formed responses) and StreamVerdicts.dfy (every event and the whole response
told by their members alone) model `MessageStream`.

**Byte framers.** JsonLines.dfy holds the JSONL framer and its encoder, Sse.dfy the server-sent-event decoder, a
declarative interpretation of event streams (sections 9.2.5 and 9.2.6 of the WHATWG HTML Living Standard), and the
printer of `ResponsesService`; SseFields.dfy says what printed fields mean, with every line end.

**Small cores.** UpgradeScopes.dfy (the chain of upgrade scopes), ClientLifecycle.dfy and ClientMachine.dfy (the
connection lifecycle), Utf8.dfy and WebSocketSizes.dfy (close reasons and frame sizes).

How to read the parts that change state: a transition function states the whole new state, including every message sent
and every handler run; the method of the class is written step by step like the original and proved to make exactly that
transition; the properties are proved of the transitions and of every run of them. The files named after verdicts state
the same transitions a second time, from outside: by the members of the input, the fields before, and what was sent.

What the environment decides is a parameter: whether a transport is connected and takes a message (`Link`, `taken`,
`Endpoints`), whether a handler throws (`throws`), in which order a hash table is iterated (`order`), what `Json::parse`
and `dump` return, and how a receiver reacts to each event. Where a serializer's good behaviour matters - a non-empty
dump without raw line ends that parses back - it is a hypothesis of the lemma.

Three properties one might expect do not hold as they stand; each comes with the condition under which it does, and an
input that shows the condition is needed:

- the result a request's handler gets is the answer to that very request as long as the application posts no raw message
  under the request's id (`Provenance.ResultIsOwn`); on any idle connection, a raw message posted under the id of the
  next request makes that request's handler receive the raw message's outcome (`Provenance.PostedIdSteals`,
  `Provenance.IdleReached`);
- a finished thinking block is accepted back as a continuation only if it ever had a `thinking` member
  (`StreamDelivery.ThinkingReturns`, exactly; `StreamDelivery.UnspokenThinking` is a whole run
  whose reasoning is then refused);
- a long close reason is cut to its longest fitting prefix only if it does not begin with U+FEFF, which the decoder drops
  (`WebSocketSizes.CloseReasonIsLongest`, with the reason of `WebSocketSizes.MarkIsLost`).

Two facts the code does not state follow as well: the second size test of `SseDecoder::line` can never fail
(`Sse.ValueShorter`), and the flag `ordinaryUserContent` of `prepareRequest` never decides anything that the pending set
does not already decide (`PrepareRequest.PrepareBlock`).

## Model

| member | source | states |
|---|---|---|
| `Composition.NoRequestOrphaned` | src/ai/openai/codex/frontend/CodexBridge.cpp:190-232 | Over every run of proxy, two queues and bridge, with everything else arbitrary: each Issue of the run stays on record under a key of its own, pending with no handler call or settled by exactly one, which is a response to this very request; a pending one on a live connection is in the queue up, outstanding in the bridge, or answered in the queue down; offline nothing is pending |
| `Composition.QuiescentReplica` | src/ai/openai/codex/frontend/CodexBridge.cpp:287-349 | When a live connection has nothing in flight, the proxy holds exactly the bridge's controller, role, generation and readiness, and all it waits for is outstanding at the app-server |
| `Composition.RunSound` | src/ai/openai/codex/frontend/CodexBridge.cpp:52-68 | The invariant of the composed system holds after every feasible sequence of acts |
| `Composition.NextSound` | src/ai/openai/codex/frontend/CodexBridge.cpp:122-150 | Every single act - attach, request, delivery either way, any bridge step elsewhere, detach - keeps that invariant |
| `Composition.ReceiveOnce` | src/ai/openai/codex/frontend/CodexBridge.cpp:52-107 | No message, in particular none that changes the provider generation, breaks the rule that a pending request has no handler call and a settled one exactly one, a response to this very request |
| `Composition.NextRecords` | src/ai/openai/codex/frontend/CodexBridge.cpp:131-150 | No act forgets a request or takes back a handler call, and exactly an Issue adds a request, under a new key |
| `Composition.RunRecords` | src/ai/openai/codex/frontend/CodexBridge.cpp:190-232 | The requests on record after a run are exactly those its Issues made, one for each |
| `Generations.ProviderLoss` | src/ai/openai/codex/frontend/CodexBridge.cpp:337-348 | A provider event that says the provider is gone, or belongs to a newer generation than the one known, leaves nothing pending: each handler that was pending runs once, with error -32002 under its own id, and no other handler runs |
| `Generations.OthersKeepPending` | src/ai/openai/codex/frontend/CodexBridge.cpp:333-348 | Every other event that is no response leaves pending and all handlers alone; a provider event of an older generation leaves everything alone |
| `Generations.ResponseHeard` | src/ai/openai/codex/frontend/CodexBridge.cpp:52-68 | A response to a pending request settles exactly it and is what its handler gets; any other response changes nothing |
| `Generations.IssueVerdict` | src/ai/openai/codex/frontend/CodexBridge.cpp:190-232 | A request is pending and sent exactly when the proxy knows who it is, the provider is ready and the transport takes it; otherwise its handler runs at once, with -32021, -32002 or -32020 in this order |
| `Generations.TransportLoss` | src/ai/openai/codex/frontend/CodexBridge.cpp:122-150 | Losing the transport fails everything pending once with -32020 and forgets all the bridge had told |
| `Generations.ReplyVerdict` | src/ai/openai/codex/frontend/CodexBridge.cpp:70-95 | A server request without handler draws -32601 and one whose handler throws -32603, under its id; nothing else draws a reply |
| `Generations.PendingOfThisGeneration` | src/ai/openai/codex/frontend/CodexBridge.cpp:328-348 | Over every run of the composed system, whatever is pending was issued to the provider generation the proxy knows now, while that was ready |
| `Provenance.ResultsAreAnswers` | src/ai/openai/codex/frontend/CodexBridge.cpp:79-107 | Over every run, each reply a handler gets is an error or the outcome of the app-server's response to the upstream id under which the bridge had forwarded a message with this request's id, which the proxy itself had put into the queue before |
| `Provenance.ResultIsOwn` | src/ai/openai/codex/frontend/CodexBridge.cpp:190-232 | Such a result answers the very message that this Issue sent, as long as the application posts no raw message under the request's id |
| `Provenance.PostedIdSteals` | src/ai/openai/codex/frontend/CodexBridge.cpp:109-112 | Why that condition is needed: on any idle connection a raw message posted under the id of the next request takes over that request's answer |
| `Provenance.IdleReached` | src/ai/openai/codex/frontend/CodexBridge.cpp:109-112 | Such a connection is reached from the initial state: the handshake completes, a frontend attaches, its greeting arrives |
| `Replica.StepExact` | src/ai/openai/codex/bridge/CodexBridge.cpp:28-69 | Every bridge step keeps it true that folding the events sent to a registered frontend yields exactly the bridge's state as that frontend should see it, and that no provider event in it is ever stale |
| `Replica.RegisterExact` | src/ai/openai/codex/bridge/CodexBridge.cpp:38-45 | The greeting alone already tells a new frontend everything, and the others the new controller |
| `Replica.DisconnectedExact` | src/ai/openai/codex/bridge/CodexBridge.cpp:241-258 | Failing requests in between does not disturb the replicas of a disconnect |
| `Coverage.StepCovers` | src/ai/openai/codex/bridge/CodexBridge.cpp:116-129 | A request a frontend waits for is, after any step, still outstanding, answered to it since, or its frontend is gone |
| `Coverage.RequestAccounted` | src/ai/openai/codex/bridge/CodexBridge.cpp:378-402 | A request with an id that reaches the bridge is outstanding afterwards or answered at once, whatever the reason for refusing it |
| `BridgeInvariant.StepInv` | src/ai/openai/codex/bridge/CodexBridge.cpp:101-129 | Every step keeps the tables consistent: roles agree with the controller, the two request tables are inverse and name registered frontends only, no id is awaited both locally and for a frontend, owners of server requests are registered |
| `Verdicts.RegistrationVerdict` | src/ai/openai/codex/bridge/CodexBridge.cpp:28-47 | Exactly when a newcomer is refused or becomes controller, the three events of its greeting in order, and the one the others hear |
| `Verdicts.DepartureVerdict` | src/ai/openai/codex/bridge/CodexBridge.cpp:49-69 | Who leaves takes along exactly its requests, the server requests it held, and control if it had it, which the others then hear |
| `Verdicts.ConnectedVerdict` | src/ai/openai/codex/bridge/CodexBridge.cpp:226-239 | The app-server coming up starts the next generation, not ready, with initialize sent and two events to everybody |
| `Verdicts.DisconnectedVerdict` | src/ai/openai/codex/bridge/CodexBridge.cpp:241-258 | Its going forgets all that is outstanding; each frontend hears the errors first, then that the provider is gone |
| `Verdicts.LocalRequestVerdict` | src/ai/openai/codex/bridge/CodexBridge.cpp:609-637 | A local request goes up under an unused id and is awaited exactly if taken |
| `Verdicts.RawVerdict` | src/ai/openai/codex/bridge/CodexBridge.cpp:273-308 | Exactly which raw messages of the application go up, and what they file or settle |
| `Verdicts.HandlerVerdict` | src/ai/openai/codex/bridge/CodexBridge.cpp:658-664 | A method is served locally exactly while a handler is registered for it |
| `BridgeEffects.StepEffect` | src/ai/openai/codex/bridge/CodexBridge.cpp:28-69 | The tables after any step are a function of the tables before it, the message and whether the transport takes one; events and logs never feed back into them |
| `BridgeInvariant.DropRequestsInverse` | src/ai/openai/codex/bridge/CodexBridge.cpp:56-61 | Erasing the reverse table by prefix removes exactly the keys of the owners erased by connection |
| `BridgeInvariant.FrontendKeyPrefix` | src/ai/openai/codex/bridge/CodexBridge.cpp:59-61 | A key of one connection never begins with another connection's name and a line feed |
| `BridgeInvariant.FirstFreeIsFirst` | src/ai/openai/codex/bridge/CodexBridge.cpp:731-740 | The generated number is free, and every smaller one from the counter on was taken |
| `JsonRpc.IdKeyInjective` | src/ai/openai/codex/bridge/CodexBridge.cpp:99-100 | Two string or integer ids with the same key are the same id |
| `Decimal.Denotes` | src/ai/openai/codex/bridge/CodexBridge.cpp:731-740 | A generated number is written in decimal, without leading zeros |
| `Routing.ForwardAuthority` | src/ai/openai/codex/bridge/CodexBridge.cpp:363-376 | Whatever a step forwards for a frontend, that frontend sent in this step, as controller or as a whitelisted read; the session is ready and the message is no part of the handshake |
| `Verdicts.ForwardedExactly` | src/ai/openai/codex/bridge/CodexBridge.cpp:363-408 | The converse as well: a well-formed request or notification goes up if and only if it is no part of the handshake, its sender is the controller or may read, the session is ready, and the id is free |
| `Verdicts.CallVerdict` | src/ai/openai/codex/bridge/CodexBridge.cpp:362-408 | Everything that becomes of it: -32003, -32001, -32002 or -32600 in this order with nothing changed, or exactly one message upstream with its verb and body, and -32005 if that is not taken |
| `Verdicts.InvalidVerdict` | src/ai/openai/codex/bridge/CodexBridge.cpp:337-341 | A payload that is no strict JSON-RPC message draws -32600 and changes nothing |
| `Verdicts.ResponseVerdict` | src/ai/openai/codex/bridge/CodexBridge.cpp:343-361 | A response goes up exactly if its sender holds the request, and ends the hold even when not taken; otherwise it draws -32004 |
| `Verdicts.OtherMessageVerdict` | src/ai/openai/codex/bridge/CodexBridge.cpp:71-88 | Unknown connections are ignored; a missing payload or unknown kind draws one diagnostic |
| `Verdicts.CommandVerdict` | src/ai/openai/codex/bridge/CodexBridge.cpp:410-452 | Exactly when claim, release and transfer succeed, who then has which role and hears of it, and the diagnostic of every refusal |
| `Routing.ControlPasses` | src/ai/openai/codex/bridge/CodexBridge.cpp:410-452 | Control changes hands only to a newcomer or a claim while nobody holds it, or by the holder releasing it, transferring it to a registered frontend, or leaving; nothing else in any step moves it |
| `Routing.FrontendStepSends` | src/ai/openai/codex/bridge/CodexBridge.cpp:343-408 | A frontend's message causes at most one message upstream, the one its checks allow, under a generated id if it is a request |
| `Routing.ResponseReachesOwner` | src/ai/openai/codex/bridge/CodexBridge.cpp:116-129 | A response reaches only the frontend whose request is filed under its id, with the original id restored, and settles the entry; any other response reaches no frontend |
| `Verdicts.UnmatchedVerdict` | src/ai/openai/codex/bridge/CodexBridge.cpp:131-136 | A response nobody waits for and a message that is none change nothing; everybody hears one diagnostic |
| `Verdicts.LocalResponseVerdict` | src/ai/openai/codex/bridge/CodexBridge.cpp:101-115 | The answer to a local request settles it; a success for initialize also sends initialized and, once taken, makes the session ready, which everybody hears |
| `Routing.StepIdsUnique` | src/ai/openai/codex/bridge/CodexBridge.cpp:731-740 | No upstream id of a frontend request is ever used twice, across generations and connections |
| `Routing.IssuedNeverReturns` | src/ai/openai/codex/bridge/CodexBridge.cpp:378-402 | An id that was issued and is no longer awaited is never awaited again |
| `Routing.ForwardFiles` | src/ai/openai/codex/bridge/CodexBridge.cpp:389-402 | A forwarded request is filed in both tables under its fresh id with its sender and original id if the transport takes it; otherwise the tables stay, but for the number used up |
| `BridgeRuns.RunSound` | src/ai/openai/codex/bridge/CodexBridge.cpp:28-69 | All the step invariants hold in every reachable state |
| `Sequences.SequencesIncrease` | src/ai/openai/codex/bridge/CodexBridge.cpp:719-721 | Over every run each connection gets its events with strictly increasing numbers |
| `BridgeRuns.AnsweredAtMostOnce` | src/ai/openai/codex/bridge/CodexBridge.cpp:116-129 | Over a whole run no forwarded request is answered twice, whether by the app-server's response or by the error on losing the app-server |
| `BridgeRuns.AwaitedWasForwarded` | src/ai/openai/codex/bridge/CodexBridge.cpp:389-395 | For every awaited request some earlier step received it from its owner and sent it upstream under this very id, where it was taken, and the answer will carry the original id |
| `Answers.StepSays` | src/ai/openai/codex/bridge/CodexBridge.cpp:330-408 | The responses each step adds to a connection's log are exactly these: the error its own message draws, the copy of the app-server's response to its request, the -32002 errors for its requests when the app-server is lost |
| `FrontendRequests.Conservation` | src/ai/openai/codex/bridge/CodexBridge.cpp:378-403 | Over every run, for every connection and id: answers in its log, the request still outstanding and those dropped when it left equal the requests received plus the misuses of the id, which are refused responses and invalid payloads |
| `FrontendRequests.StepBalanced` | src/ai/openai/codex/bridge/CodexBridge.cpp:687-702 | Every step keeps that account |
| `FrontendRequests.AnsweredAtMostOnceEach` | src/ai/openai/codex/bridge/CodexBridge.cpp:116-129 | Between any two points of a run a connection gets at most one answer under an id for the request outstanding at first and one for each request or misuse of the id since |
| `FrontendRequests.ForwardedAnsweredOnce` | src/ai/openai/codex/bridge/CodexBridge.cpp:116-129 | While the id is not used again, an outstanding request gets no answer until it is settled, then exactly one unless its connection has left |
| `Handshake.ForwardedAfterHandshake` | src/apps/codex-bridge/ProviderApplication.cpp:374-397 | Over every run, a frontend's request or notification goes upstream only from the controller or as a whitelisted read, and only after the handshake of the current provider generation completed |
| `Handshake.ReadyMeansHandshaken` | src/apps/codex-bridge/ProviderApplication.cpp:383-396 | The session is ready only if initialize was answered successfully and initialized was taken, both in this generation and since the transport last changed |
| `Handshake.StepReady` | src/ai/openai/codex/bridge/CodexBridge.cpp:260-267 | Readiness is gained only in the step that completes the handshake, and lost only with the transport |
| `ServerRequests.Conservation` | src/ai/openai/codex/bridge/CodexBridge.cpp:138-197 | Over every run and for every id: server requests received equal those replied to, held by a frontend, resolved elsewhere and lost with the app-server |
| `ServerRequests.StepBalanced` | src/ai/openai/codex/bridge/CodexBridge.cpp:343-361 | Every step keeps that account |
| `ServerRequests.FailedExactlyOnce` | src/ai/openai/codex/bridge/CodexBridge.cpp:674-685 | Exactly one -32011 reply is attempted for each server request of a leaving frontend, with its own id |
| `ServerRequests.HeldByRecipient` | src/ai/openai/codex/bridge/CodexBridge.cpp:348-353 | A server request held by a frontend stays its own, whoever holds control, until it answers, leaves, or the request is resolved or lost |
| `ServerRequests.HeldThroughout` | src/ai/openai/codex/bridge/CodexBridge.cpp:168-174 | Over a run that hold lasts through every change of control |
| `ServerRequests.HeldWasDelivered` | src/ai/openai/codex/bridge/CodexBridge.cpp:168-174 | Over every run, whoever holds a server request is the connection that one earlier step delivered exactly one copy of it to, and nothing to anybody else, and it has held the request ever since |
| `ServerRequests.RoutedIsDelivered` | src/ai/openai/codex/bridge/CodexBridge.cpp:168-174 | Routing a server request to the controller files it under the controller and adds exactly one envelope, the request itself, to the controller's log and nothing to any other |
| `ServerRequests.StepHolds` | src/ai/openai/codex/bridge/CodexBridge.cpp:138-183 | A frontend comes to hold a server request only in a step that routes it there |
| `ServerRequests.NotificationReachesAll` | src/ai/openai/codex/bridge/CodexBridge.cpp:185-221 | A notification adds exactly one envelope with it to every registered frontend's log and nothing to any other |
| `ServerRequests.OnlyHolderAnswers` | src/ai/openai/codex/bridge/CodexBridge.cpp:348-360 | A response sent upstream for a frontend answers a server request that this very frontend holds, and ends the hold |
| `Verdicts.ServerRequestVerdict` | src/ai/openai/codex/bridge/CodexBridge.cpp:138-183 | What becomes of every server request with an id: -32600 if the id is taken, the local handler or -32603 if it throws, delivery to the controller, else -32010; each error once, in the name given, and nothing otherwise |
| `Verdicts.NotificationVerdict` | src/ai/openai/codex/bridge/CodexBridge.cpp:185-197 | A resolution releases exactly the request it names; no notification changes anything else |
| `Replies.EveryAnswerJustified` | src/ai/openai/codex/bridge/CodexBridge.cpp:138-183 | Over every run, each message that went up was sent by a step with grounds for it: what the bridge sends in its own name is an error response, and every response comes from the holder, or is the error the bridge owes |
| `Replies.ResultsComeFromHolders` | src/ai/openai/codex/bridge/CodexBridge.cpp:343-361 | Over every run, a result goes upstream only for the frontend that held the request at that moment, or for the application that did |
| `BridgeMachine.CodexBridge.RegisterFrontend` | src/ai/openai/codex/bridge/CodexBridge.cpp:28-47 | Refuses beyond the maximum, otherwise names, enrolls and greets the frontend: the whole new state is the transition Register |
| `BridgeMachine.CodexBridge.UnregisterFrontend` | src/ai/openai/codex/bridge/CodexBridge.cpp:49-69 | The whole new state is the transition Unregister: replies for its server requests, both tables cleared of it, control released |
| `BridgeMachine.CodexBridge.DropFrontendRequests` | src/ai/openai/codex/bridge/CodexBridge.cpp:56-61 | Both erasing loops together leave exactly the entries of other connections |
| `BridgeMachine.CodexBridge.FailFrontendServerRequests` | src/ai/openai/codex/bridge/CodexBridge.cpp:674-685 | The snapshot loop replies to and strikes every server request of the connection, in the table's order |
| `BridgeMachine.CodexBridge.ReceiveFromFrontend` | src/ai/openai/codex/bridge/CodexBridge.cpp:71-88 | Dispatch by kind; unknown connections are ignored, malformed messages rejected |
| `BridgeMachine.CodexBridge.HandleAppServerMessage` | src/ai/openai/codex/bridge/CodexBridge.cpp:330-408 | All branches of the envelope: each refusal with its code, in the original's order, or forwarding |
| `BridgeMachine.CodexBridge.HandleServerResponse` | src/ai/openai/codex/bridge/CodexBridge.cpp:343-361 | Only the owner's response goes up; the owner entry is gone afterwards whether or not the transport took it |
| `BridgeMachine.CodexBridge.MayForward` | src/ai/openai/codex/bridge/CodexBridge.cpp:454-467 | The controller may send anything, an observer only whitelisted requests and only if allowed; `Verdicts.CallVerdict` says what follows |
| `BridgeMachine.CodexBridge.ForwardRequest` | src/ai/openai/codex/bridge/CodexBridge.cpp:378-403 | Files, sends, and undoes the filing exactly when the transport refuses |
| `BridgeMachine.CodexBridge.NextFrontendRequestId` | src/ai/openai/codex/bridge/CodexBridge.cpp:731-740 | The retry loop ends, at the first free number, and advances the counter behind it |
| `BridgeMachine.CodexBridge.NextLocalRequestId` | src/ai/openai/codex/bridge/CodexBridge.cpp:723-729 | The same for local ids |
| `BridgeMachine.CodexBridge.HandleControllerCommand` | src/ai/openai/codex/bridge/CodexBridge.cpp:410-452 | Claim, release and transfer with every refusal |
| `BridgeMachine.CodexBridge.SetController` | src/ai/openai/codex/bridge/CodexBridge.cpp:550-562 | Demotes the previous controller, promotes the new one, announces it |
| `BridgeMachine.CodexBridge.ReceiveFromAppServer` | src/ai/openai/codex/bridge/CodexBridge.cpp:90-224 | Dispatch of responses, requests and notifications |
| `BridgeMachine.CodexBridge.RouteResponse` | src/ai/openai/codex/bridge/CodexBridge.cpp:101-136 | Local handler first, then the owning frontend, else a diagnostic |
| `BridgeMachine.CodexBridge.CompleteHandshake` | src/apps/codex-bridge/ProviderApplication.cpp:383-396 | A successful initialize sends initialized and, if that was taken, declares the session ready |
| `BridgeMachine.CodexBridge.SetAppServerReady` | src/ai/openai/codex/bridge/CodexBridge.cpp:260-267 | Ready is announced once, and only over a connected transport |
| `BridgeMachine.CodexBridge.RouteServerRequest` | src/ai/openai/codex/bridge/CodexBridge.cpp:138-183 | The new state is the transition RouteServerRequest, whose four cases `Verdicts.ServerRequestVerdict` states |
| `BridgeMachine.CodexBridge.RouteNotification` | src/ai/openai/codex/bridge/CodexBridge.cpp:185-221 | The whole new state is the transition RouteNotification: a resolution releases its request, then the loop delivers in the order of the table |
| `BridgeMachine.CodexBridge.RequestTyped` | src/ai/openai/codex/bridge/CodexBridge.cpp:609-637 | Files a local request and removes it again if the transport refuses |
| `BridgeMachine.CodexBridge.SendRawJson` | src/ai/openai/codex/bridge/CodexBridge.cpp:273-308 | Requests are filed without a handler, responses need a locally owned request |
| `BridgeMachine.CodexBridge.AppServerConnected` | src/ai/openai/codex/bridge/CodexBridge.cpp:226-239 | A new generation, not ready, announced, and the handshake started |
| `BridgeMachine.CodexBridge.FailFrontendRequests` | src/ai/openai/codex/bridge/CodexBridge.cpp:687-702 | Both tables emptied first, then each owner still registered gets -32002 under its own id |
| `BridgeMachine.CodexBridge.AppServerDisconnected` | src/ai/openai/codex/bridge/CodexBridge.cpp:241-258 | Everything outstanding fails before the disconnect is announced |
| `BridgeMachine.CodexBridge.Broadcast` | src/ai/openai/codex/bridge/CodexBridge.cpp:578-588 | The loop sends the event to every registered frontend exactly once |
| `ProxyMachine.FrontendProxy.RequestTyped` | src/ai/openai/codex/frontend/CodexBridge.cpp:190-232 | Offline or not ready the handler runs at once; otherwise it is filed, and runs at once if the transport refuses |
| `ProxyMachine.FrontendProxy.Receive` | src/ai/openai/codex/frontend/CodexBridge.cpp:52-107 | A response runs and removes its handler; a server request without handler, or whose handler throws, is answered with an error |
| `ProxyMachine.FrontendProxy.UpdateBridgeState` | src/ai/openai/codex/frontend/CodexBridge.cpp:287-349 | The new state is the transition UpdateBridgeState: stale provider events ignored, the view updated, and what is pending failed as `Generations.ProviderLoss` states |
| `ProxyMachine.FrontendProxy.FailPending` | src/ai/openai/codex/frontend/CodexBridge.cpp:131-150 | The table is emptied first, then every handler that was in it runs once with an error |
| `ProxyMachine.FrontendProxy.TransportDisconnected` | src/ai/openai/codex/frontend/CodexBridge.cpp:122-129 | Everything pending fails and the view is forgotten |
| `JsonLines.JsonLineFramer.Consume` | src/ai/openai/codex/protocol/JsonLineFramer.cpp:19-60 | A chunk adds exactly what it adds to reading the stream whole; a throwing handler loses and repeats no line; an accepted chunk leaves only an unterminated line and at most 2*max-2 physical bytes (max if max is 1) |
| `JsonLines.JsonLineFramer.TakeTurn` | src/ai/openai/codex/protocol/JsonLineFramer.cpp:24-60 | One turn of the loop neither loses nor repeats a byte or a message: delivered messages and the reading of the held bytes together stay the same |
| `JsonLines.JsonLineFramer.Compact` | src/ai/openai/codex/protocol/JsonLineFramer.cpp:99-110 | Compaction never changes the unread bytes |
| `JsonLines.ReadAppend` | src/ai/openai/codex/protocol/JsonLineFramer.cpp:24-60 | Reading a text in two parts reads the same as reading it whole |
| `JsonLines.ChunkingIrrelevant` | src/ai/openai/codex/protocol/JsonLineFramer.cpp:19-60 | Messages, failure and held rest depend only on the concatenated bytes |
| `JsonLines.FeedChunks` | src/ai/openai/codex/protocol/JsonLineFramer.cpp:19-60 | The same of the framer itself: fed chunk by chunk, whatever its handler does, it comes to the reading of the whole stream |
| `JsonLines.RoundTrip` | src/ai/openai/codex/protocol/JsonLineFramer.cpp:80-87 | Encodings of accepted messages, in any chunks, deliver exactly these messages and never fail |
| `JsonLines.LineEndsAlike` | src/ai/openai/codex/protocol/JsonLineFramer.cpp:42-47 | Streams with CRLF and with LF read the same, blank lines included, if every line leaves room for the carriage return |
| `JsonLines.FullLine` | src/ai/openai/codex/protocol/JsonLineFramer.cpp:24-47 | A line that fills the limit has no such room: it reads with LF and fails with CRLF |
| `JsonLines.FeedEncodings` | src/ai/openai/codex/protocol/JsonLineFramer.cpp:19-60 | The same of the framer itself, fed the encodings in any chunks |
| `Sse.SseDecoder.Consume` | src/ai/http/SseDecoder.cpp:14-30 | Dispatches exactly the events of the declarative interpretation of the bytes so far, throws exactly when a byte meets full buffers, and never holds more than the limit |
| `Sse.SseDecoder.TakeLine` | src/ai/http/SseDecoder.cpp:38-60 | A line updates the buffers as the interpretation of its block demands |
| `Sse.LoadBounded` | src/ai/http/SseDecoder.cpp:25-27 | Line, event and data buffers together never exceed the limit |
| `Sse.BufferSnoc` | src/ai/http/SseDecoder.cpp:52-57 | Type and data of a block grow line by line as the decoder's buffers do |
| `Sse.ValueShorter` | src/ai/http/SseDecoder.cpp:58-59 | Taking a line over never needs more room than the line had, so the second limit test cannot fail |
| `Sse.LinesSnoc` | src/ai/http/SseDecoder.cpp:16-24 | What one more byte does to the lines of a stream, with CR, LF and CRLF mixed |
| `Sse.EventsSnoc` | src/ai/http/SseDecoder.cpp:38-46 | What one more line does to the events of a stream |
| `Sse.RoundTrip` | src/ai/openai/codex/model/ResponsesService.cpp:42-47 | Printed frames decode to exactly the printed events, and a decoder takes them exactly when type and data together stay six bytes under the limit |
| `SseFields.LineMeans` | src/ai/http/SseDecoder.cpp:47-51 | The value begins behind the colon, or behind the one space that may follow; without a colon it is empty |
| `SseFields.FieldsDecode` | src/ai/http/SseDecoder.cpp:31-60 | A block of printed fields, with or without the space and with any of the three line ends, is one event: the last type or "message", the data lines stacked; comments and other fields count for nothing |
| `SseFields.MarkIgnored` | src/ai/http/SseDecoder.cpp:33-37 | A leading byte order mark changes nothing |
| `Transcript.ScanDecides` | src/ai/providers/anthropic/AnthropicProvider.cpp:103-137 | The running pending set accepts exactly the conversations that are, or can still become, well paired after merging, and holds exactly the open calls |
| `Transcript.MergeKeepsBlocks` | src/ai/providers/anthropic/AnthropicProvider.cpp:151-156 | Merging alternates the roles and keeps every block in order |
| `Transcript.MergeIsUnique` | src/ai/providers/anthropic/AnthropicProvider.cpp:151-156 | It is the only alternating split of the blocks |
| `Transcript.ClosedIsPaired` | src/ai/providers/anthropic/AnthropicProvider.cpp:158-159 | The final checks add exactly what turns a possible conversation into a well-paired one |
| `Transcript.RunsMerge` | src/ai/providers/anthropic/AnthropicProvider.cpp:151-156 | Appending a message extends the last run or starts a new one |
| `PrepareRequest.Prepare` | src/ai/providers/anthropic/AnthropicProvider.cpp:48-184 | A request is accepted if and only if its options fit, its tools fit, every block fits, aliases are unambiguous, call ids are distinct and the merged conversation is well paired; and then the whole body is as stated, whose messages `ReadBack.RequestReadsBack` reads back |
| `PrepareRequest.AcceptedConversation` | src/ai/providers/anthropic/AnthropicProvider.cpp:103-161 | What is sent strictly alternates from user to user, keeps all blocks in order, and answers each assistant message's calls one to one at the head of the next message |
| `ReadBack.RequestReadsBack` | src/ai/providers/anthropic/AnthropicProvider.cpp:103-157 | From the messages of any accepted request and the aliases of its names, every block of the transcript is recovered in order and under its role: texts, calls with id, name and input, results with call, output and error flag, parsed continuations |
| `ReadBack.SentIsValid` | src/ai/providers/anthropic/AnthropicProvider.cpp:48-184 | What is sent keeps the rules of the API: limit, thinking budget and tool choice, object schemas and legal names, every block complete, in its role, and thinking signed or redacted |
| `ReadBack.TextsAreTaken` | src/ai/providers/anthropic/AnthropicProvider.cpp:48-161 | A conversation of texts without tools is accepted if and only if it begins and ends with the user, nothing in it is empty, and the options keep the rules |
| `PrepareRequest.PrepareMessages` | src/ai/providers/anthropic/AnthropicProvider.cpp:103-157 | The message loop accepts exactly the conversations whose blocks fit, scan and name unambiguously, and builds their merged encoding |
| `PrepareRequest.PrepareMessage` | src/ai/providers/anthropic/AnthropicProvider.cpp:107-150 | The block loop accepts a message exactly when all its blocks fit behind what came before |
| `PrepareRequest.PrepareBlock` | src/ai/providers/anthropic/AnthropicProvider.cpp:110-149 | Each kind of block: exactly when it is taken, its encoding, which `ReadBack.RequestReadsBack` inverts, and the new pending set, calls and names; the flag for ordinary user content never decides anything the pending set does not |
| `PrepareRequest.PrepareTools` | src/ai/providers/anthropic/AnthropicProvider.cpp:97-102 | Tools are taken exactly when distinct, with object schemas and unambiguous aliases |
| `PrepareRequest.KeepDeclared` | src/ai/providers/anthropic/AnthropicProvider.cpp:178-182 | The returned map is exactly the declared tools, keyed by their aliases |
| `ToolNames.WireIsLegal` | src/ai/providers/anthropic/AnthropicProvider.cpp:18-22 | Every wire name is 1 to 128 legal characters, an encoded one at most 113, a legal name itself |
| `ToolNames.Encode` | src/ai/providers/anthropic/AnthropicProvider.cpp:73-90 | The loops compute the alias of the name, whatever was encoded before |
| `ToolNames.HashOf` | src/ai/providers/anthropic/AnthropicProvider.cpp:73-77 | The hash loop is the 64-bit FNV-1a fold |
| `ToolNames.OneByteApart` | src/ai/providers/anthropic/AnthropicProvider.cpp:73-77 | Names that differ in exactly one byte hash differently |
| `ToolNames.AliasesApart` | src/ai/providers/anthropic/AnthropicProvider.cpp:73-90 | So two names that need encoding and differ in one byte never collide |
| `ToolNames.AliasIsReadable` | src/ai/providers/anthropic/AnthropicProvider.cpp:80-87 | An alias shows the name as far as it fits, with an underscore for every other byte |
| `ToolNames.KnownHash` | src/ai/providers/anthropic/AnthropicProvider.cpp:74-77 | Two test vectors of FNV-1a |
| `ToolNames.Alias` | src/ai/providers/anthropic/AnthropicProvider.cpp:67-95 | A name gets its own alias whatever came before it, and only an empty name or a collision is refused |
| `StreamLanguage.RunLegal` | src/ai/providers/anthropic/AnthropicProvider.cpp:191-348 | For every input and every behaviour of the receiver the emitted events stay in the language of the stream, and finish() ends it |
| `StreamLanguage.FinishedOnce` | src/ai/providers/anthropic/AnthropicProvider.cpp:213-216 | After finish() exactly one final event was emitted, as the last, unless the stream was cancelled |
| `StreamLanguage.OneFinalEvent` | src/ai/providers/anthropic/AnthropicProvider.cpp:204-212 | Nothing is emitted after Completed or Error |
| `StreamLanguage.BlocksInOrder` | src/ai/providers/anthropic/AnthropicProvider.cpp:271-289 | Blocks are numbered 0, 1, 2, ..., never overlap, and Started comes first and once |
| `StreamLanguage.NoBlockAfterStop` | src/ai/providers/anthropic/AnthropicProvider.cpp:271-272 | Once a stop reason is known no block starts any more, whatever arrives |
| `StreamCancel.NoEventAfterCancel` | src/ai/providers/anthropic/AnthropicProvider.cpp:191-203 | Over every run, for every input and receiver, no event follows one on which the receiver cancelled |
| `StreamCancel.CancelledIsSilent` | src/ai/providers/anthropic/AnthropicProvider.cpp:199-203 | Cancelled from outside, the stream gives up its open block and stays silent |
| `StreamLanguage.HandleValid` | src/ai/providers/anthropic/AnthropicProvider.cpp:217-229 | Every event, well formed or not, keeps fields and log in agreement |
| `StreamLanguage.SettledCompletes` | src/ai/providers/anthropic/AnthropicProvider.cpp:316-326 | A finished block is its first content combined with exactly its deltas; tool input is the parsed concatenation |
| `StreamLanguage.StartMessageKeeps` | src/ai/providers/anthropic/AnthropicProvider.cpp:255-270 | message_start in every outcome, including a receiver that cancels between its two events |
| `StreamLanguage.StopMessageKeeps` | src/ai/providers/anthropic/AnthropicProvider.cpp:340-346 | message_stop ends the stream only between blocks and with a stop reason |
| `StreamDelivery.ResponseDelivered` | src/ai/providers/anthropic/AnthropicProvider.cpp:241-348 | Any response streamed in good order reaches a patient receiver whole: every block with its deltas, the usage, the stop reason, and nothing else; `StreamVerdicts.ResponseTold` spells out usage and stop reason |
| `StreamVerdicts.ResponseTold` | src/ai/providers/anthropic/AnthropicProvider.cpp:241-348 | What the receiver is told of a response: the counts its members give, member by member, or the earlier ones; exactly its blocks; Completed with the reason that the stop reason spells, and the error invalid_stream for any other spelling |
| `StreamVerdicts.CompletedAsSpelled` | src/ai/providers/anthropic/AnthropicProvider.cpp:31-45 | The last event is Completed for a reason if and only if the stop reason is one of its spellings |
| `StreamVerdicts.HandleVerdict` | src/ai/providers/anthropic/AnthropicProvider.cpp:217-229 | An unreadable, mislabelled or excessive event, or one that is refused, ends the stream as invalid; an ended stream hears nothing |
| `StreamVerdicts.MessageStartVerdict` | src/ai/providers/anthropic/AnthropicProvider.cpp:255-270 | Exactly which message_start is taken, and what is heard of it |
| `StreamVerdicts.BlockStartVerdict` | src/ai/providers/anthropic/AnthropicProvider.cpp:271-289 | A block starts if and only if it comes between blocks, before the stop reason, under the next number, in a form that presents some content, which is what the receiver hears |
| `StreamVerdicts.BlockDeltaVerdict` | src/ai/providers/anthropic/AnthropicProvider.cpp:290-315 | A delta is taken if and only if it fits its open block, which grows by exactly it, as the receiver hears; a signature grows silently |
| `StreamVerdicts.BlockStopVerdict` | src/ai/providers/anthropic/AnthropicProvider.cpp:316-326 | A stop closes its block and reports exactly what it means; unsigned thinking, input that is no object and undeclared tools fail the stream |
| `StreamVerdicts.MessageDeltaVerdict` | src/ai/providers/anthropic/AnthropicProvider.cpp:327-339 | message_delta is taken between blocks with a known stop reason, if any, and countable usage, if any |
| `StreamVerdicts.MessageStopVerdict` | src/ai/providers/anthropic/AnthropicProvider.cpp:340-346 | message_stop completes a started stream between blocks whose stop reason is known |
| `StreamVerdicts.ErrorVerdict` | src/ai/providers/anthropic/AnthropicProvider.cpp:247-254 | An error of the API is passed on under its own name; exactly three may be retried |
| `StreamVerdicts.AncillaryVerdict` | src/ai/providers/anthropic/AnthropicProvider.cpp:241-246 | Pings and unknown events do nothing |
| `StreamVerdicts.FinishVerdict` | src/ai/providers/anthropic/AnthropicProvider.cpp:213-216 | A stream that ends early reports incomplete_stream, which may be retried |
| `StreamDelivery.PartFed` | src/ai/providers/anthropic/AnthropicProvider.cpp:271-326 | One block from start to stop yields exactly its three kinds of events |
| `StreamDelivery.AliasDecodes` | src/ai/providers/anthropic/AnthropicProvider.cpp:230-239 | A streamed tool call with the alias of a declared tool decodes to the declared name; any other name has no content and fails the stream |
| `StreamDelivery.ThinkingReturns` | src/ai/providers/anthropic/AnthropicProvider.cpp:132-148 | Finished reasoning is accepted back as a continuation if and only if it is redacted or has a thinking member |
| `StreamDelivery.UnspokenThinking` | src/ai/providers/anthropic/AnthropicProvider.cpp:305-313 | The runs that show the other half: from the initial state a thinking block started without text and only signed arrives, finishes and completes without an error, and every request whose transcript gives the delivered reasoning back is refused |
| `StreamMachine.MessageStream.Event` | src/ai/providers/anthropic/AnthropicProvider.cpp:217-229 | One event with its exception boundary: the whole new state is the transition Handle |
| `StreamMachine.MessageStream.Fail` | src/ai/providers/anthropic/AnthropicProvider.cpp:204-212 | The first failure clears the blocks and is reported once |
| `StreamMachine.MessageStream.Emit` | src/ai/providers/anthropic/AnthropicProvider.cpp:191-195 | Nothing reaches the receiver of a finished stream |
| `StreamMachine.MessageStream.Finish` | src/ai/providers/anthropic/AnthropicProvider.cpp:213-216 | An unfinished stream is reported as incomplete |
| `StreamMachine.MessageStream.Cancel` | src/ai/providers/anthropic/AnthropicProvider.cpp:199-203 | Cancelling clears the blocks and silences the stream |
| `StreamMachine.MessageStream.StartMessage` | src/ai/providers/anthropic/AnthropicProvider.cpp:255-270 | The new state is the transition StartMessage |
| `StreamMachine.MessageStream.StartBlock` | src/ai/providers/anthropic/AnthropicProvider.cpp:271-289 | The new state is the transition StartBlock |
| `StreamMachine.MessageStream.ChangeBlock` | src/ai/providers/anthropic/AnthropicProvider.cpp:290-315 | The new state is the transition ChangeBlock, each kind of delta by its own method |
| `StreamMachine.MessageStream.StopBlock` | src/ai/providers/anthropic/AnthropicProvider.cpp:316-326 | The new state is the transition StopBlock |
| `StreamMachine.MessageStream.ChangeMessage` | src/ai/providers/anthropic/AnthropicProvider.cpp:327-339 | The new state is the transition ChangeMessage, which `StreamVerdicts.MessageDeltaVerdict` states by the members of the event |
| `StreamMachine.MessageStream.Parse` | src/ai/providers/anthropic/AnthropicProvider.cpp:241-254 | Dispatch by type, errors and unknown types included |
| `UpgradeScopes.Registry.Open` | src/ai/openai/codex/frontend/WebSocketUpgrade.cpp:44-55 | A scope joins as the newest; a zero limit throws and changes nothing |
| `UpgradeScopes.Registry.Close` | src/ai/openai/codex/frontend/WebSocketUpgrade.cpp:57-71 | Destroying any scope takes exactly it out of the chain, at whatever place; the walk ends |
| `UpgradeScopes.Registry.Create` | src/ai/openai/codex/frontend/WebSocketUpgrade.cpp:30-32 | Only the newest scope may yield a subprotocol, once, for its own connection |
| `UpgradeScopes.Scope.Consume` | src/ai/openai/codex/frontend/WebSocketUpgrade.cpp:73-80 | A scope yields at most one subprotocol, and only for its own connection |
| `UpgradeScopes.WithoutAt` | src/ai/openai/codex/frontend/WebSocketUpgrade.cpp:63-70 | Unlinking closes the gap and moves nothing else |
| `ClientLifecycle.AlwaysSound` | packages/codex-frontend/src/ClientConnection.ts:29-103 | Over every run connected and disconnected callbacks strictly alternate, and an offline client's proxy has no pending handler and no identity |
| `ClientLifecycle.ActSound` | packages/codex-frontend/src/ClientConnection.ts:29-103 | Every action keeps that |
| `ClientLifecycle.ShutdownIsFinal` | packages/codex-frontend/src/ClientConnection.ts:91-103 | After a shutdown nothing attaches, connects or is dispatched |
| `ClientLifecycle.SessionLived` | packages/codex-frontend/src/ClientConnection.ts:29-79 | A session from attach to detach dispatches every valid message once, in order, and reports connected, detached and disconnected, and nothing else |
| `ClientLifecycle.FailuresLived` | packages/codex-frontend/src/ClientConnection.ts:47-66 | Only the first failure of an attachment is reported, but each asks the endpoint to close; an invalid message is one |
| `ClientLifecycle.AttachLived` | packages/codex-frontend/src/ClientConnection.ts:29-39 | Attaching the same endpoint again starts over with the report of failures; another endpoint is refused |
| `ClientLifecycle.ShutdownLived` | packages/codex-frontend/src/ClientConnection.ts:91-103 | Shutting down asks an attached endpoint to close, once, and tells the proxy only when there is none |
| `ClientLifecycle.DisconnectLived` | packages/codex-frontend/src/ClientConnection.ts:81-89 | A disconnect asks an attached endpoint to close, and nothing else |
| `ClientLifecycle.RequestLived` | packages/codex-frontend/src/ClientConnection.ts:118-127 | A request leaves only over an attached, connected endpoint of a client that is not shutting down |
| `ClientMachine.ClientConnection.Attach` | packages/codex-frontend/src/ClientConnection.ts:29-39 | Refused during shutdown or while another endpoint is attached |
| `ClientMachine.ClientConnection.Connected` | packages/codex-frontend/src/ClientConnection.ts:41-45 | Only the attached endpoint connects, once |
| `ClientMachine.ClientConnection.ReceiveMessage` | packages/codex-frontend/src/ClientConnection.ts:47-56 | Only the attached online endpoint is dispatched; an invalid envelope fails the transport |
| `ClientMachine.ClientConnection.Failed` | packages/codex-frontend/src/ClientConnection.ts:58-66 | One failure report per attachment, and a close request each time |
| `ClientMachine.ClientConnection.Detach` | packages/codex-frontend/src/ClientConnection.ts:68-79 | The proxy is disconnected before the callbacks; disconnected is reported only if connected was |
| `ClientMachine.ClientConnection.Shutdown` | packages/codex-frontend/src/ClientConnection.ts:91-103 | With an endpoint it is asked to close, without one the proxy is disconnected at once |
| `ClientMachine.ClientConnection.Request` | packages/codex-frontend/src/ClientConnection.ts:118-127 | Requests leave only while online |
| `Utf8.DecodePrefix` | packages/codex-frontend/src/WebSocketTransport.ts:55-66 | A prefix of encoded text decodes exactly when it cuts no character, and then to the whole characters in it |
| `Utf8.WholeIsLongest` | packages/codex-frontend/src/WebSocketTransport.ts:55-66 | The whole characters that fit are as many as can fit, and less than four bytes are given up |
| `Utf8.DecodeEncode` | packages/codex-frontend/src/WebSocketTransport.ts:55-66 | Decoding what was encoded gives the text back |
| `Utf8.ByteLengthBounds` | packages/codex-frontend/src/WebSocketTransport.ts:165-167 | UTF-8 takes at least one and at most three bytes per UTF-16 unit |
| `Utf8.Surrogates` | packages/codex-frontend/src/WebSocketTransport.ts:165-167 | A lone surrogate is written as U+FFFD in three bytes, a pair as one character in four |
| `WebSocketSizes.BoundedCloseReason` | packages/codex-frontend/src/WebSocketTransport.ts:55-66 | The search loop returns the whole characters that fit 123 bytes, less a byte order mark |
| `WebSocketSizes.CloseReasonIsLongest` | packages/codex-frontend/src/WebSocketTransport.ts:55-66 | The reason fits a close frame, and is the longest prefix that does if and only if it is short or does not begin with U+FEFF |
| `WebSocketSizes.MarkIsLost` | packages/codex-frontend/src/WebSocketTransport.ts:55-66 | A reason for which it is not |
| `WebSocketSizes.ExceedsMaximum` | packages/codex-frontend/src/WebSocketTransport.ts:165-173 | The cheap test in front never changes the answer of the exact one |
| `WebSocketSizes.FramedBytesAreEnough` | packages/codex-frontend/src/WebSocketTransport.ts:68-73 | The estimate equals the masked 16 KiB fragments of RFC 6455, section 5.2, but for two bytes if the last one is short |
| `WebSocketSizes.Admit` | packages/codex-frontend/src/WebSocketTransport.ts:110-130 | An admitted message keeps the queue within its maximum; a refusal has only the two stated reasons |

## Left out

- Sockets, TLS, HTTP, process supervision, signals, timers, configuration and logging.
- Re-entrant callbacks: an endpoint's close is deferred (the unregister or detach arrives as a later step), and user handlers do not call back into the object that runs them; only the receiver of `MessageStream` may cancel inside a callback.
- Handlers are taken to be present; an absent one would only skip a call. The raw-message and notification callbacks, which change no state, are not recorded.
- Texts of diagnostics, errors and reasons; their codes are modelled.
- The two classifiers of JSON-RPC messages: a message arrives classified, with a flag for the stricter form that frontends must meet.
- Strings stand for byte sequences, except in Utf8.dfy and WebSocketSizes.dfy, which are about the difference.
- JSON text: parsing and printing are parameters; ids other than strings and integers have no key, as in the original.
- Counters are unbounded naturals; the 64-bit wrap-around of sequence, request and generation numbers is not modelled. The FNV-1a hash is modelled with its wrap-around.
- `CodexBridge::setAppServer` and the identity of the app-server endpoint: whether one is set and connected is the `reachable` field of `Link`.
- Typed request wrappers, `sendLocalNotification` and `sendServerResponse`, which only build a message for the operations modelled.
- What the application does after a failed handshake (`core::SNodeC::stop`).
- Server requests handled in the bridge's own process are outside the account of `ServerRequests.Conservation`: such a handler may reply and then throw, which sends a second reply.
- Handshake.ForwardedAfterHandshake: assumes that the app-server transport comes up only when it is down, which the bridge itself does not check.
- Sse.SseDecoder.Consume: describes the decoder up to and including the byte at which it throws; feeding it further afterwards is not described (the original has then already cleared the flag for a preceding carriage return).
- StreamMachine.MessageStream.Event: exceptions that do not derive from `std::exception` and a receiver that feeds the stream from inside a callback are not modelled; the message text of error events is dropped.
- StreamDelivery.ResponseDelivered: covers text, tool and signed thinking blocks with one signature each, and no ping or unknown events in between; `StreamLanguage.RunLegal` covers every input.
- PrepareRequest.Prepare: the body is a structured value instead of JSON text, and a refusal carries no message.
- UpgradeScopes.Registry.Create: the thread-local variable is one registry object; the linking of the static factory and the subprotocol object itself are not modelled.
- ClientMachine.ClientConnection.ReceiveMessage: an exception of the proxy's own receive does not occur in the model, because the proxy contains its handlers; `dispose` is a shutdown followed by dropping the sender.
- The rest of `WebSocketTransport` (socket events and the closing and detached flags), `StdinReader`, `CommandParser`, `Presenter`, `CodexAgent`, `ProviderProfile` and the other providers would add only easy members or have their logic elsewhere.
