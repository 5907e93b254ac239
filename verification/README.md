# A model of the Convex sync client, with proofs

The repository is a C++ client of the Convex sync protocol. This project models its protocol core, the
layers built on it, and the codecs below it, and proves what they are for: a server replica that survives
every reconnect, actions that are never put on the wire twice, read-your-writes, callbacks that run exactly
once, paginated lists without gaps or duplicates, and query identity that depends on nothing but the
function and its arguments.

`dafny verify dfyconfig.toml` checks everything. There is no `assume` and no unproved declaration.

## Layout

Each layer has a specification module of pure functions over a `State` datatype, a class whose methods
(with the source's loops and updates) are proved to compute exactly those functions, and a module of runs:
an `Op` datatype, `Step`, `Execute`, invariants that hold after any sequence of operations, and the theorems.

| files | content |
|---|---|
| `Wrappers`, `Sequences`, `Decimals` | Option and Result; sequences without repeats; numbers in decimal |
| `Ordering`, `Values`, `Protocol` | the iteration order of `std::map`; values and messages; function paths |
| `BaseClientSpec`, `BaseClient` | every operation of `base_client`, as functions and as a class |
| `SyncSession` | the server's side of a connection, independent of the client: what it accepts, and what it then holds |
| `BaseClientRuns`, `BaseClientLedger` | whole runs of `base_client`: replica, actions, requests, read-your-writes; then subscribers, resynchronisation, results, journals |
| `BaseClientHistory` | what a run of `base_client` comes to, read off its calls alone: answers, messages, identity, version |
| `ClientSpec`, `Client` | the lock-held sections of `client_impl`, as functions and as a class |
| `ClientRuns`, `ClientLedger` | whole runs of `client_impl`: connections, wires, callbacks; then authentication failures and subscriptions |
| `ClientCalls`, `ClientConnections` | the calls each step of `client_impl` makes of `base_client`; when and why connections are given up |
| `ClientEvents`, `ClientChunks` | over whole runs of `client_impl`: the order of callbacks, and what is buffered of a split message |
| `PaginatedSpec`, `Paginated`, `PaginatedRuns` | `paginated_impl` as functions, as a class, and over whole runs |
| `PageReadings` | what a page's result says, read off the value the server sent |
| `PaginatedSnapshots`, `PaginatedSessions` | what is published: exactness, statuses, splits, what `on_update` is given and when; sessions and how they start over |
| `Chunks` | the chunk assembler, and streams of server messages through it |
| `Base64`, `JsonCodec`, `JsonText`, `QueryTokens` | base64; values and the JSON DOM; printed JSON; which subscriptions share a query |
| `WireFormat`, `JsonReading` | the same codecs seen from the wire: 24-bit groups, little-endian bytes, JSON shapes, and a reader of strings |

The specification functions say what each operation does. So that nothing rests on those functions alone, the main
results are stated from outside them: from the operations of a run, the messages and values the server sent, the
bits on the wire, or an independent server.

Each handler of `client_impl` is one atomic step, as it holds the lock throughout; `attempt_connect` is two
steps, because it releases the lock around `connect()`. Histories that the code does not keep (messages popped,
frames per connection, callbacks run, snapshots published, handles alive) are ghost state, or parts of the run datatypes.
Inputs from outside are parameters: what the token fetcher returns, why a connection closed, what a frame
decodes to, the next pagination id, and the text of serialized arguments (None where `serialize_args` throws).

## Assumptions

They are preconditions of the theorems that need them, never axioms.

- A connection reports `on_open` at most once, and only after `connect()` was called for it
  (`ClientRuns.TransportOk`; include/convex/transport.h:23-40). Close reports and frames are unrestricted.
- A page's `continueCursor` stays at the end fixed for that page, and equals its `endCursor` when it has one
  (`PaginatedRuns.ConformingOp`). Failures, malformed results and results for vanished pages are unrestricted.
  Exactness of snapshots also takes page results to be range reads of one ordered list
  (`PaginatedRuns.RangeReads`).
- Each subscription handle is dropped once, for the theorems that count handles or compare two that are held
  (`BaseClientLedger.Disciplined`, `ClientLedger.Disciplined`; src/client.cpp:578-583): `SubscribersCounted`,
  `SubscriberCountsAgree`, `MessageUpdatesEveryHolder`, `EachHolderOncePerMention`, `HeldHandlesShareIff`,
  `SubscribersShareIff` and `HeldHandleIsServed`.
  `UnsubscribeCountedIff` says exactly what a second drop does.
- Finite doubles are printed as digits, signs, point and exponent, and never two alike (`JsonText.Faithful`);
  `SomePrinterIsFaithful` gives such a printer.

The server is unrestricted in the theorems about `base_client` and `client_impl`: any messages may arrive, in any
order. One promise depends on what arrives, and is stated with its exact condition instead of an assumption: a
mutation's success is covered by the applied timestamp if and only if the message that reports it is not an
ActionResponse carrying a mutation's id (`ReadYourWritesIff`, `EffectsBeforeCompletion`). A success that the server
sends without a timestamp has nothing to be ordered by, is reported at once, and is exempt from both.

## Where the code and its documentation differ

The model follows the code.

- include/convex/base_client.h:113-118 says in-flight actions fail on restart. src/base_client.cpp:290-350 queues
  the unsent ones again and fails the rest; `ActionSentAtMostOnce` holds all the same.
- include/convex/base_client.h:151-153 says a query counts as synced once it has a result. A failure, a removal or an
  unsubscribe also settles it; `SyncedIff` gives the exact condition.
- Mutations are documented as reported only after their effects are visible. `ReadYourWritesIff` shows this holds
  for every server message except an ActionResponse carrying a mutation's id, which the code passes through
  (src/base_client.cpp:240-251; `ActionResponseMayAnswerMutation` is a run with one); a success without a timestamp
  is delivered at once, as the code says.
- `base64_decode` accepts more than RFC 4648 allows an encoder to write (`PaddingAloneDecodes`);
  `EncodeAfterDecodeIff` says exactly which texts survive, and `DecodesIff` exactly which are accepted.
- Values are documented to round-trip byte-exact. NaN payloads do not: encoding makes every NaN the canonical one
  (src/json_codec.cpp:60-70). `DecodeAfterEncode` and `EncodedAlikeIff` are stated up to that, and it is all that is lost.
- `canonicalize_udf_path` is not idempotent: `CanonicalizeIdempotentIff` gives the exact exception,
  a module part written with a double `.js`.

## Model

| member | source | states |
|---|---|---|
| BaseClient.BaseClient.Subscribe | src/base_client.cpp:18-50 | A second subscriber of a live query shares its id and only raises its count; a new query gets the next id and one version-chained Add; nothing changes when the arguments cannot be serialized |
| BaseClient.BaseClient.Unsubscribe | src/base_client.cpp:52-70 | Lowers the count; the last one out removes the query from both indexes, its result and its outstanding mark, and queues one Remove; an unknown id does nothing |
| BaseClient.BaseClient.Request | src/base_client.cpp:72-102 | A request takes the next id, joins the requests in flight and queues its message; the id is consumed even when the arguments cannot be serialized |
| BaseClient.BaseClient.SetAuth | src/base_client.cpp:104-114 | Replaces the stored identity (none for the None token) and queues an Authenticate with the next base version |
| BaseClient.BaseClient.EnqueueAuthenticate | src/base_client.cpp:116-121 | Queues the stored token with the current identity version, and advances it |
| BaseClient.BaseClient.ObserveTimestamp | src/base_client.cpp:125-129 | Keeps the highest timestamp seen |
| BaseClient.BaseClient.FlushCompleted | src/base_client.cpp:131-142 | Erasing while iterating, removes exactly the held requests at or below the watermark, and reports them in ascending id order |
| BaseClient.BaseClient.ApplyStateModification | src/base_client.cpp:151-181 | An update or failure sets the result and, for a live query, the journal; a removal erases the result; each clears the outstanding mark |
| BaseClient.BaseClient.HandleTransition | src/base_client.cpp:183-198 | All or nothing on the start version; modifications in order, then the version, then the requests the new timestamp covers |
| BaseClient.BaseClient.ReceiveMessage | src/base_client.cpp:200-275 | Every server message: held and flushed successes, direct failures, ignored stale responses, reconnect reasons |
| BaseClient.BaseClient.PopNextMessage | src/base_client.cpp:279-284 | Takes the oldest queued message, or none |
| BaseClient.BaseClient.CollectUnsentActions | src/base_client.cpp:293-298 | The ids of exactly the actions still in the queue |
| BaseClient.BaseClient.RestoreAuth | src/base_client.cpp:300-316 | A refreshed token replaces the stored one; the queue restarts with its Authenticate at version zero, if there is a token |
| BaseClient.BaseClient.RestoreQueries | src/base_client.cpp:324-332 | One Add per live query, in token order and with its journal, and exactly those ids become outstanding |
| BaseClient.BaseClient.FailLostActions | src/base_client.cpp:339-350 | Erasing while iterating, fails exactly the actions in flight that are not still queued, in id order |
| BaseClient.BaseClient.ResendRequests | src/base_client.cpp:351-353 | Queues the original message of each surviving request, in id order |
| BaseClient.BaseClient.Restart | src/base_client.cpp:288-355 | The whole rebuilt state and the failed actions |
| BaseClient.BaseClient.MakeConnectMessage | src/base_client.cpp:357-366 | Connect with the connection count so far, which it raises, the close reason and the highest timestamp seen |
| BaseClientHistory.RestartKeepsIff | src/base_client.cpp:288-355 | A restart keeps, unchanged and queued again, exactly the mutations and the actions whose message was still queued; it fails exactly the other requests in flight, in id order, each as lost with its connection |
| BaseClientHistory.InFlightUntilAnswered | src/base_client.cpp:200-252 | In every run, a returned request is in flight until it is answered or lost; once answered it only waits as a mutation's success with a timestamp ahead of the results applied; only an action is ever lost |
| BaseClientHistory.ReportsAreAnswers | src/base_client.cpp:200-252 | In every run, each request is reported with the very result of the last answer that came while it was in flight, or, for an action given up by a restart, as lost |
| BaseClientHistory.ReportsAscend | src/base_client.cpp:131-142 | The requests one message completes are reported in id order |
| BaseClientHistory.ReconnectsIff | src/base_client.cpp:183-275 | Exactly a transition from another version, an AuthError, a FatalError and a stray chunk cost the connection, each with its reason; an AuthError says whether an update was attempted |
| BaseClientHistory.RequestsSayWhatWasAsked | src/base_client.cpp:72-102 | In every run, each request message queued or ever popped carries the kind, canonical path and argument text of the call that returned its id; ids number the calls |
| BaseClientHistory.LastTokenIsPresented | src/base_client.cpp:104-121 | In every run, the identity kept, and the one a server replaying the stream holds, is the last token given by set_auth or a refresh, none for the None token; the version is the end of the last transition applied since the last restart |
| BaseClientHistory.LastUnsubscribeForgets | src/base_client.cpp:52-70 | The last unsubscribe removes the query from both indexes, its result and its outstanding mark, and nothing else |
| BaseClientHistory.NewQueryIsAnnounced | src/base_client.cpp:32-47 | A new query queues one version-chained Add with its id, canonical path and argument text, and no journal |
| BaseClientRuns.CoreAlways | src/base_client.cpp:18-366 | After any operations, messages and restarts: the two indexes are inverse and live, each request matches its message, the server's replay of the stream equals the local state, and every request in flight is on the stream |
| BaseClientRuns.ServerReplica | src/base_client.cpp:288-355 | In every run, a server replaying what was popped since the last restart and what is still queued accepts it all, and holds exactly the local queries and identity at the local versions |
| BaseClientRuns.RestartReplicates | src/base_client.cpp:288-355 | The rebuilt queue alone, replayed on a new connection, gives the local state and carries every request in flight |
| BaseClientRuns.EachRequestCarriedOnce | src/base_client.cpp:339-355 | In every run, each request in flight is at exactly one place of the current connection's stream, as first built |
| BaseClientRuns.RestartQueuesOnlyUnsentActions | src/base_client.cpp:290-353 | A restart queues no action that was not queued before |
| BaseClientRuns.ActionSentAtMostOnce | src/base_client.cpp:288-355 | Over any run, with any number of restarts, no action is popped twice |
| BaseClientRuns.ReceiveDrains | src/base_client.cpp:200-252 | The requests a message reports are exactly those that leave the requests in flight, each once |
| BaseClientRuns.ReportedExactlyOnce | src/base_client.cpp:200-252 | Whatever arrives, a returned id is either in flight or reported, never both, and reported only once |
| BaseClientRuns.ConservedAlways | src/base_client.cpp:72-102 | Returned ids are the disjoint union of those in flight and those reported, in every run |
| BaseClientRuns.HeldAheadAlways | src/base_client.cpp:131-142 | Every held success waits for a timestamp strictly ahead of the applied results, also after a restart resets them to zero |
| BaseClientRuns.ReadYourWritesIff | src/base_client.cpp:207-252 | In every reachable state, each mutation success a message reports is covered by the applied timestamp, if and only if the message is not an ActionResponse for a mutation |
| BaseClientRuns.ActionResponseMayAnswerMutation | src/base_client.cpp:240-251 | A run in which an ActionResponse answers a mutation in flight, and its success is reported ahead of its effects |
| BaseClientRuns.CountersBoundedByRun | include/convex/base_client.h:182-205 | No counter exceeds the number of operations, so none wraps within 2^32 of them |
| BaseClientSpec.SubscribeKeepsIndexes | src/base_client.cpp:18-50 | Subscribing keeps the two indexes mutually inverse, and every live query under its own token |
| BaseClientSpec.UnsubscribeKeepsIndexes | src/base_client.cpp:52-70 | Unsubscribing keeps the two indexes mutually inverse, with at least one subscriber per live query |
| BaseClientSpec.ApplyModificationsKeepsIndexes | src/base_client.cpp:151-181 | Server modifications, also of unknown queries, keep the indexes; the `.at` lookups on journals succeed |
| BaseClientLedger.SubscribersCounted | src/base_client.cpp:18-70 | With each handle dropped once, a query is live exactly when a handle of it is held, and its count is the number held |
| BaseClientLedger.UnsubscribeCountedIff | src/base_client.cpp:52-58 | An unsubscribe keeps the counts right if and only if its handle is held or its query is not live |
| BaseClientLedger.HeldHandlesShareIff | src/base_client.cpp:18-50 | In every run with each handle dropped once, any two handles held name one query if and only if they were asked for the same token |
| BaseClientLedger.ResyncingAlways | src/base_client.cpp:151-181 | Outstanding queries are exactly those the last restart re-sent, still live and not mentioned since |
| BaseClientLedger.SyncedIff | include/convex/base_client.h:151-153 | has_synced_past_last_restart holds exactly when every re-sent query was mentioned or dropped; no outstanding query has a result |
| BaseClientLedger.OutstandingShrinks | src/base_client.cpp:318-334 | Only a restart adds outstanding queries |
| BaseClientLedger.LastMentionWins | src/base_client.cpp:183-198 | After a transition a query's result is what its last modification says, and unmentioned results stay |
| BaseClientLedger.LatestResultIsLastWord | src/base_client.cpp:151-198 | In every run a live query's result is what the server last said of it since the last restart: nothing if it said nothing or removed it |
| BaseClientLedger.JournaledAlways | src/base_client.cpp:160-176 | Each live query holds the journal of the last update or failure accepted for it |
| BaseClientLedger.ConnectTellsHistory | src/base_client.cpp:357-366 | In every run, the next Connect is numbered by those before it and carries the highest timestamp ever applied or held |
| BaseClientLedger.ResentWithLatestJournal | src/base_client.cpp:318-334 | Each Add a restart re-sends names a live query and carries its latest accepted journal |
| SyncSession.RequestIdsIncrease | src/base_client.cpp:336-353 | Along an accepted stream request ids strictly increase |
| Protocol.CanonicalParts | src/protocol.cpp:96-111 | Canonicalizing strips one ".js" from the module part, keeps the function part, and names it "default" when absent |
| Protocol.CanonicalForm | src/protocol.cpp:96-111 | "m.js:f" becomes "m:f" and "m.js" becomes "m:default"; a module part without ".js" stays as it is |
| Protocol.CanonicalizeIdempotentIff | src/protocol.cpp:96-111 | Canonicalizing twice is canonicalizing once, if and only if the module part does not end in two ".js" |
| Protocol.DoubleJsStripsTwice | src/protocol.cpp:107-109 | What each application does to a module part ending in two ".js" |
| Client.ClientImpl.constructor | src/client.cpp:70-132 | A started client: no connection, the first attempt scheduled, "InitialConnect" as close reason |
| Client.ClientImpl.DrainOutgoing | src/client.cpp:154-159 | With an open connection, pops and sends the whole queue in order; otherwise nothing |
| Client.ClientImpl.BeginDisconnect | src/client.cpp:173-203 | Retires the generation and its chunks, restarts the base client with a refreshed token if the fetcher gives one, calls back failed actions, schedules a reconnect |
| Client.ClientImpl.HandleOpen | src/client.cpp:206-213 | Sends Connect, then the whole rebuilt queue |
| Client.ClientImpl.WsOpen | src/client.cpp:219-234 | Ignores stale generations; remembers an open that arrives before connect() returned |
| Client.ClientImpl.WsMessage | src/client.cpp:236-324 | Ignores stale generations; malformed text disconnects; chunks are assembled; any other message but Ping abandons a partial split |
| Client.ClientImpl.HandleChunk | src/client.cpp:257-272 | A partial split changes only the buffer, a bad one disconnects, a complete one is handled as the whole message |
| Client.ClientImpl.HandleAuthError | src/client.cpp:281-296 | Tolerates one refreshable rejection; a terminal one clears identity and fetcher and tells the listeners |
| Client.ClientImpl.NotifySubscribers | src/client.cpp:300-308 | One callback per subscriber of each changed query that has a result, in order |
| Client.ClientImpl.ResolveRequests | src/client.cpp:309-317 | Moves the callback of each finished request that is still pending to the events, in order, and no other |
| Client.ClientImpl.WsClose | src/client.cpp:326-334 | Disconnects with the given reason, unless stale or stopping |
| Client.ClientImpl.BeginConnect | src/client.cpp:375-415 | A due reconnect opens a new generation |
| Client.ClientImpl.FinishConnect | src/client.cpp:424-445 | A superseded connection is discarded, a failure disconnects, a connection already open is used at once |
| Client.ClientImpl.CheckInactivity | src/client.cpp:386-396 | A silent open socket is disconnected |
| Client.ClientImpl.Subscribe | src/client.cpp:450-465 | Registers the callback, sends the Add, and queues a first callback when the result is known |
| Client.ClientImpl.Unsubscribe | src/client.cpp:467-479 | Erases that subscriber's entries, and the query's list once empty |
| Client.ClientImpl.Request | src/client.cpp:481-496 | Records the callback and sends the request; after shutdown the callback is refused on the spot |
| Client.ClientImpl.SetAuth | src/client.cpp:498-505 | A new token, a new fetcher and a fresh error count |
| Client.ClientImpl.ProcessEvents | src/client.cpp:507-515 | Runs exactly the queued callbacks, in order |
| Client.ClientImpl.Shutdown | src/client.cpp:517-549 | Runs queued callbacks first, then fails every pending request in id order |
| Client.AlwaysReady | src/client.cpp:98-119 | In every reachable state the calls into the base client and the assembler meet their preconditions |
| ClientCalls.ClientDrivesBase | src/client.cpp:154-505 | In every run, the base client has gone through exactly the calls read off the client's operations: what each message, token, subscription, request, connection and loss of one leads to |
| ClientCalls.CallbacksAreAnswers | src/client.cpp:309-317 | In every run, each request's callback is told the result of the last answer that came while the request was in flight, or that its action was lost, or that the client was shut down |
| ClientCalls.IdentityIsLastGiven | src/client.cpp:173-193 | In every run, the identity kept, and shown on the open connection, is the last one given by set_auth, by the fetcher when a connection was given up, or none after a terminal rejection |
| ClientCalls.FramesSayWhatWasAsked | src/client.cpp:481-496 | Every request on any connection carries the kind, canonical path and argument text its caller gave |
| ClientConnections.StepMoves | src/client.cpp:173-445 | Each step gives up the connection or attempt exactly for the reasons read off the operation and the message, and otherwise begins a due attempt, notes an open or a connection, or leaves them alone |
| ClientConnections.NeverForgotten | src/client.cpp:366-445 | In every run until shutdown there is a connection held for the current generation, connect() running for it, or a next attempt scheduled; an open reported early counts; the close reason and the number of failures since the server last caught up are those of the run |
| ClientConnections.ConnectTellsReason | src/client.cpp:206-213 | The Connect at the head of every open connection gives the reason the last one was given up, and its number |
| ClientRuns.SettledAlways | src/client.cpp:173-505 | After every locked step: the connection fields agree, the open connection carries exactly this epoch, nothing stays queued on it, and callbacks match requests |
| ClientRuns.WireDiscipline | src/client.cpp:206-234 | On every connection the first frame is Connect and the rest is accepted by a server: versions chain from zero, request ids increase; all connections together carry each popped message once, in order; the connection held is the one opened for the current generation |
| ClientRuns.ActionOnOneConnectionOnly | src/client.cpp:154-159 | No action is put on the wire twice, on any connections |
| ClientRuns.OpenConnectionMirrorsClient | src/client.cpp:206-213 | While a connection is open, what it has carried gives the server exactly the local queries and identity, and it has carried every request in flight exactly once |
| ClientRuns.EachCallbackExactlyOnce | src/client.cpp:173-203 | Each returned request's callback is queued or run exactly once unless it is pending; after shutdown every one has run |
| ClientRuns.EachCallbackToldTheReport | src/client.cpp:309-317 | In every run the callbacks queued and run are told exactly the results the base client reported, id by id and in order; until shutdown the pending ones are those of the requests in flight, and shutdown tells the rest so |
| ClientRuns.ReconnectIsQuiet | src/base_client.cpp:183-188 | A message that forces a reconnect changes nothing and completes nothing |
| ClientLedger.TerminalAuthFailureIsFinal | src/client.cpp:277-296 | The count of AuthErrors and the fetcher follow the messages: one in a row is tolerated if a token can be fetched anew, a second, an attempted update or no fetcher is terminal; after a terminal one no later connection carries an Authenticate until set_auth |
| ClientLedger.SubscriberCountsAgree | src/client.cpp:450-479 | With each handle dropped once, a query is live exactly when callbacks are registered for it, and its count is their number |
| ClientLedger.MessageUpdatesEveryHolder | src/client.cpp:300-308 | A transition queues an update for exactly the holders of the queries its last word on which is a result, each with that result as sent; other messages queue none |
| ClientLedger.EachHolderOncePerMention | src/client.cpp:300-308 | The number of updates queued is one per modification and holder of its query, if the last word on it is a result |
| ClientEvents.EffectsBeforeCompletion | src/client.cpp:298-317 | Over a whole run, a callback telling success keeps its place among all callbacks run and queued, and every update queued until then, by its message or any before, stands before it; for a mutation, its commit timestamp is covered by the results applied (or its response had none), if and only if the message is not an ActionResponse carrying its id |
| ClientEvents.PlaceIsKept | src/client.cpp:507-549 | What one step queues keeps its place among all callbacks run and queued, whatever happens later |
| ClientEvents.SubscriberIsToldWhatIsKnown | src/client.cpp:450-465 | In every run, a new subscriber is registered under an index never used, and its first call, queued at once, is the result already known of its query, if there is one |
| ClientEvents.ListenersToldIffTerminal | src/client.cpp:281-296 | A rejected token is told to the auth-failure listeners, before the failed requests, exactly if it is terminal |
| ClientEvents.OthersTellNoListener | src/client.cpp:273-324 | No other message tells them anything |
| ClientEvents.RefusedIffStopped | src/client.cpp:481-496 | After shutdown a request is refused on the spot and does nothing else; before it none is |
| ClientEvents.ProcessingRunsTheQueue | src/client.cpp:507-515 | Processing runs the whole queue in order, and does nothing else |
| ClientChunks.ChunksFollowStream | src/client.cpp:254-275 | In every run, what the assembler holds is what handling the messages read since the last disconnect leaves |
| Paginated.PaginatedQuery.constructor | src/paginated.cpp:386-396 | One subscribed first page, from the beginning |
| Paginated.PaginatedQuery.FindPage | src/paginated.cpp:157-166 | The first page, else the first half, with the key |
| Paginated.PaginatedQuery.SubscribePage | src/paginated.cpp:183-206 | Subscribes one stored page to its own range under the current arguments and session id |
| Paginated.PaginatedQuery.DoReset | src/paginated.cpp:218-224 | A new generation and session with one first page |
| Paginated.PaginatedQuery.StartSplit | src/paginated.cpp:228-250 | Two subscribed halves with fresh keys: from the page's start to the split point, and from there to its end |
| Paginated.PaginatedQuery.AdvanceSplit | src/paginated.cpp:253-287 | A failed half abandons the split, a missing one waits; two loaded halves replace the page in place and may split again |
| Paginated.PaginatedQuery.ConsiderSplit | src/paginated.cpp:292-306 | Splits a loaded page once, when asked to or grown past twice the requested size, if it has a split point |
| Paginated.PaginatedQuery.OnPageResult | src/paginated.cpp:308-322 | Stale, stopped and unknown pages are ignored; an invalid cursor resets; otherwise the split or the page goes on; then the listener is given the new snapshot |
| Paginated.PaginatedQuery.ComputeSnapshot | src/paginated.cpp:325-367 | The items of the leading complete pages, and why the list stops there |
| Paginated.PaginatedQuery.Publish | src/paginated.cpp:371-375 | The listener, if there is one, is given the present snapshot |
| Paginated.PaginatedQuery.LoadMore | src/paginated.cpp:410-420 | Adds a page at the end of the last one, only when every page is complete and more is left, and publishes |
| Paginated.PaginatedQuery.SetArgs | src/paginated.cpp:422-431 | Resets only when the serialized arguments change, and then publishes |
| Paginated.PaginatedQuery.Reset | src/paginated.cpp:433-439 | A reset and its snapshot published, unless stopped |
| Paginated.PaginatedQuery.Stop | src/paginated.cpp:377-383 | Drops every page, split and the listener for good |
| PaginatedRuns.SoundAlways | src/paginated.cpp:228-287 | In every reachable state the first page starts at the beginning, each page starts where the one before ends, and the halves of every split cover exactly the page they replace |
| PaginatedSnapshots.SnapshotIsExact | src/paginated.cpp:325-367 | In every reachable state the published results are exactly the list up to the end of the last included page |
| PaginatedSnapshots.ExhaustedIsWholeList | src/paginated.cpp:358-367 | An exhausted snapshot is the whole list |
| PaginatedSnapshots.StatusMeans | src/paginated.cpp:325-367 | In every reachable state not stopped, by the results the server sent: the items of the finished pages in front are listed; exhausted if and only if all are finished and the last says isDone, can load more if it does not, failed with that page's error if the first page not finished is an error or no page, and loading if it has no result or must be split |
| PaginatedSnapshots.SwapKeepsResultsIff | src/paginated.cpp:269-287 | Replacing a published page by its halves leaves the results as they were if both halves are complete; otherwise they end where the first incomplete half starts, and are unchanged only if nothing lay behind that point |
| PaginatedSnapshots.SwapBehindResults | src/paginated.cpp:269-287 | Replacing a page that was not published loses no results |
| PaginatedSnapshots.CompletionSwapsIn | src/paginated.cpp:253-287 | A split whose halves have both loaded publishes what replacing its page by them gives, also when a half is split again |
| PaginatedSnapshots.ListenerIsUpToDate | src/paginated.cpp:308-322 | In every run, a listener that was told anything was last told the present snapshot |
| PaginatedSnapshots.PublishedWereCurrent | src/paginated.cpp:371-375 | Every snapshot ever published was the snapshot after some operation of the run, so what holds in every reachable state holds of it |
| PaginatedSessions.SessionFollows | src/paginated.cpp:218-224 | In every run with any server, arguments, id and generation are those of the last argument change, reset, or invalid cursor reported for a page of the session |
| PaginatedSessions.PublishesIff | src/paginated.cpp:308-439 | An operation calls on_update once, with the snapshot it leaves, if and only if it does something: a result for a live page, a page loaded, arguments changed, a reset |
| PaginatedSessions.SplitCompletes | src/paginated.cpp:253-306 | The success that leaves both halves loaded puts them in place of their page, and starts splits of exactly those halves whose own results ask for one |
| PageReadings.ParsePageReads | src/paginated.cpp:37-61 | A page is an object with a list "page", a boolean "isDone" and a string "continueCursor"; split point and status are read from "splitCursor" and "pageStatus" |
| PageReadings.InvalidCursorReads | src/paginated.cpp:67-81 | An invalid cursor is an error whose message contains "InvalidCursor", or whose data is a Convex system error with that paginationError |
| PaginatedRuns.BookkeepingHolds | src/paginated.cpp:253-306 | With any server, keys are distinct and fresh, every split in flight has its one active page, no half is being split, and the list is never empty before stop, so every lookup finds what it is for |
| PaginatedRuns.HalfResultIsInvisible | src/paginated.cpp:253-273 | A half's result that does not complete its split leaves the snapshot unchanged |
| PaginatedRuns.HalfFailureFreesOriginal | src/paginated.cpp:260-271 | A half's ordinary failure drops only its split and publishes; the page can be split again |
| PaginatedRuns.SplitStartsIff | src/paginated.cpp:292-306 | A success for an active page starts a split if and only if it has a split point and says SplitRequired or SplitRecommended, or holds over twice the requested items; the halves are subscribed from the page's start to the split point and from there to its end |
| PaginatedRuns.ResetsIff | src/paginated.cpp:308-316 | A live result starts the session over if and only if its message or system-error data says InvalidCursor: next generation, new id, same arguments, one first page of the initial size, nothing listed |
| PaginatedRuns.SetArgsIff | src/paginated.cpp:422-431 | set_args starts over with the new arguments if and only if they serialize to another text and the query is not stopped |
| PaginatedRuns.ResetStartsOver | src/paginated.cpp:218-224 | A reset leaves one first page of the initial size under the new id, and nothing listed |
| PaginatedRuns.LoadMoreKeepsResults | src/paginated.cpp:410-420 | In every state whose bookkeeping holds (every reachable one), load_more starts a page exactly when the snapshot allows it, of the size asked for and from the continueCursor the last page sent, and takes nothing from the results |
| PaginatedRuns.StaleCallbacksLeaveNoTrace | src/paginated.cpp:308-311 | A run with callbacks of earlier generations in it ends in the same state as the run without them |
| Chunks.Assembler.FeedChunk | src/protocol.cpp:339-369 | The next part extends the buffer, the last yields the decode of the whole text, anything else is rejected; all but a partial result leave it idle |
| Chunks.Assembler.Abandon | src/protocol.cpp:371-376 | Idle |
| Chunks.PingsAreIgnored | src/client.cpp:254-275 | Pings anywhere in a stream of messages make no difference to assembly |
| Chunks.CutTextIsReassembled | src/protocol.cpp:339-369 | After any stream that leaves the assembler idle, a text cut into any number of parts yields nothing until the last part, and then the decode of the whole text |
| Chunks.AssembledMeansAllParts | src/protocol.cpp:339-369 | Over any stream, an assembled result means the last messages but pings were all the parts of one split, in order |
| Base64.AlphabetIsStandard | src/detail/base64.cpp:9 | The alphabet is table 1 of RFC 4648 |
| Base64.MakeReverseTable | src/detail/base64.cpp:11-17 | The table holds each symbol's value, and -1 for every other byte |
| Base64.Encode | src/detail/base64.cpp:20-50 | Groups of three bytes as four symbols, and a padded last group |
| Base64.Decode | src/detail/base64.cpp:52-81 | The bytes the text's groups stand for, or none where the code throws |
| Base64.DecodeAfterEncode | src/detail/base64.cpp:20-81 | Decoding what was encoded gives the same bytes, for every length |
| Base64.DecodesIff | src/detail/base64.cpp:52-75 | Exactly the texts of whole groups of symbols, padded only among the last four characters and not by "=x", decode |
| Base64.EncodeAfterDecodeIff | src/detail/base64.cpp:63-80 | Re-encoding an accepted text gives it back if and only if its last group is padded as an encoder pads it |
| Base64.PaddingAloneDecodes | src/detail/base64.cpp:63-80 | "====" is accepted and stands for the same byte as "AA==" |
| WireFormat.EncodesGroups | src/detail/base64.cpp:20-50 | Each group of three bytes is written as four symbols of table 1 of RFC 4648, six bits each and high bits first, a short last group padded; the length is exact |
| WireFormat.DecodesGroups | src/detail/base64.cpp:52-81 | Each group of four characters of an accepted text stands for the three bytes of its 24-bit number, less the ones padded away |
| JsonCodec.UnpackedPacked | src/json_codec.cpp:18-44 | Every 64-bit pattern survives its eight bytes and base64 |
| WireFormat.IntegerOnWire | src/json_codec.cpp:18-44 | An integer is written as a lone "$integer": base64 of eight bytes, the kth of them its two's complement divided by 256^k, modulo 256 |
| WireFormat.IntegerFromWire | src/json_codec.cpp:74-91 | A lone "$integer" is read as the sum of its kth byte times 256^k in two's complement, and refused unless it is base64 of eight bytes |
| WireFormat.FloatOnWire | src/json_codec.cpp:46-72 | A finite double other than -0.0 is a bare number; any other is a lone "$float" of its eight bytes, lowest first, every NaN as the canonical one |
| WireFormat.FloatFromWire | src/json_codec.cpp:155-209 | A lone "$float" is read by its eight bytes, lowest first, and refused if a bare number would have done |
| WireFormat.OthersOnWire | src/json_codec.cpp:119-153 | Null, booleans and strings stand as themselves, bytes as a lone "$bytes" in base64, arrays item by item and objects field by field |
| WireFormat.EncodableIff | src/json_codec.cpp:101-117 | A value can be written if and only if every field name at every depth has 1 to 1024 characters, all from space to tilde and not "$" first |
| JsonCodec.SignedPattern | src/json_codec.cpp:74-91 | Signed integers and their 64-bit patterns correspond one to one |
| JsonCodec.ValidateFieldName | src/json_codec.cpp:101-117 | Accepts exactly non-empty printable ASCII names of at most 1024 characters without a leading "$" |
| JsonCodec.ValueToJson | src/json_codec.cpp:119-153 | Encodes if and only if every field name at every depth is allowed; the document it builds |
| JsonCodec.JsonToValue | src/json_codec.cpp:155-209 | Bare numbers are floats, a lone reserved name wraps an integer, float or bytes, retired wrappers and malformed payloads are refused |
| JsonCodec.DecodeAfterEncode | src/json_codec.cpp:119-209 | Every encodable value decodes to itself, up to NaN payloads |
| JsonCodec.EncodedAlikeIff | src/json_codec.cpp:119-153 | Two values are encoded alike if and only if they are the same up to NaN payloads |
| JsonCodec.LosslessIff | src/json_codec.cpp:155-209 | A document decodes to a value that encodes back to it, if and only if it is written as an encoder writes it |
| JsonText.DumpScans | third_party/nlohmann/json.hpp:18878-18960 | Printed JSON is balanced: outside strings it holds no bar or backslash, and it ends outside every string |
| JsonText.DumpInjective | third_party/nlohmann/json.hpp:18828-18960 | Documents of finite numbers that print alike are equal |
| JsonText.SomePrinterIsFaithful | third_party/nlohmann/json.hpp:18828-18960 | There is a printer of finite doubles that the theorems about printed text apply to |
| JsonText.SameString | third_party/nlohmann/json.hpp:19112-19210 | The escaping of strings is uniquely decodable, whatever follows the closing quote |
| JsonReading.StringReads | third_party/nlohmann/json.hpp:19112-19210 | A printed string, read as section 7 of RFC 8259 says, is the string that was printed, up to its closing quote |
| JsonReading.DumpSpelled | third_party/nlohmann/json.hpp:18828-18960 | Arrays are printed as their items between brackets with commas between, objects as quoted names, colons and fields in name order between braces, and the rest as literals, numbers and strings |
| QueryTokens.TokenDeterminesParts | src/base_client.cpp:9-12 | Equal tokens have equal paths and equal argument texts, for paths with any number of bars |
| QueryTokens.SameArgsIff | src/protocol.cpp:113-115 | Arguments serialize alike if and only if they are the same up to NaN payloads |
| QueryTokens.SameTokenIff | src/base_client.cpp:18-21 | Subscriptions have the same token if and only if canonical path and arguments are the same, up to NaN payloads |
| QueryTokens.SubscribersShareIff | src/base_client.cpp:18-50 | In every run with each handle dropped once, any two handles held at the same time name one query if and only if they were asked for the same function with the same arguments, up to NaN payloads |
| QueryTokens.HeldHandleIsServed | src/base_client.cpp:18-50 | In every run with each handle dropped once, a server that has replayed the connection evaluates for each handle held exactly the canonical path and argument text it was asked for |

## Left out

- Integer widths: ids and versions are naturals; `CountersBoundedByRun` bounds them by the length of the run, so they differ from 32-bit counters only after 2^32 operations. Timestamps are naturals and are only compared and copied.
- Log lines and their listeners, connection-state values and listeners, `info()`, kind and status names: forwarding without state of their own.
- Session ids, `client_ts`, `component_path`, URL derivation and constructor argument checks.
- Clocks, backoff delays and jitter: when the worker acts is left to the run; what it does is modelled.
- Threads finer than the lock: `deliver` runs outside the lock, and the order of callbacks across threads is not modelled.
- Immediate delivery mode and callbacks that re-enter the client from inside `subscribe`; the pumped mode is modelled.
- Destruction of dead connections (the garbage list) and of observers; a late callback is an op with a stale generation.
- A token fetcher or a user callback that throws.
- Encoding and decoding of messages other than values (`client_encoder`, `decode_*`): messages are datatypes, and the decoder of frames is an arbitrary function.
- Parsing of JSON text, and strings that are not valid UTF-8, which the printer refuses.
- Conversion of integer JSON numbers to double: the document holds the double that is read.
- Texts of codec errors: a refused document is None.
- BaseClient.BaseClient.ApplyStateModification: does not model the log entries of the update, which are passed to a listener.
- BaseClient.BaseClient.HandleTransition: does not model the log entries collected from its modifications.
- BaseClient.BaseClient.ReceiveMessage: does not model the log entries of responses and transitions.
- BaseClient.BaseClient.MakeConnectMessage: does not model the session id, a constant of the client, nor `client_ts`, a clock reading.
- Client.ClientImpl.BeginDisconnect: does not model the connection-state event, the delay until the next attempt, nor the list of dead connections.
- Client.ClientImpl.HandleOpen: does not model the connection-state event nor the time of the last server message.
- Client.ClientImpl.WsMessage: does not model log events nor the time of the last server message.
- Client.ClientImpl.HandleAuthError: one event stands for the calls of all registered auth-failure listeners.
- Client.ClientImpl.BeginConnect: does not model the deadline it waits for, nor the connecting state event; that `connect()` may call the observer synchronously is a separate op between the two halves.
- Client.ClientImpl.CheckInactivity: does not model the threshold; when a socket counts as silent is left to the run.
- Client.ClientImpl.Shutdown: its two locked sections around the join of the worker are one step; what other threads do between the two is not modelled.
- Paginated.PaginatedQuery.SubscribePage: keeps the page's options as a record next to the user's argument text instead of merging them into one object.
- Paginated.PaginatedQuery.LoadMore: refuses when the page list is empty, a test the source does not have (it reads the last page unchecked); `BookkeepingHolds` shows the list is never empty before stop, so the test never decides.
- JsonCodec.ValueToJson: does not model byte order of the host; the bytes are little-endian as on the wire.
- HTTP client, file storage and the bundled transport: I/O without protocol state.
