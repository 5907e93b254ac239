/**
 * Whole runs of the base client: any sequence of operations, with histories of what was sent,
 * returned and reported. The invariants below hold after every sequence (CoreAlways and the other lemmas named Always).
 */
module BaseClientRuns {
  import opened Wrappers
  import opened Ordering
  import opened Sequences
  import opened Values
  import opened Protocol
  import opened BaseClientSpec
  import opened SyncSession

  datatype Op =
    | Subscribing(path: string, args: Option<string>)
    | Unsubscribing(handle: SubscriberId)
    | Requesting(kind: RequestKind, path: string, args: Option<string>)
    | SettingAuth(token: AuthToken)
    | Receiving(message: ServerMessage)
    | Popping
    | Restarting(refreshed: Option<AuthToken>)
    | Connecting(reason: string)

  datatype Run = Run(
    s: State,
    sent: seq<ClientMessage>,      // popped since the last restart
    everSent: seq<ClientMessage>,  // popped over the whole run
    returned: set<RequestId>,      // request ids handed to callers
    reported: seq<Completion>)     // requests reported complete and with what result, in order

  const START := Run(INITIAL, [], [], {}, [])

  function CompletedIds(done: seq<Completion>): seq<RequestId> {
    seq(|done|, i requires 0 <= i < |done| => done[i].0)
  }

  ghost function Step(r: Run, op: Op): Run {
    match op
    case Subscribing(path, args) => r.(s := Subscribe(r.s, path, args).0)
    case Unsubscribing(handle) => r.(s := Unsubscribe(r.s, handle))
    case Requesting(kind, path, args) =>
      var (s, id) := Request(r.s, kind, path, args);
      r.(s := s, returned := if id.Some? then r.returned + {id.value} else r.returned)
    case SettingAuth(token) => r.(s := SetAuth(r.s, token))
    case Receiving(m) =>
      var (s, out) := Receive(r.s, m);
      r.(s := s, reported := r.reported + out.completed)
    case Popping =>
      var (s, m) := Pop(r.s);
      if m.None? then r.(s := s)
      else r.(s := s, sent := r.sent + [m.value], everSent := r.everSent + [m.value])
    case Restarting(refreshed) =>
      var (s, failed) := Restart(r.s, refreshed);
      r.(s := s, sent := [], reported := r.reported + failed)
    case Connecting(reason) => r.(s := MakeConnect(r.s, reason).0)
  }

  ghost function Execute(ops: seq<Op>): Run {
    if ops == [] then START else Step(Execute(ops[..|ops| - 1]), ops[|ops| - 1])
  }

  // ---- Invariants -----------------------------------------------------

  ghost predicate RequestsWellFormed(s: State) {
    forall id :: id in s.ongoing ==>
      var req := s.ongoing[id];
      && id < s.nextRequestId
      && req.message.IsRequest() && req.message.id == id
      && (req.kind.ActionKind? <==> req.message.ActionRequest?)
  }

  /** The desired query set, as the server should hold it. */
  ghost function LocalQueries(s: State): map<QueryId, Query> {
    map id | id in s.idToToken && s.idToToken[id] in s.querySet
      :: Query(s.querySet[s.idToToken[id]].udfPath, s.querySet[s.idToToken[id]].argsJson)
  }

  /** Everything the current connection carries: sent, then still queued. */
  function Stream(r: Run): seq<ClientMessage> { r.sent + r.s.outgoing }

  /** The server, having accepted the stream, holds exactly the client's local state. */
  ghost predicate Mirrors(session: Session, s: State) {
    && session.querySet == s.querySetVersion
    && session.identity == s.identityVersion
    && session.queries == LocalQueries(s)
    && session.auth == s.auth
    && session.nextRequest <= s.nextRequestId
  }

  ghost predicate Replicated(r: Run) {
    Replay(Stream(r)).Some? && Mirrors(Replay(Stream(r)).value, r.s)
  }

  /** Every request in flight has its message on the current connection's stream. */
  ghost predicate Carried(r: Run) {
    forall id :: id in r.s.ongoing ==> r.s.ongoing[id].message in Stream(r)
  }

  ghost predicate Core(r: Run) {
    && (r.s.auth.Some? ==> !r.s.auth.value.NoToken?)
    && IndexesAgree(r.s) && RequestsWellFormed(r.s) && Replicated(r) && Carried(r)
  }

  // ---- What applying server modifications leaves alone ------------------

  ghost predicate SameQueries(before: State, after: State) {
    && after.querySet.Keys == before.querySet.Keys
    && (forall t :: t in before.querySet ==>
          after.querySet[t] == before.querySet[t].(journal := after.querySet[t].journal))
    && after == before.(querySet := after.querySet, remoteResults := after.remoteResults,
                        outstanding := after.outstanding)
  }

  lemma {:induction false} ApplyKeepsQueries(s: State, mods: seq<StateModification>)
    ensures SameQueries(s, ApplyModifications(s, mods))
  {
    if mods != [] {
      ApplyKeepsQueries(s, mods[..|mods| - 1]);
    }
  }

  lemma SameQueriesSameReplica(before: State, after: State)
    requires SameQueries(before, after)
    ensures LocalQueries(after) == LocalQueries(before)
  {
  }

  lemma TransitionFrame(s: State, m: ServerMessage)
    requires m.Transition? && m.start == s.remoteVersion
    ensures var s1 := Receive(s, m).0;
            && LocalQueries(s1) == LocalQueries(s)
            && s1 == s.(querySet := s1.querySet, remoteResults := s1.remoteResults, outstanding := s1.outstanding,
                        remoteVersion := m.end, maxObserved := s1.maxObserved,
                        ongoing := s.ongoing - DueIds(s.ongoing, m.end.ts))
            && (IndexesAgree(s) ==> IndexesAgree(s1))
  {
    var s1 := ApplyModifications(s, m.modifications);
    ApplyKeepsQueries(s, m.modifications);
    SameQueriesSameReplica(s, s1);
    assert LocalQueries(Receive(s, m).0) == LocalQueries(s1);
    if IndexesAgree(s) { ApplyModificationsKeepsIndexes(s, m.modifications); }
  }

  lemma ResponseFrame(s: State, m: ServerMessage)
    requires !m.Transition?
    ensures var s1 := Receive(s, m).0;
            && s1 == s.(maxObserved := s1.maxObserved, ongoing := s1.ongoing)
            && s1.ongoing.Keys <= s.ongoing.Keys
            && (forall id :: id in s1.ongoing ==> s1.ongoing[id] == s.ongoing[id].(held := s1.ongoing[id].held))
  {
  }

  /** Receive changes only results, journals, versions and requests; it sends nothing. */
  lemma ReceiveFrame(s: State, m: ServerMessage)
    ensures var s1 := Receive(s, m).0;
            && LocalQueries(s1) == LocalQueries(s)
            && s1 == s.(querySet := s1.querySet, remoteResults := s1.remoteResults, outstanding := s1.outstanding,
                        remoteVersion := s1.remoteVersion, maxObserved := s1.maxObserved, ongoing := s1.ongoing)
            && s1.ongoing.Keys <= s.ongoing.Keys
            && (forall id :: id in s1.ongoing ==> s1.ongoing[id] == s.ongoing[id].(held := s1.ongoing[id].held))
            && (IndexesAgree(s) ==> IndexesAgree(s1))
  {
    if m.Transition? {
      if m.start == s.remoteVersion { TransitionFrame(s, m); }
    } else {
      ResponseFrame(s, m);
      assert LocalQueries(Receive(s, m).0) == LocalQueries(s);
    }
  }

  // ---- Core: one lemma per kind of step ---------------------------------

  lemma ModifyOne(queries: map<QueryId, Query>, mod: QueryModification)
    ensures ModifyAll(queries, [mod]) == Modify(queries, mod)
  {
    assert [mod][..0] == [];
  }

  lemma ModifyNext(queries: map<QueryId, Query>, mods: seq<QueryModification>, mod: QueryModification)
    ensures ModifyAll(queries, mods + [mod])
            == var before := ModifyAll(queries, mods); if before.None? then None else Modify(before.value, mod)
  {
    assert (mods + [mod])[..|mods|] == mods;
  }

  /** Queueing one more message that the server will accept, and that brings its state in line with ours. */
  lemma EnqueueCore(r: Run, s1: State, m: ClientMessage)
    requires Core(r) && s1.outgoing == r.s.outgoing + [m]
    requires IndexesAgree(s1) && RequestsWellFormed(s1) && (s1.auth.Some? ==> !s1.auth.value.NoToken?)
    requires var session := Accept(Replay(Stream(r)).value, m); session.Some? && Mirrors(session.value, s1)
    requires forall id :: id in s1.ongoing ==>
               s1.ongoing[id].message == m || (id in r.s.ongoing && s1.ongoing[id].message == r.s.ongoing[id].message)
    ensures Core(r.(s := s1))
  {
    assert r.sent + s1.outgoing == Stream(r) + [m];
    ReplayNext(Stream(r), m);
    forall id | id in s1.ongoing
      ensures s1.ongoing[id].message in Stream(r) + [m]
    {
      if s1.ongoing[id].message != m { assert id in r.s.ongoing; }
    }
  }

  lemma AddQueryReplica(s: State, token: string, udfPath: string, argsJson: string)
    requires IndexesAgree(s) && token !in s.querySet
    ensures s.nextQueryId !in LocalQueries(s)
    ensures LocalQueries(AddQuery(s, token, udfPath, argsJson))
            == LocalQueries(s)[s.nextQueryId := Query(udfPath, argsJson)]
  {
  }

  lemma AddQueryMirrors(session: Session, s: State, token: string, udfPath: string, argsJson: string)
    requires IndexesAgree(s) && Mirrors(session, s) && token !in s.querySet
    ensures var s1 := AddQuery(s, token, udfPath, argsJson);
            var after := Accept(session, s1.outgoing[|s.outgoing|]);
            after.Some? && Mirrors(after.value, s1)
  {
    ModifyOne(LocalQueries(s), Add(s.nextQueryId, udfPath, argsJson, None));
    AddQueryReplica(s, token, udfPath, argsJson);
  }

  lemma LocalQueriesDrop(s: State, id: QueryId)
    requires IndexesAgree(s) && id in s.idToToken
    ensures LocalQueries(DropQuery(s, id, s.idToToken[id])) == LocalQueries(s) - {id}
  {
    hide Token;
  }

  lemma DropQueryMirrors(session: Session, s: State, id: QueryId)
    requires IndexesAgree(s) && Mirrors(session, s) && id in s.idToToken
    ensures var s1 := DropQuery(s, id, s.idToToken[id]);
            var after := Accept(session, s1.outgoing[|s.outgoing|]);
            after.Some? && Mirrors(after.value, s1)
  {
    var s1 := DropQuery(s, id, s.idToToken[id]);
    hide Token;
    ModifyOne(LocalQueries(s), Remove(id));
    LocalQueriesDrop(s, id);
  }

  /** A step that leaves the stream, the versions, the desired queries and the requests alone. */
  lemma QuietCore(r: Run, s1: State)
    requires Core(r) && IndexesAgree(s1) && LocalQueries(s1) == LocalQueries(r.s)
    requires s1 == r.s.(querySet := s1.querySet, nextSubscriptionIndex := s1.nextSubscriptionIndex,
                        nextRequestId := s1.nextRequestId, connectionCount := s1.connectionCount)
    requires s1.nextRequestId >= r.s.nextRequestId
    ensures Core(r.(s := s1))
  {
    assert Stream(r.(s := s1)) == Stream(r);
  }

  lemma ShareQueryCore(r: Run, token: string)
    requires Core(r) && token in r.s.querySet
    ensures Core(r.(s := ShareQuery(r.s, token)))
  {
    var s1 := ShareQuery(r.s, token);
    assert s1.idToToken == r.s.idToToken;
    assert LocalQueries(s1) == LocalQueries(r.s);
    QuietCore(r, s1);
  }

  lemma SubscribeCore(r: Run, path: string, args: Option<string>)
    requires Core(r)
    ensures Core(Step(r, Subscribing(path, args)))
  {
    if args.Some? {
      var udfPath := Canonicalize(path);
      var token := Token(udfPath, args.value);
      if token in r.s.querySet {
        ShareQueryCore(r, token);
      } else {
        var s1 := AddQuery(r.s, token, udfPath, args.value);
        AddQueryKeepsIndexes(r.s, token, udfPath, args.value);
        AddQueryMirrors(Replay(Stream(r)).value, r.s, token, udfPath, args.value);
        EnqueueCore(r, s1, s1.outgoing[|r.s.outgoing|]);
      }
    }
  }

  lemma UnsubscribeCore(r: Run, handle: SubscriberId)
    requires Core(r)
    ensures Core(Step(r, Unsubscribing(handle)))
  {
    hide Replay, Accept, Token;
    UnsubscribeKeepsIndexes(r.s, handle);
    var s1, id := Unsubscribe(r.s, handle), handle.query;
    if id in r.s.idToToken {
      if r.s.querySet[r.s.idToToken[id]].numSubscribers > 1 {
        assert LocalQueries(s1) == LocalQueries(r.s);
        QuietCore(r, s1);
      } else {
        DropQueryMirrors(Replay(Stream(r)).value, r.s, id);
        EnqueueCore(r, s1, s1.outgoing[|r.s.outgoing|]);
      }
    }
  }

  lemma AddRequestCore(r: Run, kind: RequestKind, m: ClientMessage)
    requires Core(r) && m.IsRequest() && m.id == r.s.nextRequestId
    requires kind.ActionKind? <==> m.ActionRequest?
    ensures Core(r.(s := AddRequest(r.s, kind, m)))
  {
    var s1 := AddRequest(r.s, kind, m);
    assert LocalQueries(s1) == LocalQueries(r.s);
    EnqueueCore(r, s1, m);
  }

  lemma RequestCore(r: Run, kind: RequestKind, path: string, args: Option<string>)
    requires Core(r)
    ensures Core(Step(r, Requesting(kind, path, args)))
  {
    var s1 := Request(r.s, kind, path, args).0;
    if args.Some? {
      AddRequestCore(r, kind, RequestMessage(kind, r.s.nextRequestId, path, args.value));
    } else {
      assert LocalQueries(s1) == LocalQueries(r.s);
      QuietCore(r, s1);
    }
    SameStreamCore(r.(s := s1), Step(r, Requesting(kind, path, args)));
  }

  /** Core looks at the stream as a whole, and at no other history. */
  lemma SameStreamCore(r: Run, r1: Run)
    requires Core(r) && r1.s == r.s.(outgoing := r1.s.outgoing) && Stream(r1) == Stream(r)
    ensures Core(r1)
  {
    assert LocalQueries(r1.s) == LocalQueries(r.s);
  }

  lemma SetAuthCore(r: Run, token: AuthToken)
    requires Core(r)
    ensures Core(Step(r, SettingAuth(token)))
  {
    var s1 := SetAuth(r.s, token);
    assert LocalQueries(s1) == LocalQueries(r.s);
    EnqueueCore(r, s1, Authenticate(r.s.identityVersion, token));
  }

  lemma ReceiveCore(r: Run, m: ServerMessage)
    requires Core(r)
    ensures Core(Step(r, Receiving(m)))
  {
    ReceiveFrame(r.s, m);
    var s1 := Receive(r.s, m).0;
    assert Stream(r.(s := s1)) == Stream(r);
    forall id | id in s1.ongoing
      ensures s1.ongoing[id].message in Stream(r)
    {
      assert id in r.s.ongoing;
    }
  }

  lemma MovedAcross(sent: seq<ClientMessage>, queue: seq<ClientMessage>)
    requires queue != []
    ensures (sent + [queue[0]]) + queue[1..] == sent + queue
  {
  }

  lemma PopCore(r: Run)
    requires Core(r)
    ensures Core(Step(r, Popping))
    ensures Stream(Step(r, Popping)) == Stream(r)
  {
    if r.s.outgoing != [] {
      MovedAcross(r.sent, r.s.outgoing);
      SameStreamCore(r, Step(r, Popping));
    }
  }

  lemma ConnectCore(r: Run, reason: string)
    requires Core(r)
    ensures Core(Step(r, Connecting(reason)))
  {
    assert LocalQueries(Step(r, Connecting(reason)).s) == LocalQueries(r.s);
  }

  // Restart: the rebuilt queue, replayed from a fresh session, gives the local state.

  /** `queries` holds exactly the live queries named by `tokens`. */
  ghost predicate Restored(s: State, tokens: seq<string>, queries: map<QueryId, Query>) {
    && (forall t :: t in tokens ==> t in s.querySet && s.querySet[t].id in queries)
    && (forall id :: id in queries ==>
          && id in s.idToToken && s.idToToken[id] in tokens && s.idToToken[id] in s.querySet
          && queries[id] == Query(s.querySet[s.idToToken[id]].udfPath, s.querySet[s.idToToken[id]].argsJson))
  }

  lemma RestoreOneMore(s: State, tokens: seq<string>, t: string, queries: map<QueryId, Query>)
    requires IndexesAgree(s) && Restored(s, tokens, queries) && t in s.querySet && t !in tokens
    ensures var q := s.querySet[t];
            var after := Modify(queries, Add(q.id, q.udfPath, q.argsJson, q.journal));
            after.Some? && Restored(s, tokens + [t], after.value)
  {
    assert s.idToToken[s.querySet[t].id] == t;
    assert forall u :: u in tokens + [t] <==> u in tokens || u == t;
  }

  /** `queries` is what accepting the Adds for `tokens` gives, and holds exactly their queries. */
  ghost predicate RestoredBy(s: State, tokens: seq<string>, queries: Option<map<QueryId, Query>>)
    requires forall t :: t in tokens ==> t in s.querySet
  {
    queries == ModifyAll(map[], Adds(s.querySet, tokens)) && queries.Some? && Restored(s, tokens, queries.value)
  }

  lemma AddsNext(querySet: map<string, LocalQuery>, tokens: seq<string>, t: string)
    requires t in querySet && forall u :: u in tokens ==> u in querySet
    ensures var q := querySet[t];
            Adds(querySet, tokens + [t]) == Adds(querySet, tokens) + [Add(q.id, q.udfPath, q.argsJson, q.journal)]
  {
  }

  lemma AddsRestoreNext(s: State, tokens: seq<string>, t: string, before: Option<map<QueryId, Query>>)
    requires IndexesAgree(s) && t in s.querySet && t !in tokens && forall u :: u in tokens ==> u in s.querySet
    requires RestoredBy(s, tokens, before)
    ensures RestoredBy(s, tokens + [t], ModifyAll(map[], Adds(s.querySet, tokens + [t])))
  {
    hide Restored, Adds, Modify, ModifyAll, IndexesAgree;
    var q := s.querySet[t];
    var add := Add(q.id, q.udfPath, q.argsJson, q.journal);
    RestoreOneMore(s, tokens, t, before.value);
    ModifyNext(map[], Adds(s.querySet, tokens), add);
    AddsNext(s.querySet, tokens, t);
  }

  lemma NothingToRestore(s: State)
    ensures RestoredBy(s, [], ModifyAll(map[], Adds(s.querySet, [])))
  {
    assert Adds(s.querySet, []) == [];
  }

  /** The Adds for distinct live queries are all accepted, and restore exactly those queries. */
  lemma {:induction false} AddsRestore(s: State, tokens: seq<string>)
    requires IndexesAgree(s) && forall t :: t in tokens ==> t in s.querySet
    requires forall i, j :: 0 <= i < j < |tokens| ==> tokens[i] != tokens[j]
    ensures RestoredBy(s, tokens, ModifyAll(map[], Adds(s.querySet, tokens)))
  {
    hide *;
    if tokens == [] {
      NothingToRestore(s);
    } else {
      var init, t := tokens[..|tokens| - 1], tokens[|tokens| - 1];
      assert forall u :: u in init ==> u in tokens;
      AddsRestore(s, init);
      AddsRestoreNext(s, init, t, ModifyAll(map[], Adds(s.querySet, init)));
      assert init + [t] == tokens;
    }
  }

  lemma RestoredAll(s: State, tokens: seq<string>, queries: map<QueryId, Query>)
    requires IndexesAgree(s) && Restored(s, tokens, queries) && forall t :: t in s.querySet ==> t in tokens
    ensures queries == LocalQueries(s)
  {
    forall id | id in LocalQueries(s)
      ensures id in queries
    {
      assert s.idToToken[id] in tokens;
    }
  }

  lemma RebuiltAuthReplays(auth: Option<AuthToken>)
    requires auth.Some? ==> !auth.value.NoToken?
    ensures Replay(AuthMessages(auth)) == Some(Session(0, |AuthMessages(auth)|, map[], auth, 0))
  {
    if auth.Some? {
      ReplayNext([], Authenticate(0, auth.value));
      assert [] + [Authenticate(0, auth.value)] == AuthMessages(auth);
    }
  }

  lemma RebuiltQueriesAccepted(session: Session, s: State, m: ClientMessage)
    requires IndexesAgree(s) && session.querySet == 0 && session.queries == map[]
    requires m == ModifyQuerySet(0, 1, Adds(s.querySet, SortedStrings(s.querySet.Keys)))
    ensures Accept(session, m) == Some(session.(querySet := 1, queries := LocalQueries(s)))
  {
    var tokens := SortedStrings(s.querySet.Keys);
    AddsRestore(s, tokens);
    RestoredAll(s, tokens, ModifyAll(map[], Adds(s.querySet, tokens)).value);
  }

  lemma RebuiltQueriesReplay(messages: seq<ClientMessage>, s: State, session: Session)
    requires IndexesAgree(s) && Replay(messages) == Some(session) && session.querySet == 0 && session.queries == map[]
    ensures Replay(messages + QuerySetMessages(s.querySet))
            == Some(session.(querySet := |QuerySetMessages(s.querySet)|, queries := LocalQueries(s)))
  {
    var rebuilt := QuerySetMessages(s.querySet);
    if s.querySet == map[] {
      assert messages + rebuilt == messages;
      assert LocalQueries(s) == map[];
    } else {
      RebuiltQueriesAccepted(session, s, rebuilt[0]);
      assert rebuilt == [rebuilt[0]];
      ReplayNext(messages, rebuilt[0]);
    }
  }

  /** What restart queues again: every surviving request once, in order. */
  lemma ResentInOrder(ongoing: map<RequestId, PendingRequest>, next: RequestId)
    requires forall id :: id in ongoing ==>
               id < next && ongoing[id].message.IsRequest() && ongoing[id].message.id == id
    ensures var requests := ResentRequests(ongoing);
            && IsRequestStream(requests)
            && (forall m :: m in requests ==> m.id < next && m.id in ongoing && m == ongoing[m.id].message)
            && (forall id :: id in ongoing ==> ongoing[id].message in requests)
  {
    var ids, requests := SortedIds(ongoing.Keys), ResentRequests(ongoing);
    forall k | 0 <= k < |ids|
      ensures requests[k].id == ids[k] && requests[k].IsRequest() && requests[k] == ongoing[ids[k]].message
    {
      assert ids[k] in ids;
    }
    forall id | id in ongoing
      ensures ongoing[id].message in requests
    {
      assert id in ids;
      var k :| 0 <= k < |ids| && ids[k] == id;
      assert requests[k] == ongoing[id].message;
    }
  }

  lemma RestartReplicates(s: State, refreshed: Option<AuthToken>)
    requires IndexesAgree(s) && RequestsWellFormed(s) && (s.auth.Some? ==> !s.auth.value.NoToken?)
    ensures var s1 := Restart(s, refreshed).0;
            && Replay(s1.outgoing).Some? && Mirrors(Replay(s1.outgoing).value, s1)
            && (forall id :: id in s1.ongoing ==> s1.ongoing[id].message in s1.outgoing)
  {
    hide Replay, ResentRequests, QuerySetMessages, LostActions, UnsentActions, IndexesAgree;
    var s1 := Restart(s, refreshed).0;
    var head := AuthMessages(s1.auth) + QuerySetMessages(s.querySet);
    RebuiltAuthReplays(s1.auth);
    RebuiltQueriesReplay(AuthMessages(s1.auth), s, Replay(AuthMessages(s1.auth)).value);
    ResentInOrder(s1.ongoing, s.nextRequestId);
    ReplayRequests(head, ResentRequests(s1.ongoing));
    assert LocalQueries(s1) == LocalQueries(s);
  }

  lemma RestartKeeps(s: State, refreshed: Option<AuthToken>)
    requires IndexesAgree(s) && RequestsWellFormed(s) && (s.auth.Some? ==> !s.auth.value.NoToken?)
    ensures var s1 := Restart(s, refreshed).0;
            IndexesAgree(s1) && RequestsWellFormed(s1) && (s1.auth.Some? ==> !s1.auth.value.NoToken?)
  {
  }

  /** A state whose queue alone, on a new connection, carries everything. */
  ghost predicate SelfContained(s: State) {
    && IndexesAgree(s) && RequestsWellFormed(s) && (s.auth.Some? ==> !s.auth.value.NoToken?)
    && Replay(s.outgoing).Some? && Mirrors(Replay(s.outgoing).value, s)
    && (forall id :: id in s.ongoing ==> s.ongoing[id].message in s.outgoing)
  }

  lemma RestartSelfContained(s: State, refreshed: Option<AuthToken>)
    requires IndexesAgree(s) && RequestsWellFormed(s) && (s.auth.Some? ==> !s.auth.value.NoToken?)
    ensures SelfContained(Restart(s, refreshed).0)
  {
    RestartReplicates(s, refreshed);
    RestartKeeps(s, refreshed);
  }

  lemma FreshStreamCore(r: Run)
    requires r.sent == [] && SelfContained(r.s)
    ensures Core(r)
  {
    assert Stream(r) == r.s.outgoing;
  }

  lemma RestartCore(r: Run, refreshed: Option<AuthToken>)
    requires Core(r)
    ensures Core(Step(r, Restarting(refreshed)))
  {
    hide SelfContained, Replicated, Carried, Restart;
    RestartSelfContained(r.s, refreshed);
    FreshStreamCore(Step(r, Restarting(refreshed)));
  }

  lemma CoreStep(r: Run, op: Op)
    requires Core(r)
    ensures Core(Step(r, op))
  {
    match op
    case Subscribing(path, args) => SubscribeCore(r, path, args);
    case Unsubscribing(handle) => UnsubscribeCore(r, handle);
    case Requesting(kind, path, args) => RequestCore(r, kind, path, args);
    case SettingAuth(token) => SetAuthCore(r, token);
    case Receiving(m) => ReceiveCore(r, m);
    case Popping => PopCore(r);
    case Restarting(refreshed) => RestartCore(r, refreshed);
    case Connecting(reason) => ConnectCore(r, reason);
  }

  lemma {:induction false} CoreAlways(ops: seq<Op>)
    ensures Core(Execute(ops))
  {
    if ops != [] {
      CoreAlways(ops[..|ops| - 1]);
      CoreStep(Execute(ops[..|ops| - 1]), ops[|ops| - 1]);
    }
  }

  // ---- Theorem: the server's replica ------------------------------------

  /**
   * After any operations, server messages and restarts in any order, a server that accepts what the
   * current connection has carried and still will carry ends up with the local query set and identity.
   */
  lemma ServerReplica(ops: seq<Op>)
    ensures var r := Execute(ops);
            var session := Replay(r.sent + r.s.outgoing);
            && session.Some?
            && session.value.queries == LocalQueries(r.s)
            && session.value.auth == r.s.auth
            && session.value.querySet == r.s.querySetVersion
            && session.value.identity == r.s.identityVersion
            && Replay(r.sent).Some?
  {
    CoreAlways(ops);
    var r := Execute(ops);
    ReplayPrefix(Stream(r), |r.sent|);
    assert Stream(r)[..|r.sent|] == r.sent;
  }

  /** Each request in flight is on the current connection's stream at exactly one place, as first built. */
  lemma EachRequestCarriedOnce(ops: seq<Op>, id: RequestId)
    requires id in Execute(ops).s.ongoing
    ensures var r := Execute(ops);
            exists k :: 0 <= k < |Stream(r)| && Stream(r)[k] == r.s.ongoing[id].message
              && forall j :: 0 <= j < |Stream(r)| && Stream(r)[j].IsRequest() && Stream(r)[j].id == id ==> j == k
  {
    CoreAlways(ops);
    var r := Execute(ops);
    var m := r.s.ongoing[id].message;
    var k :| 0 <= k < |Stream(r)| && Stream(r)[k] == m;
    forall j | 0 <= j < |Stream(r)| && Stream(r)[j].IsRequest() && Stream(r)[j].id == id
      ensures j == k
    {
      if j < k { RequestIdsIncrease(Stream(r), j, k); }
      if k < j { RequestIdsIncrease(Stream(r), k, j); }
    }
  }

  // ---- Theorem: an action goes on the wire at most once -------------------

  function ActionIds(messages: seq<ClientMessage>): set<RequestId> {
    set m | m in messages && m.ActionRequest? :: m.id
  }

  ghost predicate ActionsOnce(r: Run) {
    && (forall id :: id in ActionIds(r.everSent) ==> id < r.s.nextRequestId)
    && (forall i, j :: 0 <= i < j < |r.everSent| && r.everSent[i].ActionRequest? && r.everSent[j].ActionRequest?
          ==> r.everSent[i].id != r.everSent[j].id)
    && ActionIds(r.s.outgoing) !! ActionIds(r.everSent)
  }

  lemma ActionIdsAppend(messages: seq<ClientMessage>, m: ClientMessage)
    ensures ActionIds(messages + [m]) == ActionIds(messages) + if m.ActionRequest? then {m.id} else {}
  {
    assert forall x :: x in messages + [m] <==> x in messages || x == m;
  }

  /** A step that sends nothing and queues at most one message, whose id is new if it is an action. */
  lemma QueueKeepsActionsOnce(r: Run, r1: Run)
    requires ActionsOnce(r) && r1.everSent == r.everSent && r1.s.nextRequestId >= r.s.nextRequestId
    requires r1.s.outgoing == r.s.outgoing
             || (|r1.s.outgoing| == |r.s.outgoing| + 1 && r1.s.outgoing[..|r.s.outgoing|] == r.s.outgoing
                 && (r1.s.outgoing[|r.s.outgoing|].ActionRequest?
                     ==> r1.s.outgoing[|r.s.outgoing|].id >= r.s.nextRequestId))
    ensures ActionsOnce(r1)
  {
    if r1.s.outgoing != r.s.outgoing {
      var m := r1.s.outgoing[|r.s.outgoing|];
      assert r1.s.outgoing == r.s.outgoing + [m];
      ActionIdsAppend(r.s.outgoing, m);
    }
  }

  /** Requests later on the stream than the message at `n` are numbered above it. */
  lemma LaterRequests(messages: seq<ClientMessage>, n: nat)
    requires Replay(messages).Some? && n < |messages| && messages[n].IsRequest()
    ensures forall x :: x in messages[n + 1..] && x.IsRequest() ==> x.id > messages[n].id
  {
    var rest := messages[n + 1..];
    forall x | x in rest && x.IsRequest()
      ensures x.id > messages[n].id
    {
      var k :| 0 <= k < |rest| && rest[k] == x;
      RequestIdsIncrease(messages, n, n + 1 + k);
    }
  }

  /** The head of the queue is a request numbered below the next id, and later requests are numbered above it. */
  lemma QueueHead(r: Run)
    requires Core(r) && r.s.outgoing != [] && r.s.outgoing[0].IsRequest()
    ensures r.s.outgoing[0].id < r.s.nextRequestId
    ensures forall x :: x in r.s.outgoing[1..] && x.IsRequest() ==> x.id > r.s.outgoing[0].id
  {
    LaterRequests(Stream(r), |r.sent|);
    assert Stream(r)[|r.sent|] == r.s.outgoing[0] && Stream(r)[|r.sent| + 1..] == r.s.outgoing[1..];
    RequestBelowNext(Stream(r), |r.sent|);
  }

  lemma PopKeepsActionsOnce(r: Run)
    requires Core(r) && ActionsOnce(r) && r.s.outgoing != []
    ensures ActionsOnce(Step(r, Popping))
  {
    var m, rest := r.s.outgoing[0], r.s.outgoing[1..];
    ActionIdsAppend(r.everSent, m);
    assert forall x :: x in rest ==> x in r.s.outgoing;
    if m.ActionRequest? {
      QueueHead(r);
      assert m.id in ActionIds(r.s.outgoing);
    }
  }

  lemma RestartQueuesOnlyUnsentActions(s: State, refreshed: Option<AuthToken>)
    requires RequestsWellFormed(s)
    ensures ActionIds(Restart(s, refreshed).0.outgoing) <= ActionIds(s.outgoing)
  {
    var s1 := Restart(s, refreshed).0;
    ResentInOrder(s1.ongoing, s.nextRequestId);
    forall m | m in s1.outgoing && m.ActionRequest?
      ensures m.id in ActionIds(s.outgoing)
    {
      assert m in ResentRequests(s1.ongoing);
    }
  }

  lemma RestartKeepsActionsOnce(r: Run, refreshed: Option<AuthToken>)
    requires Core(r) && ActionsOnce(r)
    ensures ActionsOnce(Step(r, Restarting(refreshed)))
  {
    RestartQueuesOnlyUnsentActions(r.s, refreshed);
    var r1 := Step(r, Restarting(refreshed));
    assert r1.everSent == r.everSent && r1.s.nextRequestId == r.s.nextRequestId;
  }

  lemma LocalOpKeepsActionsOnce(r: Run, op: Op)
    requires ActionsOnce(r) && !op.Receiving? && !op.Popping? && !op.Restarting?
    ensures ActionsOnce(Step(r, op))
  {
    var r1 := Step(r, op);
    assert r1.s.outgoing == r.s.outgoing || r1.s.outgoing == r.s.outgoing + [r1.s.outgoing[|r.s.outgoing|]];
    QueueKeepsActionsOnce(r, r1);
  }

  lemma ActionsOnceStep(r: Run, op: Op)
    requires Core(r) && ActionsOnce(r)
    ensures ActionsOnce(Step(r, op))
  {
    if op.Popping? {
      if r.s.outgoing != [] { PopKeepsActionsOnce(r); }
    } else if op.Restarting? {
      RestartKeepsActionsOnce(r, op.refreshed);
    } else if op.Receiving? {
      ReceiveFrame(r.s, op.message);
      QueueKeepsActionsOnce(r, Step(r, op));
    } else {
      LocalOpKeepsActionsOnce(r, op);
    }
  }

  lemma {:induction false} ActionsOnceAlways(ops: seq<Op>)
    ensures ActionsOnce(Execute(ops))
  {
    if ops != [] {
      var init := ops[..|ops| - 1];
      CoreAlways(init);
      ActionsOnceAlways(init);
      ActionsOnceStep(Execute(init), ops[|ops| - 1]);
    }
  }

  /** Over any run, with any server messages and any number of restarts, no action is transmitted twice. */
  lemma ActionSentAtMostOnce(ops: seq<Op>, i: nat, j: nat)
    requires var sent := Execute(ops).everSent;
             i < |sent| && j < |sent| && sent[i].ActionRequest? && sent[j].ActionRequest? && sent[i].id == sent[j].id
    ensures i == j
  {
    ActionsOnceAlways(ops);
  }

  // ---- Theorem: every returned request is reported exactly once -----------

  function ReportedIds(r: Run): seq<RequestId> { CompletedIds(r.reported) }

  ghost predicate Conserved(r: Run) {
    && (forall id :: id in r.returned <==> id in r.s.ongoing || id in ReportedIds(r))
    && (forall id :: id in r.s.ongoing ==> id !in ReportedIds(r))
    && (forall id :: id in r.returned ==> id < r.s.nextRequestId)
    && Distinct(ReportedIds(r))
  }

  /** `done` lists, each once, exactly the requests that left `before` on the way to `after`. */
  ghost predicate Drained(before: map<RequestId, PendingRequest>, done: seq<Completion>,
                          after: map<RequestId, PendingRequest>) {
    && Distinct(CompletedIds(done))
    && (forall id :: id in before <==> id in after || id in CompletedIds(done))
    && (forall id :: id in after ==> id !in CompletedIds(done))
  }

  lemma FlushDrains(ongoing: map<RequestId, PendingRequest>, watermark: Timestamp)
    ensures Drained(ongoing, Flushed(ongoing, watermark), ongoing - DueIds(ongoing, watermark))
  {
    assert CompletedIds(Flushed(ongoing, watermark)) == SortedIds(DueIds(ongoing, watermark));
  }

  lemma OneDrains(ongoing: map<RequestId, PendingRequest>, id: RequestId, result: FunctionResult)
    requires id in ongoing
    ensures Drained(ongoing, [(id, result)], ongoing - {id})
  {
    assert CompletedIds([(id, result)]) == [id];
  }

  lemma ReceiveDrains(s: State, m: ServerMessage)
    ensures var (s1, out) := Receive(s, m); Drained(s.ongoing, out.completed, s1.ongoing)
  {
    if m.Transition? {
      if m.start == s.remoteVersion {
        ApplyKeepsQueries(s, m.modifications);
        FlushDrains(s.ongoing, m.end.ts);
      }
    } else if m.MutationResponse? && m.id in s.ongoing && m.result.Success? && m.ts.Some? {
      var held := s.ongoing[m.id := s.ongoing[m.id].(held := Some(Held(m.ts.value, m.result)))];
      FlushDrains(held, s.remoteVersion.ts);
      assert held.Keys == s.ongoing.Keys;
    } else if (m.MutationResponse? || m.ActionResponse?) && m.id in s.ongoing {
      OneDrains(s.ongoing, m.id, m.result);
    }
  }

  lemma RestartDrains(s: State, refreshed: Option<AuthToken>)
    ensures var (s1, failed) := Restart(s, refreshed); Drained(s.ongoing, failed, s1.ongoing)
  {
    var lost := LostActions(s.ongoing, UnsentActions(s.outgoing));
    assert CompletedIds(Failures(SortedIds(lost))) == SortedIds(lost);
  }

  lemma CompletedIdsConcat(a: seq<Completion>, b: seq<Completion>)
    ensures CompletedIds(a + b) == CompletedIds(a) + CompletedIds(b)
  {
  }

  lemma DrainKeepsConserved(r: Run, r1: Run, done: seq<Completion>)
    requires Conserved(r) && Drained(r.s.ongoing, done, r1.s.ongoing)
    requires r1.returned == r.returned && r1.reported == r.reported + done
    requires r1.s.nextRequestId == r.s.nextRequestId
    ensures Conserved(r1)
  {
    CompletedIdsConcat(r.reported, done);
    DistinctConcat(ReportedIds(r), CompletedIds(done));
  }

  lemma RequestKeepsConserved(r: Run, kind: RequestKind, path: string, args: Option<string>)
    requires Conserved(r) && RequestsWellFormed(r.s)
    ensures Conserved(Step(r, Requesting(kind, path, args)))
  {
    var s1 := Request(r.s, kind, path, args).0;
    assert s1.nextRequestId == r.s.nextRequestId + 1;
  }

  lemma ConservedStep(r: Run, op: Op)
    requires Conserved(r) && RequestsWellFormed(r.s)
    ensures Conserved(Step(r, op))
  {
    var r1 := Step(r, op);
    if op.Receiving? {
      ReceiveDrains(r.s, op.message);
      ReceiveFrame(r.s, op.message);
      DrainKeepsConserved(r, r1, Receive(r.s, op.message).1.completed);
    } else if op.Restarting? {
      RestartDrains(r.s, op.refreshed);
      DrainKeepsConserved(r, r1, Restart(r.s, op.refreshed).1);
    } else if op.Requesting? {
      RequestKeepsConserved(r, op.kind, op.path, op.args);
    } else {
      assert r1.s.ongoing == r.s.ongoing && r1.s.nextRequestId == r.s.nextRequestId;
    }
  }

  lemma {:induction false} ConservedAlways(ops: seq<Op>)
    ensures Conserved(Execute(ops))
  {
    if ops != [] {
      CoreAlways(ops[..|ops| - 1]);
      ConservedAlways(ops[..|ops| - 1]);
      ConservedStep(Execute(ops[..|ops| - 1]), ops[|ops| - 1]);
    }
  }

  /** Whatever the server sends, a returned id is either still in flight or reported, and reported only once. */
  lemma ReportedExactlyOnce(ops: seq<Op>, id: RequestId)
    requires id in Execute(ops).returned
    ensures var r := Execute(ops);
            && (id in r.s.ongoing <==> id !in ReportedIds(r))
            && (forall i, j :: 0 <= i < |r.reported| && 0 <= j < |r.reported| ==>
                  r.reported[i].0 == id == r.reported[j].0 ==> i == j)
  {
    ConservedAlways(ops);
    var r := Execute(ops);
    assert forall i :: 0 <= i < |r.reported| ==> ReportedIds(r)[i] == r.reported[i].0;
  }

  // ---- Theorem: read your writes -----------------------------------------

  /** Every held success is waiting for a timestamp the applied results have not reached. */
  ghost predicate HeldAhead(s: State) {
    forall id :: id in s.ongoing && s.ongoing[id].held.Some? ==>
      s.ongoing[id].held.value.ts > s.remoteVersion.ts && s.ongoing[id].held.value.result.Success?
  }

  lemma ReceiveHeldAhead(s: State, m: ServerMessage)
    requires HeldAhead(s)
    ensures HeldAhead(Receive(s, m).0)
  {
    if m.Transition? {
      if m.start == s.remoteVersion { TransitionFrame(s, m); }
    }
  }

  lemma HeldAheadStep(r: Run, op: Op)
    requires HeldAhead(r.s)
    ensures HeldAhead(Step(r, op).s)
  {
    if op.Receiving? {
      ReceiveHeldAhead(r.s, op.message);
    }
  }

  lemma {:induction false} HeldAheadAlways(ops: seq<Op>)
    ensures HeldAhead(Execute(ops).s)
  {
    if ops != [] {
      HeldAheadAlways(ops[..|ops| - 1]);
      HeldAheadStep(Execute(ops[..|ops| - 1]), ops[|ops| - 1]);
    }
  }

  /** The commit timestamp known for a request when `m` arrives: the one `m` brings, or the one held. */
  function KnownTs(s: State, m: ServerMessage, id: RequestId): Option<Timestamp> {
    if m.MutationResponse? && m.id == id then m.ts
    else if id in s.ongoing && s.ongoing[id].held.Some? then Some(s.ongoing[id].held.value.ts)
    else None
  }

  /**
   * Each mutation reported successful by `m` has a known commit timestamp that the applied results cover.
   * A success the server sends without a timestamp cannot be ordered, and is exempt.
   */
  ghost predicate Gated(s: State, m: ServerMessage) {
    var (s1, out) := Receive(s, m);
    forall k :: 0 <= k < |out.completed| ==>
      var (id, result) := out.completed[k];
      id in s.ongoing && s.ongoing[id].kind.MutationKind? && result.Success? ==>
        || (KnownTs(s, m, id).Some? && KnownTs(s, m, id).value <= s1.remoteVersion.ts)
        || (m.MutationResponse? && m.id == id && m.ts.None?)
  }

  /** An ActionResponse that answers a mutation: the one message that bypasses the gate. */
  predicate AnswersMutationAsAction(s: State, m: ServerMessage) {
    m.ActionResponse? && m.result.Success? && m.id in s.ongoing && s.ongoing[m.id].kind.MutationKind?
  }

  lemma FlushGated(ongoing: map<RequestId, PendingRequest>, watermark: Timestamp, k: nat)
    requires k < |Flushed(ongoing, watermark)|
    ensures var id := Flushed(ongoing, watermark)[k].0;
            id in ongoing && ongoing[id].held.Some? && ongoing[id].held.value.ts <= watermark
  {
    assert SortedIds(DueIds(ongoing, watermark))[k] in DueIds(ongoing, watermark);
  }

  lemma GatedUnlessMismatched(s: State, m: ServerMessage)
    requires !AnswersMutationAsAction(s, m)
    ensures Gated(s, m)
  {
    var (s1, out) := Receive(s, m);
    forall k | 0 <= k < |out.completed|
      ensures var (id, result) := out.completed[k];
              id in s.ongoing && s.ongoing[id].kind.MutationKind? && result.Success? ==>
                || (KnownTs(s, m, id).Some? && KnownTs(s, m, id).value <= s1.remoteVersion.ts)
                || (m.MutationResponse? && m.id == id && m.ts.None?)
    {
      if m.Transition? && m.start == s.remoteVersion {
        FlushGated(s.ongoing, m.end.ts, k);
      } else if m.MutationResponse? && m.id in s.ongoing && m.result.Success? && m.ts.Some? {
        var held := s.ongoing[m.id := s.ongoing[m.id].(held := Some(Held(m.ts.value, m.result)))];
        FlushGated(held, s.remoteVersion.ts, k);
      }
    }
  }

  /** A mutation's success is reported early exactly when an ActionResponse carries its id. */
  lemma ReadYourWritesIff(ops: seq<Op>, m: ServerMessage)
    ensures var s := Execute(ops).s; Gated(s, m) <==> !AnswersMutationAsAction(s, m)
  {
    var s := Execute(ops).s;
    HeldAheadAlways(ops);
    if AnswersMutationAsAction(s, m) {
      var out := Receive(s, m).1;
      assert out.completed[0] == (m.id, m.result);
      assert KnownTs(s, m, m.id).Some? ==> KnownTs(s, m, m.id).value > s.remoteVersion.ts;
    } else {
      GatedUnlessMismatched(s, m);
    }
  }

  /** The exception is reachable: a mutation is in flight, and an ActionResponse carries its id. */
  lemma ActionResponseMayAnswerMutation(path: string, args: string, value: Value)
    ensures var r := Execute([Requesting(MutationKind, path, Some(args))]);
            var m := ActionResponse(0, Success(value));
            AnswersMutationAsAction(r.s, m) && !Gated(r.s, m)
  {
    var ops := [Requesting(MutationKind, path, Some(args))];
    assert ops[..0] == [] && Execute(ops) == Step(START, ops[0]);
    ReadYourWritesIff(ops, ActionResponse(0, Success(value)));
  }

  // ---- Counters stay in range ---------------------------------------------

  ghost predicate CountersAtMost(s: State, n: nat) {
    && s.nextQueryId <= n && s.nextSubscriptionIndex <= n && s.nextRequestId <= n && s.connectionCount <= n
    && s.querySetVersion <= n && s.identityVersion <= n
  }

  lemma CountersStep(r: Run, op: Op, n: nat)
    requires CountersAtMost(r.s, n)
    ensures CountersAtMost(Step(r, op).s, n + 1)
  {
    if op.Receiving? {
      ReceiveFrame(r.s, op.message);
    } else if op.Restarting? {
      assert |QuerySetMessages(r.s.querySet)| <= 1;
    }
  }

  /** No counter exceeds the number of operations, so none wraps at 32 bits within 2^32 operations. */
  lemma {:induction false} CountersBoundedByRun(ops: seq<Op>)
    ensures CountersAtMost(Execute(ops).s, |ops|)
  {
    if ops != [] {
      CountersBoundedByRun(ops[..|ops| - 1]);
      CountersStep(Execute(ops[..|ops| - 1]), ops[|ops| - 1], |ops| - 1);
    }
  }
}
