/** The base_client class (src/base_client.cpp, include/convex/base_client.h), proved against BaseClientSpec. */
module BaseClient {
  import opened Wrappers
  import opened Ordering
  import opened Values
  import opened Protocol
  import Spec = BaseClientSpec
  import opened BaseClientSpec

  /** Erasing the chosen keys one at a time: what is left after `id` has been visited. */
  lemma NextErased(ongoing: map<RequestId, PendingRequest>, chosen: set<RequestId>, todo: set<RequestId>, id: RequestId)
    requires todo <= ongoing.Keys && id in todo
    ensures var left := ongoing - (chosen - todo);
            && id in left && left[id] == ongoing[id]
            && ongoing - (chosen - (todo - {id})) == if id in chosen then left - {id} else left
  {
    if id in chosen {
      assert chosen - (todo - {id}) == (chosen - todo) + {id};
    } else {
      assert chosen - (todo - {id}) == chosen - todo;
    }
  }

  lemma DueFirst(ongoing: map<RequestId, PendingRequest>, watermark: Timestamp, todo: set<RequestId>, id: RequestId)
    requires todo <= ongoing.Keys && id in todo && Due(ongoing[id], watermark) && forall j :: j in todo ==> id <= j
    ensures var due := DueIds(ongoing, watermark);
            HeldResults(ongoing, SortedIds(due * todo))
            == [(id, ongoing[id].held.value.result)] + HeldResults(ongoing, SortedIds(due * (todo - {id})))
  {
    var due := DueIds(ongoing, watermark);
    assert due * todo - {id} == due * (todo - {id});
    SortedIdsCons(due * todo, id);
  }

  lemma NextDue(ongoing: map<RequestId, PendingRequest>, watermark: Timestamp, todo: set<RequestId>, id: RequestId,
                out: seq<Completion>)
    requires todo <= ongoing.Keys && id in todo && forall j :: j in todo ==> id <= j
    ensures var due := DueIds(ongoing, watermark);
            out + HeldResults(ongoing, SortedIds(due * todo))
            == (if Due(ongoing[id], watermark) then out + [(id, ongoing[id].held.value.result)] else out)
               + HeldResults(ongoing, SortedIds(due * (todo - {id})))
  {
    var due := DueIds(ongoing, watermark);
    if Due(ongoing[id], watermark) {
      DueFirst(ongoing, watermark, todo, id);
    } else {
      assert due * todo == due * (todo - {id});
    }
  }

  lemma NextModification(s: State, mods: seq<StateModification>, i: nat)
    requires TokensLive(s.idToToken, s.querySet) && i < |mods|
    ensures var done, more := mods[..i], mods[..i + 1];
            && TokensLive(ApplyModifications(s, done).idToToken, ApplyModifications(s, done).querySet)
            && ApplyModifications(s, more) == ApplyModification(ApplyModifications(s, done), mods[i])
            && Ids(more) == Ids(done) + [mods[i].id]
  {
    ApplyModificationsFrame(s, mods[..i]);
    assert mods[..i + 1][..i] == mods[..i];
  }

  lemma NextMessage(ongoing: map<RequestId, PendingRequest>, todo: set<RequestId>, id: RequestId)
    requires todo <= ongoing.Keys && id in todo && forall j :: j in todo ==> id <= j
    ensures Messages(ongoing, SortedIds(todo))
            == [ongoing[id].message] + Messages(ongoing, SortedIds(todo - {id}))
  {
    SortedIdsCons(todo, id);
  }

  lemma NextAdd(querySet: map<string, LocalQuery>, todo: set<string>, t: string)
    requires todo <= querySet.Keys && t in todo && forall u :: u in todo ==> StringLeq(t, u)
    ensures var q := querySet[t];
            Adds(querySet, SortedStrings(todo))
            == [Add(q.id, q.udfPath, q.argsJson, q.journal)] + Adds(querySet, SortedStrings(todo - {t}))
  {
    SortedStringsCons(todo, t);
  }

  lemma NextOutstanding(querySet: map<string, LocalQuery>, todo: set<string>, t: string)
    requires todo <= querySet.Keys && t in todo
    ensures QueryIds(querySet, querySet.Keys - (todo - {t}))
            == QueryIds(querySet, querySet.Keys - todo) + {querySet[t].id}
  {
    assert querySet.Keys - (todo - {t}) == (querySet.Keys - todo) + {t};
  }

  lemma NextLost(lost: set<RequestId>, todo: set<RequestId>, id: RequestId, failed: seq<Completion>)
    requires id in todo && forall j :: j in todo ==> id <= j
    ensures failed + Failures(SortedIds(lost * todo))
            == (if id in lost then failed + [(id, IN_FLIGHT_ACTION_LOST)] else failed)
               + Failures(SortedIds(lost * (todo - {id})))
  {
    if id in lost {
      assert lost * todo - {id} == lost * (todo - {id});
      SortedIdsCons(lost * todo, id);
      var rest := Failures(SortedIds(lost * (todo - {id})));
      assert Failures(SortedIds(lost * todo)) == [(id, IN_FLIGHT_ACTION_LOST)] + rest;
    } else {
      assert lost * todo == lost * (todo - {id});
    }
  }

  class BaseClient {
    var nextQueryId: nat
    var nextSubscriptionIndex: nat
    var querySetVersion: nat
    var identityVersion: nat
    var querySet: map<string, LocalQuery>
    var idToToken: map<QueryId, string>
    var auth: Option<AuthToken>
    var remoteVersion: StateVersion
    var remoteResults: map<QueryId, FunctionResult>
    var nextRequestId: nat
    var ongoing: map<RequestId, PendingRequest>
    var connectionCount: nat
    var maxObserved: Option<Timestamp>
    var outstanding: set<QueryId>
    var outgoing: seq<ClientMessage>

    ghost function Model(): State
      reads this
    {
      State(nextQueryId, nextSubscriptionIndex, querySetVersion, identityVersion, querySet, idToToken, auth,
            remoteVersion, remoteResults, nextRequestId, ongoing, connectionCount, maxObserved, outstanding, outgoing)
    }

    /** What the `.at` lookups rely on; part of IndexesAgree, which every run keeps (BaseClientRuns.CoreAlways). */
    ghost predicate Valid()
      reads this
    {
      TokensLive(idToToken, querySet)
    }

    constructor ()
      ensures Model() == INITIAL && Valid()
    {
      nextQueryId, nextSubscriptionIndex, querySetVersion, identityVersion := 0, 0, 0, 0;
      querySet, idToToken, auth := map[], map[], None;
      remoteVersion, remoteResults := ZERO_VERSION, map[];
      nextRequestId, ongoing, connectionCount, maxObserved := 0, map[], 0, None;
      outstanding, outgoing := {}, [];
    }

    method Subscribe(path: string, args: Option<string>) returns (handle: Option<SubscriberId>)
      modifies this
      ensures (Model(), handle) == Spec.Subscribe(old(Model()), path, args)
    {
      var udfPath := Canonicalize(path);
      if args.None? { return None; }
      var token := Token(udfPath, args.value);
      if token in querySet {
        var q := querySet[token];
        querySet := querySet[token := q.(numSubscribers := q.numSubscribers + 1)];
        handle := Some(SubscriberId(q.id, nextSubscriptionIndex));
        nextSubscriptionIndex := nextSubscriptionIndex + 1;
      } else {
        handle := Some(SubscriberId(nextQueryId, nextSubscriptionIndex));
        AddQuery(token, udfPath, args.value);
      }
    }

    /** The next version of the query set differs from the last by `mod`. */
    method EnqueueModification(mod: QueryModification)
      modifies this`querySetVersion, this`outgoing
      ensures querySetVersion == old(querySetVersion) + 1
      ensures outgoing == old(outgoing) + [ModifyQuerySet(old(querySetVersion), querySetVersion, [mod])]
    {
      var base := querySetVersion;
      querySetVersion := querySetVersion + 1;
      outgoing := outgoing + [ModifyQuerySet(base, querySetVersion, [mod])];
    }

    method AddQuery(token: string, udfPath: string, argsJson: string)
      modifies this
      ensures Model() == Spec.AddQuery(old(Model()), token, udfPath, argsJson)
    {
      var id := nextQueryId;
      nextQueryId := nextQueryId + 1;
      idToToken := idToToken[id := token];
      querySet := querySet[token := LocalQuery(id, udfPath, argsJson, 1, None)];
      EnqueueModification(Add(id, udfPath, argsJson, None));
      nextSubscriptionIndex := nextSubscriptionIndex + 1;
    }

    method Unsubscribe(handle: SubscriberId)
      requires Valid()
      modifies this
      ensures Model() == Spec.Unsubscribe(old(Model()), handle)
    {
      if handle.query !in idToToken { return; }
      var token := idToToken[handle.query];
      var q := querySet[token];
      if q.numSubscribers - 1 > 0 {
        querySet := querySet[token := q.(numSubscribers := q.numSubscribers - 1)];
      } else {
        DropQuery(handle.query, token);
      }
    }

    method DropQuery(id: QueryId, token: string)
      modifies this
      ensures Model() == Spec.DropQuery(old(Model()), id, token)
    {
      querySet := querySet - {token};
      idToToken := idToToken - {id};
      remoteResults := remoteResults - {id};
      outstanding := outstanding - {id};
      EnqueueModification(Remove(id));
    }

    /** mutation() and action(), which differ only in the message they build. */
    method Request(kind: RequestKind, path: string, args: Option<string>) returns (id: Option<RequestId>)
      modifies this
      ensures (Model(), id) == Spec.Request(old(Model()), kind, path, args)
    {
      var rid := nextRequestId;
      nextRequestId := nextRequestId + 1;
      if args.None? { return None; }
      var m := RequestMessage(kind, rid, path, args.value);
      ongoing := ongoing[rid := PendingRequest(kind, None, m)];
      outgoing := outgoing + [m];
      id := Some(rid);
    }

    method SetAuth(token: AuthToken)
      modifies this
      ensures Model() == Spec.SetAuth(old(Model()), token)
    {
      auth := if token.NoToken? then None else Some(token);
      var base := identityVersion;
      identityVersion := identityVersion + 1;
      outgoing := outgoing + [Authenticate(base, token)];
    }

    method ObserveTimestamp(ts: Timestamp)
      modifies this`maxObserved
      ensures maxObserved == Observe(old(maxObserved), ts)
    {
      if maxObserved.None? || ts > maxObserved.value { maxObserved := Some(ts); }
    }

    /** Releases every held request the watermark covers, walking the request map in order and erasing as it goes. */
    method FlushCompleted(watermark: Timestamp) returns (out: seq<Completion>)
      modifies this`ongoing
      ensures ongoing == old(ongoing) - DueIds(old(ongoing), watermark)
      ensures out == Flushed(old(ongoing), watermark)
    {
      ghost var before, due := ongoing, DueIds(ongoing, watermark);
      var requests := ongoing;
      var todo := requests.Keys;
      assert due * todo == due && due - todo == {};
      out := [];
      while todo != {}
        invariant todo <= before.Keys
        invariant requests == before - (due - todo)
        invariant Flushed(before, watermark) == out + HeldResults(before, SortedIds(due * todo))
      {
        var id := FirstId(todo);
        NextDue(before, watermark, todo, id, out);
        NextErased(before, due, todo, id);
        var req := requests[id];
        if req.held.Some? && req.held.value.ts <= watermark {
          out := out + [(id, req.held.value.result)];
          requests := requests - {id};
        }
        todo := todo - {id};
      }
      assert due * todo == {} && due - todo == due;
      ongoing := requests;
    }

    method ApplyStateModification(mod: StateModification)
      requires Valid()
      modifies this`remoteResults, this`outstanding, this`querySet
      ensures Model() == ApplyModification(old(Model()), mod)
    {
      outstanding := outstanding - {mod.id};
      if mod.QueryRemoved? {
        remoteResults := remoteResults - {mod.id};
      } else {
        remoteResults := remoteResults[mod.id := ResultOf(mod)];
        if mod.id in idToToken {
          var token := idToToken[mod.id];
          querySet := querySet[token := querySet[token].(journal := mod.journal)];
        }
      }
    }

    method HandleTransition(m: ServerMessage) returns (out: ReceiveResult)
      requires Valid() && m.Transition?
      modifies this
      ensures (Model(), out) == Spec.HandleTransition(old(Model()), m)
    {
      if m.start != remoteVersion { return Mismatch("StartVersionMismatch"); }
      var changed: seq<QueryId> := [];
      var mods := m.modifications;
      for i := 0 to |mods|
        invariant Model() == ApplyModifications(old(Model()), mods[..i])
        invariant changed == Ids(mods[..i])
      {
        NextModification(old(Model()), mods, i);
        ApplyStateModification(mods[i]);
        changed := changed + [mods[i].id];
      }
      assert mods[..|mods|] == mods;
      ApplyModificationsFrame(old(Model()), mods);
      remoteVersion := m.end;
      ObserveTimestamp(m.end.ts);
      var done := FlushCompleted(m.end.ts);
      out := NOTHING.(stateChanged := true, changedQueries := changed, completed := done);
    }

    method ReceiveMessage(m: ServerMessage) returns (out: ReceiveResult)
      requires Valid()
      modifies this
      ensures (Model(), out) == Spec.Receive(old(Model()), m)
    {
      out := NOTHING;
      match m
      case Transition(_, _, _) =>
        out := HandleTransition(m);
      case MutationResponse(id, result, ts) =>
        if id !in ongoing { return; }
        if result.Success? && ts.Some? {
          ongoing := ongoing[id := ongoing[id].(held := Some(Held(ts.value, result)))];
          ObserveTimestamp(ts.value);
          var done := FlushCompleted(remoteVersion.ts);
          out := out.(completed := done);
        } else {
          out := out.(completed := [(id, result)]);
          ongoing := ongoing - {id};
        }
      case ActionResponse(id, result) =>
        if id !in ongoing { return; }
        out := out.(completed := [(id, result)]);
        ongoing := ongoing - {id};
      case AuthError(error, attempted) =>
        out := out.(reconnectReason := Some("AuthError: " + error), authError := true,
                    authUpdateAttempted := attempted);
      case FatalError(error) =>
        out := out.(reconnectReason := Some("FatalError: " + error));
      case TransitionChunk(_, _, _, _) =>
        out := out.(reconnectReason := Some("ProtocolError: unassembled TransitionChunk"));
      case Ping =>
    }

    method PopNextMessage() returns (m: Option<ClientMessage>)
      modifies this`outgoing
      ensures (Model(), m) == Spec.Pop(old(Model()))
    {
      if outgoing == [] { return None; }
      m := Some(outgoing[0]);
      outgoing := outgoing[1..];
    }

    /** Collects the actions still queued, which were never transmitted. */
    method CollectUnsentActions() returns (unsent: set<RequestId>)
      ensures unsent == UnsentActions(outgoing)
    {
      unsent := {};
      for i := 0 to |outgoing|
        invariant unsent == UnsentActions(outgoing[..i])
      {
        assert outgoing[..i + 1] == outgoing[..i] + [outgoing[i]];
        if outgoing[i].ActionRequest? { unsent := unsent + {outgoing[i].id}; }
      }
      assert outgoing[..|outgoing|] == outgoing;
    }

    /** One Add per live query, in token order, recording each id as outstanding. */
    method RestoreQueries() returns (adds: seq<QueryModification>)
      modifies this`outstanding
      ensures adds == Adds(querySet, SortedStrings(querySet.Keys))
      ensures outstanding == QueryIds(querySet, querySet.Keys)
    {
      adds := [];
      var resent: set<QueryId> := {};
      var todo := querySet.Keys;
      while todo != {}
        invariant todo <= querySet.Keys
        invariant Adds(querySet, SortedStrings(querySet.Keys)) == adds + Adds(querySet, SortedStrings(todo))
        invariant resent == QueryIds(querySet, querySet.Keys - todo)
      {
        var t := FirstString(todo);
        NextAdd(querySet, todo, t);
        NextOutstanding(querySet, todo, t);
        var q := querySet[t];
        adds := adds + [Add(q.id, q.udfPath, q.argsJson, q.journal)];
        resent := resent + {q.id};
        todo := todo - {t};
      }
      outstanding := resent;
    }

    /** Fails and erases the actions that may already be running on the server. */
    method FailLostActions(unsent: set<RequestId>) returns (failed: seq<Completion>)
      modifies this`ongoing
      ensures var lost := LostActions(old(ongoing), unsent);
              ongoing == old(ongoing) - lost && failed == Failures(SortedIds(lost))
    {
      ghost var before, lost := ongoing, LostActions(ongoing, unsent);
      var requests := ongoing;
      var todo := requests.Keys;
      assert lost * todo == lost && lost - todo == {};
      failed := [];
      while todo != {}
        invariant todo <= before.Keys
        invariant requests == before - (lost - todo)
        invariant Failures(SortedIds(lost)) == failed + Failures(SortedIds(lost * todo))
      {
        var id := FirstId(todo);
        NextLost(lost, todo, id, failed);
        NextErased(before, lost, todo, id);
        if requests[id].kind.ActionKind? && id !in unsent {
          failed := failed + [(id, IN_FLIGHT_ACTION_LOST)];
          requests := requests - {id};
        }
        todo := todo - {id};
      }
      assert lost * todo == {} && lost - todo == lost;
      ongoing := requests;
    }

    /** Queues the original message of every surviving request again, in ascending id order. */
    method ResendRequests()
      modifies this`outgoing
      ensures outgoing == old(outgoing) + ResentRequests(ongoing)
    {
      ghost var before := outgoing;
      var queue := outgoing;
      var todo := ongoing.Keys;
      while todo != {}
        invariant todo <= ongoing.Keys
        invariant before + ResentRequests(ongoing) == queue + Messages(ongoing, SortedIds(todo))
      {
        var id := FirstId(todo);
        NextMessage(ongoing, todo, id);
        queue := queue + [ongoing[id].message];
        todo := todo - {id};
      }
      outgoing := queue;
    }

    method EnqueueAuthenticate()
      requires auth.Some?
      modifies this`identityVersion, this`outgoing
      ensures identityVersion == old(identityVersion) + 1
      ensures outgoing == old(outgoing) + [Authenticate(old(identityVersion), auth.value)]
    {
      outgoing := outgoing + [Authenticate(identityVersion, auth.value)];
      identityVersion := identityVersion + 1;
    }

    /** Restart's identity part: a refreshed token replaces the stored one, and is presented again. */
    method RestoreAuth(refreshed: Option<AuthToken>)
      modifies this`auth, this`identityVersion, this`outgoing
      ensures auth == (if refreshed.None? then old(auth) else StoredAuth(refreshed.value))
      ensures identityVersion == |AuthMessages(auth)| && outgoing == AuthMessages(auth)
    {
      outgoing, identityVersion := [], 0;
      if refreshed.Some? {
        auth := if refreshed.value.NoToken? then None else refreshed;
      }
      if auth.Some? { EnqueueAuthenticate(); }
    }

    /** Restart's query part: one ModifyQuerySet (0 -> 1) when there is anything to restore. */
    method RestoreQuerySet()
      modifies this`outstanding, this`querySetVersion, this`outgoing
      ensures outstanding == QueryIds(querySet, querySet.Keys)
      ensures querySetVersion == |QuerySetMessages(querySet)|
      ensures outgoing == old(outgoing) + QuerySetMessages(querySet)
    {
      querySetVersion, outstanding := 0, {};
      if querySet != map[] {
        var adds := RestoreQueries();
        outgoing := outgoing + [ModifyQuerySet(querySetVersion, querySetVersion + 1, adds)];
        querySetVersion := querySetVersion + 1;
      }
    }

    /** The rebuilt queue: Authenticate, the restored query set, then the surviving requests. */
    method Rebuild(refreshed: Option<AuthToken>, unsent: set<RequestId>) returns (failed: seq<Completion>)
      modifies this`auth, this`identityVersion, this`outstanding, this`querySetVersion, this`outgoing, this`ongoing
      ensures auth == (if refreshed.None? then old(auth) else StoredAuth(refreshed.value))
      ensures identityVersion == |AuthMessages(auth)| && querySetVersion == |QuerySetMessages(querySet)|
      ensures outstanding == QueryIds(querySet, querySet.Keys)
      ensures var lost := LostActions(old(ongoing), unsent);
              ongoing == old(ongoing) - lost && failed == Failures(SortedIds(lost))
      ensures outgoing == AuthMessages(auth) + QuerySetMessages(querySet) + ResentRequests(ongoing)
    {
      RestoreAuth(refreshed);
      RestoreQuerySet();
      failed := FailLostActions(unsent);
      ResendRequests();
    }

    method Restart(refreshed: Option<AuthToken>) returns (failed: seq<Completion>)
      modifies this
      ensures (Model(), failed) == Spec.Restart(old(Model()), refreshed)
    {
      hide LostActions, AuthMessages, QuerySetMessages, ResentRequests, Failures, QueryIds, UnsentActions;
      ghost var s := Model();
      var unsent := CollectUnsentActions();
      remoteVersion, remoteResults := ZERO_VERSION, map[];
      failed := Rebuild(refreshed, unsent);
      ghost var lost := LostActions(s.ongoing, unsent);
      assert ongoing == s.ongoing - lost && auth == RefreshedAuth(s, refreshed);
      assert Model() == Rebuilt(s, auth, lost);
    }

    method MakeConnectMessage(lastCloseReason: string) returns (m: ClientMessage)
      modifies this`connectionCount
      ensures (Model(), m) == Spec.MakeConnect(old(Model()), lastCloseReason)
    {
      m := Connect(connectionCount, lastCloseReason, maxObserved);
      connectionCount := connectionCount + 1;
    }
  }
}
