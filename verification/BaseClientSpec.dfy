/** What each base_client operation does to the client's state (src/base_client.cpp), as functions. */
module BaseClientSpec {
  import opened Wrappers
  import opened Ordering
  import opened Values
  import opened Protocol

  datatype SubscriberId = SubscriberId(query: QueryId, index: nat)

  datatype LocalQuery = LocalQuery(
    id: QueryId, udfPath: string, argsJson: string, numSubscribers: nat, journal: Option<string>)

  datatype RequestKind = MutationKind | ActionKind

  /** The completed flag, timestamp and result of a pending request, which are only ever set together. */
  datatype Held = Held(ts: Timestamp, result: FunctionResult)

  datatype PendingRequest = PendingRequest(kind: RequestKind, held: Option<Held>, message: ClientMessage)

  datatype State = State(
    nextQueryId: nat,
    nextSubscriptionIndex: nat,
    querySetVersion: nat,
    identityVersion: nat,
    querySet: map<string, LocalQuery>,
    idToToken: map<QueryId, string>,
    auth: Option<AuthToken>,
    remoteVersion: StateVersion,
    remoteResults: map<QueryId, FunctionResult>,
    nextRequestId: nat,
    ongoing: map<RequestId, PendingRequest>,
    connectionCount: nat,
    maxObserved: Option<Timestamp>,
    outstanding: set<QueryId>,
    outgoing: seq<ClientMessage>)

  type Completion = (RequestId, FunctionResult)

  datatype ReceiveResult = ReceiveResult(
    stateChanged: bool,
    changedQueries: seq<QueryId>,
    completed: seq<Completion>,
    reconnectReason: Option<string>,
    authError: bool,
    authUpdateAttempted: bool)

  const ZERO_VERSION := StateVersion(0, 0, 0)
  const NOTHING := ReceiveResult(false, [], [], None, false, false)
  const IN_FLIGHT_ACTION_LOST := PlainError("Connection lost while action was in flight")

  const INITIAL := State(0, 0, 0, 0, map[], map[], None, ZERO_VERSION, map[], 0, map[], 0, None, {}, [])

  function Token(udfPath: string, argsJson: string): string { udfPath + "|" + argsJson }

  // ---- Local operations -----------------------------------------------

  /** One more subscriber of a query that is already live. */
  function ShareQuery(s: State, token: string): State
    requires token in s.querySet
  {
    var q := s.querySet[token];
    s.(querySet := s.querySet[token := q.(numSubscribers := q.numSubscribers + 1)],
       nextSubscriptionIndex := s.nextSubscriptionIndex + 1)
  }

  /** A new query, announced to the server. */
  function AddQuery(s: State, token: string, udfPath: string, argsJson: string): State {
    var id := s.nextQueryId;
    s.(nextQueryId := id + 1,
       nextSubscriptionIndex := s.nextSubscriptionIndex + 1,
       querySet := s.querySet[token := LocalQuery(id, udfPath, argsJson, 1, None)],
       idToToken := s.idToToken[id := token],
       querySetVersion := s.querySetVersion + 1,
       outgoing := s.outgoing + [ModifyQuerySet(s.querySetVersion, s.querySetVersion + 1,
                                                [Add(id, udfPath, argsJson, None)])])
  }

  /** `args` is the serialized argument text, or None when serialize_args throws. */
  function Subscribe(s: State, path: string, args: Option<string>): (State, Option<SubscriberId>) {
    if args.None? then (s, None)
    else
      var udfPath := Canonicalize(path);
      var token := Token(udfPath, args.value);
      if token in s.querySet then
        (ShareQuery(s, token), Some(SubscriberId(s.querySet[token].id, s.nextSubscriptionIndex)))
      else
        (AddQuery(s, token, udfPath, args.value), Some(SubscriberId(s.nextQueryId, s.nextSubscriptionIndex)))
  }

  /** A query whose last subscriber left, withdrawn from the server. */
  function DropQuery(s: State, id: QueryId, token: string): State {
    s.(querySet := s.querySet - {token},
       idToToken := s.idToToken - {id},
       remoteResults := s.remoteResults - {id},
       outstanding := s.outstanding - {id},
       querySetVersion := s.querySetVersion + 1,
       outgoing := s.outgoing + [ModifyQuerySet(s.querySetVersion, s.querySetVersion + 1, [Remove(id)])])
  }

  function Unsubscribe(s: State, handle: SubscriberId): State {
    var id := handle.query;
    if id !in s.idToToken || s.idToToken[id] !in s.querySet then s
    else
      var token := s.idToToken[id];
      var q := s.querySet[token];
      if q.numSubscribers > 1 then
        s.(querySet := s.querySet[token := q.(numSubscribers := q.numSubscribers - 1)])
      else
        DropQuery(s, id, token)
  }

  function RequestMessage(kind: RequestKind, id: RequestId, path: string, args: string): ClientMessage {
    match kind
    case MutationKind => MutationRequest(id, Canonicalize(path), args)
    case ActionKind => ActionRequest(id, Canonicalize(path), args)
  }

  function AddRequest(s: State, kind: RequestKind, m: ClientMessage): State
    requires m.IsRequest()
  {
    s.(nextRequestId := m.id + 1,
       ongoing := s.ongoing[m.id := PendingRequest(kind, None, m)],
       outgoing := s.outgoing + [m])
  }

  /** mutation() and action(); the id is consumed even when serialize_args throws. */
  function Request(s: State, kind: RequestKind, path: string, args: Option<string>): (State, Option<RequestId>) {
    var id := s.nextRequestId;
    if args.None? then (s.(nextRequestId := id + 1), None)
    else (AddRequest(s, kind, RequestMessage(kind, id, path, args.value)), Some(id))
  }

  function StoredAuth(token: AuthToken): Option<AuthToken> {
    if token.NoToken? then None else Some(token)
  }

  function SetAuth(s: State, token: AuthToken): State {
    s.(auth := StoredAuth(token),
       identityVersion := s.identityVersion + 1,
       outgoing := s.outgoing + [Authenticate(s.identityVersion, token)])
  }

  // ---- Server input ---------------------------------------------------

  function Observe(seen: Option<Timestamp>, ts: Timestamp): Option<Timestamp> {
    if seen.None? || ts > seen.value then Some(ts) else seen
  }

  predicate Due(req: PendingRequest, watermark: Timestamp) {
    req.held.Some? && req.held.value.ts <= watermark
  }

  function DueIds(ongoing: map<RequestId, PendingRequest>, watermark: Timestamp): set<RequestId> {
    set id | id in ongoing && Due(ongoing[id], watermark)
  }

  function HeldResults(ongoing: map<RequestId, PendingRequest>, ids: seq<RequestId>): seq<Completion>
    requires forall id :: id in ids ==> id in ongoing && ongoing[id].held.Some?
  {
    seq(|ids|, i requires 0 <= i < |ids| => (ids[i], ongoing[ids[i]].held.value.result))
  }

  /** The completions flush_completed reports, in ascending id order. */
  ghost function Flushed(ongoing: map<RequestId, PendingRequest>, watermark: Timestamp): seq<Completion> {
    HeldResults(ongoing, SortedIds(DueIds(ongoing, watermark)))
  }

  function ResultOf(mod: StateModification): FunctionResult
    requires !mod.QueryRemoved?
  {
    match mod
    case QueryUpdated(_, result, _) => Success(result)
    case QueryFailed(_, message, data, _) =>
      if data.Some? then AppError(message, data.value) else PlainError(message)
  }

  function WithJournal(s: State, id: QueryId, journal: Option<string>): map<string, LocalQuery> {
    if id in s.idToToken && s.idToToken[id] in s.querySet then
      var token := s.idToToken[id];
      s.querySet[token := s.querySet[token].(journal := journal)]
    else s.querySet
  }

  function ApplyModification(s: State, mod: StateModification): State {
    var s1 := s.(outstanding := s.outstanding - {mod.id});
    if mod.QueryRemoved? then
      s1.(remoteResults := s.remoteResults - {mod.id})
    else
      s1.(remoteResults := s.remoteResults[mod.id := ResultOf(mod)],
          querySet := WithJournal(s, mod.id, mod.journal))
  }

  function ApplyModifications(s: State, mods: seq<StateModification>): State {
    if mods == [] then s
    else ApplyModification(ApplyModifications(s, mods[..|mods| - 1]), mods[|mods| - 1])
  }

  function Ids(mods: seq<StateModification>): seq<QueryId> {
    seq(|mods|, i requires 0 <= i < |mods| => mods[i].id)
  }

  function Mismatch(reason: string): ReceiveResult { NOTHING.(reconnectReason := Some(reason)) }

  ghost function HandleTransition(s: State, m: ServerMessage): (State, ReceiveResult)
    requires m.Transition?
  {
    if m.start != s.remoteVersion then (s, Mismatch("StartVersionMismatch"))
    else
      var s1 := ApplyModifications(s, m.modifications);
      (s1.(remoteVersion := m.end,
           maxObserved := Observe(s.maxObserved, m.end.ts),
           ongoing := s.ongoing - DueIds(s.ongoing, m.end.ts)),
       NOTHING.(stateChanged := true, changedQueries := Ids(m.modifications),
                completed := Flushed(s.ongoing, m.end.ts)))
  }

  ghost function HandleMutationResponse(s: State, m: ServerMessage): (State, ReceiveResult)
    requires m.MutationResponse?
  {
    if m.id !in s.ongoing then (s, NOTHING)
    else if m.result.Success? && m.ts.Some? then
      var held := s.ongoing[m.id := s.ongoing[m.id].(held := Some(Held(m.ts.value, m.result)))];
      (s.(ongoing := held - DueIds(held, s.remoteVersion.ts),
          maxObserved := Observe(s.maxObserved, m.ts.value)),
       NOTHING.(completed := Flushed(held, s.remoteVersion.ts)))
    else
      (s.(ongoing := s.ongoing - {m.id}), NOTHING.(completed := [(m.id, m.result)]))
  }

  ghost function Receive(s: State, m: ServerMessage): (State, ReceiveResult) {
    match m
    case Transition(_, _, _) => HandleTransition(s, m)
    case MutationResponse(_, _, _) => HandleMutationResponse(s, m)
    case ActionResponse(id, result) =>
      if id !in s.ongoing then (s, NOTHING)
      else (s.(ongoing := s.ongoing - {id}), NOTHING.(completed := [(id, result)]))
    case AuthError(error, attempted) =>
      (s, Mismatch("AuthError: " + error).(authError := true, authUpdateAttempted := attempted))
    case FatalError(error) => (s, Mismatch("FatalError: " + error))
    case TransitionChunk(_, _, _, _) => (s, Mismatch("ProtocolError: unassembled TransitionChunk"))
    case Ping => (s, NOTHING)
  }

  // ---- Outgoing queue -------------------------------------------------

  function Pop(s: State): (State, Option<ClientMessage>) {
    if s.outgoing == [] then (s, None) else (s.(outgoing := s.outgoing[1..]), Some(s.outgoing[0]))
  }

  // ---- Reconnect ------------------------------------------------------

  function UnsentActions(outgoing: seq<ClientMessage>): set<RequestId> {
    set m | m in outgoing && m.ActionRequest? :: m.id
  }

  /** Actions in flight that are not among the unsent ones: the server may already be running them. */
  function LostActions(ongoing: map<RequestId, PendingRequest>, unsent: set<RequestId>): set<RequestId> {
    set id | id in ongoing && ongoing[id].kind.ActionKind? && id !in unsent
  }

  function QueryIds(querySet: map<string, LocalQuery>, tokens: set<string>): set<QueryId> {
    set t | t in tokens && t in querySet :: querySet[t].id
  }

  function Adds(querySet: map<string, LocalQuery>, tokens: seq<string>): seq<QueryModification>
    requires forall t :: t in tokens ==> t in querySet
  {
    seq(|tokens|, i requires 0 <= i < |tokens| =>
      var q := querySet[tokens[i]]; Add(q.id, q.udfPath, q.argsJson, q.journal))
  }

  function Messages(ongoing: map<RequestId, PendingRequest>, ids: seq<RequestId>): seq<ClientMessage>
    requires forall id :: id in ids ==> id in ongoing
  {
    seq(|ids|, i requires 0 <= i < |ids| => ongoing[ids[i]].message)
  }

  function RefreshedAuth(s: State, refreshed: Option<AuthToken>): Option<AuthToken> {
    if refreshed.None? then s.auth else StoredAuth(refreshed.value)
  }

  function AuthMessages(auth: Option<AuthToken>): seq<ClientMessage> {
    if auth.None? then [] else [Authenticate(0, auth.value)]
  }

  ghost function QuerySetMessages(querySet: map<string, LocalQuery>): seq<ClientMessage> {
    if querySet == map[] then []
    else [ModifyQuerySet(0, 1, Adds(querySet, SortedStrings(querySet.Keys)))]
  }

  ghost function ResentRequests(ongoing: map<RequestId, PendingRequest>): seq<ClientMessage> {
    Messages(ongoing, SortedIds(ongoing.Keys))
  }

  function Failures(ids: seq<RequestId>): seq<Completion> {
    seq(|ids|, i requires 0 <= i < |ids| => (ids[i], IN_FLIGHT_ACTION_LOST))
  }

  /** The state rebuilt for a new connection, as `auth`, without the requests in `lost`. */
  ghost function Rebuilt(s: State, auth: Option<AuthToken>, lost: set<RequestId>): State {
    var ongoing := s.ongoing - lost;
    s.(identityVersion := |AuthMessages(auth)|,
       querySetVersion := |QuerySetMessages(s.querySet)|,
       remoteVersion := ZERO_VERSION,
       remoteResults := map[],
       auth := auth,
       outstanding := QueryIds(s.querySet, s.querySet.Keys),
       ongoing := ongoing,
       outgoing := AuthMessages(auth) + QuerySetMessages(s.querySet) + ResentRequests(ongoing))
  }

  /** restart(): the rebuilt state, and the actions it fails because they may already have run. */
  ghost function Restart(s: State, refreshed: Option<AuthToken>): (State, seq<Completion>) {
    var lost := LostActions(s.ongoing, UnsentActions(s.outgoing));
    (Rebuilt(s, RefreshedAuth(s, refreshed), lost), Failures(SortedIds(lost)))
  }

  function MakeConnect(s: State, lastCloseReason: string): (State, ClientMessage) {
    (s.(connectionCount := s.connectionCount + 1), Connect(s.connectionCount, lastCloseReason, s.maxObserved))
  }

  /** Every indexed id names a live query. */
  ghost predicate TokensLive(idToToken: map<QueryId, string>, querySet: map<string, LocalQuery>) {
    forall id :: id in idToToken ==> idToToken[id] in querySet
  }

  /** Both indexes agree and hold only live queries; every `.at` lookup in the source relies on this. */
  ghost predicate IndexesAgree(s: State) {
    && (forall id :: id in s.idToToken ==>
          s.idToToken[id] in s.querySet && s.querySet[s.idToToken[id]].id == id && id < s.nextQueryId)
    && (forall t :: t in s.querySet ==>
          var q := s.querySet[t];
          && q.id in s.idToToken && s.idToToken[q.id] == t
          && t == Token(q.udfPath, q.argsJson)
          && q.numSubscribers >= 1)
  }

  lemma AddQueryKeepsIndexes(s: State, token: string, udfPath: string, argsJson: string)
    requires IndexesAgree(s) && token !in s.querySet && token == Token(udfPath, argsJson)
    ensures IndexesAgree(AddQuery(s, token, udfPath, argsJson))
  {
    var s1 := AddQuery(s, token, udfPath, argsJson);
    assert forall id :: id in s1.idToToken ==> id == s.nextQueryId || id in s.idToToken;
  }

  lemma SubscribeKeepsIndexes(s: State, path: string, args: Option<string>)
    requires IndexesAgree(s)
    ensures IndexesAgree(Subscribe(s, path, args).0)
  {
    if args.Some? {
      var token := Token(Canonicalize(path), args.value);
      if token !in s.querySet { AddQueryKeepsIndexes(s, token, Canonicalize(path), args.value); }
    }
  }

  lemma UnsubscribeKeepsIndexes(s: State, handle: SubscriberId)
    requires IndexesAgree(s)
    ensures IndexesAgree(Unsubscribe(s, handle))
  {
    hide Token;
  }

  lemma {:induction false} ApplyModificationsFrame(s: State, mods: seq<StateModification>)
    ensures var s1 := ApplyModifications(s, mods);
            && s1 == s.(remoteResults := s1.remoteResults, outstanding := s1.outstanding, querySet := s1.querySet)
            && s1.querySet.Keys == s.querySet.Keys
  {
    if mods != [] {
      ApplyModificationsFrame(s, mods[..|mods| - 1]);
    }
  }

  lemma {:induction false} ApplyModificationsKeepsIndexes(s: State, mods: seq<StateModification>)
    requires IndexesAgree(s)
    ensures IndexesAgree(ApplyModifications(s, mods))
  {
    if mods != [] {
      ApplyModificationsKeepsIndexes(s, mods[..|mods| - 1]);
      ApplyModificationsFrame(s, mods[..|mods| - 1]);
    }
  }
}
