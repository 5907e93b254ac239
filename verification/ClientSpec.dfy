/**
 * What each lock-held section of client_impl does (src/client.cpp), as functions. The state also records
 * what was put on each connection and which callbacks were queued and run.
 */
module ClientSpec {
  import opened Wrappers
  import opened Ordering
  import opened Values
  import opened Protocol
  import opened Chunks
  import Spec = BaseClientSpec
  import Runs = BaseClientRuns

  /** A call of user code: a request's callback, a subscriber's callback, or an auth-failure listener. */
  datatype Event =
    | Completed(id: RequestId, result: FunctionResult)
    | Updated(index: nat, result: FunctionResult)
    | AuthFailed(reason: string)
    | Refused

  datatype State = State(
    base: Runs.Run,                             // the base client, with its histories
    chunks: Buffer,
    conn: Option<nat>,                          // the connection held, by the generation it was opened for
    connGen: nat,
    socketOpen: bool,
    pendingOpen: bool,
    lastCloseReason: string,
    fetcher: bool,
    retries: nat,
    stopping: bool,
    subs: map<QueryId, seq<nat>>,               // subscriber indexes, per query
    pending: set<RequestId>,                    // requests whose callback has not been queued
    consecutiveAuthErrors: nat,
    reconnectScheduled: bool,
    connecting: Option<nat>,                    // the generation the worker is inside connect() for
    eventQueue: seq<Event>,
    wire: map<nat, seq<ClientMessage>>,         // frames handed to each generation's connection
    fired: seq<Event>)                          // callbacks already run

  const SHUT_DOWN := PlainError("convex: client is shut down")

  const INITIAL := State(Runs.START, IDLE, None, 0, false, false, "InitialConnect", false, 0, false,
                         map[], {}, 0, true, None, [], map[], [])

  // ---- Pieces -------------------------------------------------------------

  function Frames(wire: map<nat, seq<ClientMessage>>, gen: nat): seq<ClientMessage> {
    if gen in wire then wire[gen] else []
  }

  function Send(wire: map<nat, seq<ClientMessage>>, gen: nat, frames: seq<ClientMessage>)
    : map<nat, seq<ClientMessage>>
  {
    wire[gen := Frames(wire, gen) + frames]
  }

  /** The base client after everything queued has been popped. */
  function Emptied(r: Runs.Run): Runs.Run {
    r.(s := r.s.(outgoing := []), sent := r.sent + r.s.outgoing, everSent := r.everSent + r.s.outgoing)
  }

  function DrainOutgoing(c: State): State {
    if !c.socketOpen || c.conn.None? then c
    else c.(base := Emptied(c.base), wire := Send(c.wire, c.conn.value, c.base.s.outgoing))
  }

  /** Moves the callbacks of finished requests from `pending` to the event queue. */
  function Resolve(pending: set<RequestId>, done: seq<Spec.Completion>): (set<RequestId>, seq<Event>) {
    if done == [] then (pending, [])
    else
      var (left, events) := Resolve(pending, done[..|done| - 1]);
      var (id, result) := done[|done| - 1];
      if id in left then (left - {id}, events + [Completed(id, result)]) else (left, events)
  }

  function Notifications(indexes: seq<nat>, result: FunctionResult): seq<Event> {
    seq(|indexes|, i requires 0 <= i < |indexes| => Updated(indexes[i], result))
  }

  /** One callback per subscriber of each changed query that still has a result. */
  function Updates(subs: map<QueryId, seq<nat>>, results: map<QueryId, FunctionResult>, changed: seq<QueryId>)
    : seq<Event>
  {
    if changed == [] then []
    else
      var id := changed[|changed| - 1];
      Updates(subs, results, changed[..|changed| - 1])
      + if id in results && id in subs then Notifications(subs[id], results[id]) else []
  }

  function Without(indexes: seq<nat>, index: nat): seq<nat> {
    if indexes == [] then []
    else
      var init, last := Without(indexes[..|indexes| - 1], index), indexes[|indexes| - 1];
      if last == index then init else init + [last]
  }

  function AddSub(subs: map<QueryId, seq<nat>>, h: Spec.SubscriberId): map<QueryId, seq<nat>> {
    subs[h.query := (if h.query in subs then subs[h.query] else []) + [h.index]]
  }

  function RemoveSub(subs: map<QueryId, seq<nat>>, h: Spec.SubscriberId): map<QueryId, seq<nat>> {
    if h.query !in subs then subs
    else if Without(subs[h.query], h.index) == [] then subs - {h.query}
    else subs[h.query := Without(subs[h.query], h.index)]
  }

  // ---- Connection lifecycle -------------------------------------------------

  /** begin_disconnect. `fetched` is what the token fetcher returns; without one, or with None, the token stays. */
  ghost function Disconnect(c: State, reason: string, fetched: Option<AuthToken>): State {
    var refreshed := if c.fetcher then fetched else None;
    var (left, events) := Resolve(c.pending, Spec.Restart(c.base.s, refreshed).1);
    c.(base := Runs.Step(c.base, Runs.Restarting(refreshed)),
       chunks := IDLE,
       conn := None,
       connGen := c.connGen + 1,
       socketOpen := false,
       pendingOpen := false,
       lastCloseReason := reason,
       retries := c.retries + 1,
       pending := left,
       reconnectScheduled := true,
       eventQueue := c.eventQueue + events)
  }

  /** handle_open: Connect, then everything queued. */
  ghost function HandleOpen(c: State): State
    requires c.conn.Some?
  {
    var connect := Spec.MakeConnect(c.base.s, c.lastCloseReason).1;
    DrainOutgoing(c.(base := Runs.Step(c.base, Runs.Connecting(c.lastCloseReason)),
                     wire := Send(c.wire, c.conn.value, [connect])))
  }

  ghost function WsOpen(c: State, gen: nat): State {
    if c.stopping || gen != c.connGen then c
    else if c.conn.None? then c.(socketOpen := true, pendingOpen := true)
    else HandleOpen(c.(socketOpen := true))
  }

  ghost function WsClose(c: State, gen: nat, reason: string, fetched: Option<AuthToken>): State {
    if c.stopping || gen != c.connGen then c else Disconnect(c, reason, fetched)
  }

  /** The worker calls connect() for a new generation. */
  function BeginConnect(c: State): State {
    if c.stopping || !c.reconnectScheduled || c.connecting.Some? then c
    else c.(reconnectScheduled := false, connGen := c.connGen + 1, connecting := Some(c.connGen + 1))
  }

  function ConnectFailed(what: string): string {
    if what == "" then "ConnectFailed" else "ConnectFailed: " + what
  }

  /** connect() has returned a connection, or thrown (or returned none, with nothing to say). */
  ghost function FinishConnect(c: State, failure: Option<string>, fetched: Option<AuthToken>): State {
    if c.connecting.None? then c
    else
      var gen, c1 := c.connecting.value, c.(connecting := None);
      if c.stopping || gen != c.connGen then c1
      else if failure.Some? then Disconnect(c1, ConnectFailed(failure.value), fetched)
      else if c.pendingOpen then HandleOpen(c1.(conn := Some(gen), pendingOpen := false, socketOpen := true))
      else c1.(conn := Some(gen))
  }

  /** The worker finds an open socket silent for too long. */
  ghost function Inactive(c: State, fetched: Option<AuthToken>): State {
    if c.stopping || !c.socketOpen || c.connecting.Some? then c else Disconnect(c, "InactiveServer", fetched)
  }

  // ---- Server messages --------------------------------------------------------

  /** A token rejected again, or with no way to refresh it, can never succeed. */
  predicate Hopeless(c: State, attempted: bool) {
    attempted || !c.fetcher || c.consecutiveAuthErrors + 1 >= 2
  }

  /** A token that cannot succeed is dropped for good. */
  ghost function AfterAuthError(c: State, reason: string, attempted: bool): State {
    if Hopeless(c, attempted) then
      c.(base := Runs.Step(c.base, Runs.SettingAuth(NoToken)), fetcher := false, consecutiveAuthErrors := 0,
         eventQueue := c.eventQueue + [AuthFailed(reason)])
    else c.(consecutiveAuthErrors := c.consecutiveAuthErrors + 1)
  }

  /** A message the base client cannot go on from: give up the connection, and an identity beyond repair. */
  ghost function Reject(c: State, r: Spec.ReceiveResult, fetched: Option<AuthToken>): State
    requires r.reconnectReason.Some?
  {
    var reason := r.reconnectReason.value;
    Disconnect(if r.authError then AfterAuthError(c, reason, r.authUpdateAttempted) else c, reason, fetched)
  }

  /** What the base client made of a message: callbacks to queue, and health to note. */
  function Absorb(c: State, r: Spec.ReceiveResult): State {
    var s := c.base.s;
    var (left, completions) := Resolve(c.pending, r.completed);
    var healthy := r.stateChanged && s.outstanding == {};
    c.(pending := left,
       eventQueue := c.eventQueue + Updates(c.subs, s.remoteResults, r.changedQueries) + completions,
       retries := if healthy then 0 else c.retries,
       consecutiveAuthErrors := if healthy then 0 else c.consecutiveAuthErrors)
  }

  ghost function Deliver(c: State, m: ServerMessage, fetched: Option<AuthToken>): State {
    var r := Spec.Receive(c.base.s, m).1;
    var c1 := c.(base := Runs.Step(c.base, Runs.Receiving(m)));
    if r.reconnectReason.Some? then Reject(c1, r, fetched) else DrainOutgoing(Absorb(c1, r))
  }

  ghost function WsMessage(c: State, gen: nat, text: string, fetched: Option<AuthToken>, decode: Decoder): State {
    if c.stopping || gen != c.connGen then c
    else
      match decode(text)
      case Err(why) => Disconnect(c, "ProtocolError: " + why, fetched)
      case Ok(m) =>
        if m.TransitionChunk? then
          var (chunks, fed) := Feed(c.chunks, m, decode);
          var c1 := c.(chunks := chunks);
          match fed
          case Partial => c1
          case Rejected(why) => Disconnect(c1, "ProtocolError: " + why, fetched)
          case Assembled(t) => Deliver(c1, t, fetched)
        else Deliver(if m.Ping? then c else c.(chunks := IDLE), m, fetched)
  }

  // ---- Public operations ------------------------------------------------------

  ghost function Subscribe(c: State, path: string, args: Option<string>): (State, Option<Spec.SubscriberId>) {
    var handle := Spec.Subscribe(c.base.s, path, args).1;
    if handle.None? then (c, None)
    else
      var h := handle.value;
      var base := Runs.Step(c.base, Runs.Subscribing(path, args));
      var known := h.query in base.s.remoteResults;
      (DrainOutgoing(
         c.(base := base,
            subs := AddSub(c.subs, h),
            eventQueue := c.eventQueue + if known then [Updated(h.index, base.s.remoteResults[h.query])] else [])),
       handle)
  }

  ghost function Unsubscribe(c: State, h: Spec.SubscriberId): State {
    if c.stopping then c
    else DrainOutgoing(c.(base := Runs.Step(c.base, Runs.Unsubscribing(h)), subs := RemoveSub(c.subs, h)))
  }

  ghost function Request(c: State, kind: Spec.RequestKind, path: string, args: Option<string>): State {
    if c.stopping then c.(fired := c.fired + [Refused])
    else
      var id := Spec.Request(c.base.s, kind, path, args).1;
      var c1 := c.(base := Runs.Step(c.base, Runs.Requesting(kind, path, args)));
      if id.None? then c1 else DrainOutgoing(c1.(pending := c.pending + {id.value}))
  }

  ghost function SetAuth(c: State, token: AuthToken, fetcher: bool): State {
    if c.stopping then c
    else
      DrainOutgoing(c.(fetcher := fetcher, consecutiveAuthErrors := 0,
                       base := Runs.Step(c.base, Runs.SettingAuth(token))))
  }

  function ProcessEvents(c: State): State { c.(eventQueue := [], fired := c.fired + c.eventQueue) }

  function Orphans(ids: seq<RequestId>): seq<Event> {
    seq(|ids|, i requires 0 <= i < |ids| => Completed(ids[i], SHUT_DOWN))
  }

  function Stopped(c: State): State {
    c.(stopping := true, connGen := c.connGen + 1, conn := None, socketOpen := false, pending := {}, subs := map[])
  }

  /** Callbacks still queued run first, then those of the requests still pending, which are failed. */
  ghost function Shutdown(c: State): State {
    if c.stopping then c
    else Stopped(c).(eventQueue := [], fired := c.fired + c.eventQueue + Orphans(SortedIds(c.pending)))
  }
}
