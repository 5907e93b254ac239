/**
 * Whole runs of the client: any interleaving of transport callbacks, worker steps and public operations,
 * each one atomic. Ties one epoch of the base client, restart to restart, to one physical connection.
 */
module ClientRuns {
  import opened Wrappers
  import opened Ordering
  import opened Sequences
  import opened Values
  import opened Protocol
  import opened Chunks
  import opened SyncSession
  import opened ClientSpec
  import Spec = BaseClientSpec
  import Runs = BaseClientRuns

  datatype Op =
    | SocketOpened(gen: nat)
    | SocketClosed(gen: nat, reason: string, fetched: Option<AuthToken>)
    | FrameArrived(gen: nat, text: string, fetched: Option<AuthToken>)
    | ConnectBegun
    | ConnectEnded(failure: Option<string>, fetched: Option<AuthToken>)
    | InactivityFound(fetched: Option<AuthToken>)
    | Subscribed(path: string, args: Option<string>)
    | Unsubscribed(handle: Spec.SubscriberId)
    | Requested(kind: Spec.RequestKind, path: string, args: Option<string>)
    | AuthSet(token: AuthToken, fetcher: bool)
    | EventsProcessed
    | ShutDown

  ghost function Step(c: State, op: Op, decode: Decoder): State {
    match op
    case SocketOpened(gen) => WsOpen(c, gen)
    case SocketClosed(gen, reason, fetched) => WsClose(c, gen, reason, fetched)
    case FrameArrived(gen, text, fetched) => WsMessage(c, gen, text, fetched, decode)
    case ConnectBegun => BeginConnect(c)
    case ConnectEnded(failure, fetched) => FinishConnect(c, failure, fetched)
    case InactivityFound(fetched) => Inactive(c, fetched)
    case Subscribed(path, args) => Subscribe(c, path, args).0
    case Unsubscribed(handle) => Unsubscribe(c, handle)
    case Requested(kind, path, args) => Request(c, kind, path, args)
    case AuthSet(token, fetcher) => SetAuth(c, token, fetcher)
    case EventsProcessed => ProcessEvents(c)
    case ShutDown => Shutdown(c)
  }

  ghost function Execute(ops: seq<Op>, decode: Decoder): State {
    if ops == [] then INITIAL else Step(Execute(ops[..|ops| - 1], decode), ops[|ops| - 1], decode)
  }

  // ---- One frame ------------------------------------------------------------------

  /** The message an op makes the base client receive, if any. */
  ghost function Handled(c: State, op: Op, decode: Decoder): Option<ServerMessage> {
    if !op.FrameArrived? || c.stopping || op.gen != c.connGen || decode(op.text).Err? then None
    else
      var m := decode(op.text).value;
      if !m.TransitionChunk? then Some(m)
      else match Feed(c.chunks, m, decode).1
           case Assembled(t) => Some(t)
           case _ => None
  }

  /** What arriving as one frame means for a whole message. */
  lemma WholeMessageStep(c: State, op: Op, decode: Decoder, m: ServerMessage)
    requires op.FrameArrived? && !c.stopping && op.gen == c.connGen
    requires decode(op.text) == Ok(m) && !m.TransitionChunk?
    ensures Step(c, op, decode) == Deliver(if m.Ping? then c else c.(chunks := IDLE), m, op.fetched)
    ensures Handled(c, op, decode) == Some(m)
  {
  }

  /** What arriving as one frame means for a chunk. */
  lemma ChunkStep(c: State, op: Op, decode: Decoder, m: ServerMessage)
    requires op.FrameArrived? && !c.stopping && op.gen == c.connGen
    requires decode(op.text) == Ok(m) && m.TransitionChunk?
    ensures var (chunks, fed) := Feed(c.chunks, m, decode);
            var c1 := c.(chunks := chunks);
            && Step(c, op, decode) == (match fed
                                       case Partial => c1
                                       case Rejected(why) => Disconnect(c1, "ProtocolError: " + why, op.fetched)
                                       case Assembled(t) => Deliver(c1, t, op.fetched))
            && Handled(c, op, decode) == (if fed.Assembled? then Some(fed.transition) else None)
  {
  }

  /** What arriving as one frame means for text that is no message. */
  lemma MalformedStep(c: State, op: Op, decode: Decoder)
    requires op.FrameArrived? && !c.stopping && op.gen == c.connGen && decode(op.text).Err?
    ensures Step(c, op, decode) == Disconnect(c, "ProtocolError: " + decode(op.text).error, op.fetched)
    ensures Handled(c, op, decode) == None
  {
  }

  /**
   * What is assumed of the transport: a connection reports on_open at most once, and only a connection
   * that connect() was called for reports anything.
   */
  ghost predicate TransportOk(c: State, op: Op) {
    op.SocketOpened? && op.gen == c.connGen ==> !c.socketOpen && (c.conn.Some? || c.connecting == Some(c.connGen))
  }

  ghost predicate Conforming(ops: seq<Op>, decode: Decoder) {
    forall k :: 0 <= k < |ops| ==> TransportOk(Execute(ops[..k], decode), ops[k])
  }

  // ---- The base client underneath -------------------------------------------

  /** `r` is a run of the base client, so everything proved of its runs holds of it. */
  ghost predicate Reachable(r: Runs.Run) {
    exists ops :: Runs.Execute(ops) == r
  }

  lemma ReachableStep(r: Runs.Run, op: Runs.Op)
    requires Reachable(r)
    ensures Reachable(Runs.Step(r, op))
  {
    var ops :| Runs.Execute(ops) == r;
    assert (ops + [op])[..|ops|] == ops;
    assert Runs.Execute(ops + [op]) == Runs.Step(r, op);
  }

  lemma ReachableCore(r: Runs.Run)
    requires Reachable(r)
    ensures Runs.Core(r)
  {
    var ops :| Runs.Execute(ops) == r;
    Runs.CoreAlways(ops);
  }

  /** Draining the queue is popping it message by message. */
  lemma {:induction false} ReachableEmptied(r: Runs.Run)
    requires Reachable(r)
    ensures Reachable(Emptied(r))
    decreases |r.s.outgoing|
  {
    if r.s.outgoing == [] {
      assert Emptied(r) == r;
    } else {
      ReachableStep(r, Runs.Popping);
      ReachableEmptied(Runs.Step(r, Runs.Popping));
      EmptiedAfterPop(r);
    }
  }

  lemma EmptiedAfterPop(r: Runs.Run)
    requires r.s.outgoing != []
    ensures Emptied(Runs.Step(r, Runs.Popping)) == Emptied(r)
  {
    Runs.MovedAcross(r.sent, r.s.outgoing);
    Runs.MovedAcross(r.everSent, r.s.outgoing);
  }

  // ---- Invariants -------------------------------------------------------------

  /** How the connection fields hang together while the client runs. */
  ghost predicate Linked(c: State) {
    && (c.conn.Some? ==> c.conn.value == c.connGen && c.connecting.None? && !c.reconnectScheduled)
    && (c.reconnectScheduled ==> !c.socketOpen)
    && (c.connecting.Some? ==> c.connecting.value <= c.connGen)
    && (c.connecting == Some(c.connGen) ==> !c.reconnectScheduled)
    && (c.pendingOpen <==> c.socketOpen && c.conn.None?)
  }

  /** The socket can carry frames. */
  predicate Live(c: State) { c.conn.Some? && c.socketOpen }

  /** A connection carries Connect first, and then only what a server accepts. */
  ghost predicate WellFormedWire(frames: seq<ClientMessage>) {
    frames != [] ==> frames[0].Connect? && Replay(frames[1..]).Some?
  }

  /** The current connection has carried Connect and then exactly what this epoch popped; or nothing. */
  ghost predicate EpochOnWire(c: State) {
    var frames := Frames(c.wire, c.connGen);
    if Live(c) then frames != [] && frames[0].Connect? && frames[1..] == c.base.sent
    else frames == [] && c.base.sent == []
  }

  /** Everything carried after Connect, connection by connection. */
  function Carried(wire: map<nat, seq<ClientMessage>>, upTo: nat): seq<ClientMessage>
    decreases upTo, 1
  {
    CarriedBefore(wire, upTo) + Tail(Frames(wire, upTo))
  }

  function CarriedBefore(wire: map<nat, seq<ClientMessage>>, gen: nat): seq<ClientMessage>
    decreases gen, 0
  {
    if gen == 0 then [] else Carried(wire, gen - 1)
  }

  ghost predicate Wired(c: State) {
    && (forall g :: g in c.wire ==> g <= c.connGen)
    && (forall g :: WellFormedWire(Frames(c.wire, g)))
    && Carried(c.wire, c.connGen) == c.base.everSent
    && (!c.stopping ==> Linked(c) && EpochOnWire(c))
    && (c.stopping ==> c.conn.None?)
  }

  /** After every locked step, nothing stays queued on an open connection. */
  predicate NothingQueued(c: State) { !c.stopping && Live(c) ==> c.base.s.outgoing == [] }

  /** The requests called back among `events`, and what each was told. */
  function Answers(events: seq<Event>): seq<Spec.Completion> {
    if events == [] then []
    else
      var init, last := Answers(events[..|events| - 1]), events[|events| - 1];
      if last.Completed? then init + [(last.id, last.result)] else init
  }

  /** What shutdown tells the requests that are still pending. */
  function GivenUp(ids: seq<RequestId>): seq<Spec.Completion> {
    seq(|ids|, i requires 0 <= i < |ids| => (ids[i], SHUT_DOWN))
  }

  /** Callbacks queued or run are the base client's reports, in order; the rest are pending until shutdown. */
  ghost predicate CalledBack(c: State) {
    var called := Answers(c.fired + c.eventQueue);
    if c.stopping then
      && called == c.base.reported + GivenUp(SortedIds(c.base.s.ongoing.Keys)) && c.pending == {}
      && Answers(c.eventQueue) == []
    else
      called == c.base.reported && c.pending == c.base.s.ongoing.Keys
  }

  ghost predicate Sound(c: State) { Reachable(c.base) && Wired(c) && CalledBack(c) }

  ghost predicate Settled(c: State) { Sound(c) && NothingQueued(c) }

  // ---- Wires ------------------------------------------------------------------

  lemma {:induction false} CarriedBelow(wire: map<nat, seq<ClientMessage>>, gen: nat, frames: seq<ClientMessage>,
                                        upTo: nat)
    requires upTo < gen
    ensures Carried(Send(wire, gen, frames), upTo) == Carried(wire, upTo)
  {
    if upTo > 0 { CarriedBelow(wire, gen, frames, upTo - 1); }
  }

  function Tail(frames: seq<ClientMessage>): seq<ClientMessage> {
    if frames == [] then [] else frames[1..]
  }

  lemma TailConcat(a: seq<ClientMessage>, b: seq<ClientMessage>)
    ensures Tail(a + b) == Tail(a) + (if a == [] then Tail(b) else b)
  {
    if a == [] { assert a + b == b; }
  }

  lemma CarriedAfterSend(wire: map<nat, seq<ClientMessage>>, gen: nat, frames: seq<ClientMessage>)
    ensures Carried(Send(wire, gen, frames), gen)
            == Carried(wire, gen) + (if Frames(wire, gen) == [] then Tail(frames) else frames)
  {
    var before := Frames(wire, gen);
    var more := if before == [] then Tail(frames) else frames;
    if gen > 0 { CarriedBelow(wire, gen, frames, gen - 1); }
    assert CarriedBefore(Send(wire, gen, frames), gen) == CarriedBefore(wire, gen);
    TailConcat(before, frames);
    ConcatAssociative(CarriedBefore(wire, gen), Tail(before), more);
  }

  lemma SentIsAccepted(r: Runs.Run)
    requires Reachable(r)
    ensures Replay(r.sent).Some?
  {
    ReachableCore(r);
    ReplayPrefix(Runs.Stream(r), |r.sent|);
    assert Runs.Stream(r)[..|r.sent|] == r.sent;
  }

  /** Draining appends what was queued to the open connection's frames. */
  lemma DrainEpoch(c: State)
    requires Live(c) && c.conn.value == c.connGen && EpochOnWire(c)
    ensures Live(DrainOutgoing(c)) && EpochOnWire(DrainOutgoing(c))
    ensures forall g :: g != c.connGen ==> Frames(DrainOutgoing(c).wire, g) == Frames(c.wire, g)
  {
    var frames := Frames(c.wire, c.connGen);
    assert (frames + c.base.s.outgoing)[1..] == frames[1..] + c.base.s.outgoing;
  }

  lemma DrainCarried(c: State)
    requires Live(c) && c.conn.value == c.connGen && EpochOnWire(c)
    requires Carried(c.wire, c.connGen) == c.base.everSent
    ensures Carried(DrainOutgoing(c).wire, c.connGen) == DrainOutgoing(c).base.everSent
  {
    hide Carried;
    CarriedAfterSend(c.wire, c.connGen, c.base.s.outgoing);
  }

  lemma DrainWired(c: State)
    requires Wired(c) && Reachable(c.base) && !c.stopping
    ensures Wired(DrainOutgoing(c))
  {
    if Live(c) {
      hide Replay, Carried, Reachable;
      var c1 := DrainOutgoing(c);
      DrainEpoch(c);
      DrainCarried(c);
      ReachableEmptied(c.base);
      SentIsAccepted(c1.base);
      hide EpochOnWire;
      forall g
        ensures WellFormedWire(Frames(c1.wire, g))
      {
        if g == c.connGen { EpochWellFormed(c1); } else { assert WellFormedWire(Frames(c.wire, g)); }
      }
    }
  }

  lemma EpochWellFormed(c: State)
    requires Live(c) && EpochOnWire(c) && Replay(c.base.sent).Some?
    ensures WellFormedWire(Frames(c.wire, c.connGen))
  {
  }

  lemma DrainSettles(c: State)
    requires Sound(c) && !c.stopping
    ensures Settled(DrainOutgoing(c))
  {
    DrainWired(c);
    if Live(c) { ReachableEmptied(c.base); }
  }

  /** A change of the base client that pops nothing and loses nothing leaves the wires right. */
  lemma QuietBaseWired(c: State, c1: State)
    requires Wired(c)
    requires c1.base.sent == c.base.sent && c1.base.everSent == c.base.everSent && c1.wire == c.wire
    requires c1.conn == c.conn && c1.connGen == c.connGen && c1.socketOpen == c.socketOpen
    requires c1.pendingOpen == c.pendingOpen && c1.stopping == c.stopping
    requires c1.reconnectScheduled == c.reconnectScheduled && c1.connecting == c.connecting
    ensures Wired(c1)
  {
  }

  lemma OpenWired(c: State)
    requires Wired(c) && Reachable(c.base) && !c.stopping && !Live(c)
    requires c.connecting.None? && !c.reconnectScheduled
    ensures var c1 := c.(conn := Some(c.connGen), socketOpen := true, pendingOpen := false);
            var connect := Spec.MakeConnect(c.base.s, c.lastCloseReason).1;
            Wired(c1.(base := Runs.Step(c.base, Runs.Connecting(c.lastCloseReason)),
                      wire := Send(c.wire, c.connGen, [connect])))
  {
    var connect := Spec.MakeConnect(c.base.s, c.lastCloseReason).1;
    var wire := Send(c.wire, c.connGen, [connect]);
    CarriedAfterSend(c.wire, c.connGen, [connect]);
    assert Frames(c.wire, c.connGen) == [] && Frames(wire, c.connGen) == [connect];
    forall g
      ensures WellFormedWire(Frames(wire, g))
    {
      if g != c.connGen { assert Frames(wire, g) == Frames(c.wire, g); }
    }
  }

  /** Moving on to a generation nothing has been sent on. */
  lemma NextGenerationCarried(wire: map<nat, seq<ClientMessage>>, gen: nat)
    requires forall g :: g in wire ==> g <= gen
    ensures Carried(wire, gen + 1) == Carried(wire, gen) && Frames(wire, gen + 1) == []
  {
  }

  // ---- Callbacks ----------------------------------------------------------------

  lemma {:induction false} AnswersConcat(a: seq<Event>, b: seq<Event>)
    ensures Answers(a + b) == Answers(a) + Answers(b)
  {
    if b == [] {
      assert a + b == a;
    } else {
      AnswersConcat(a, b[..|b| - 1]);
      assert (a + b)[..|a + b| - 1] == a + b[..|b| - 1];
    }
  }

  lemma {:induction false} UpdatesHoldNoCallback(subs: map<QueryId, seq<nat>>, results: map<QueryId, FunctionResult>,
                                                 changed: seq<QueryId>)
    ensures Answers(Updates(subs, results, changed)) == []
  {
    if changed != [] {
      var init, id := changed[..|changed| - 1], changed[|changed| - 1];
      UpdatesHoldNoCallback(subs, results, init);
      if id in results && id in subs {
        NotificationsHoldNoCallback(subs[id], results[id]);
        AnswersConcat(Updates(subs, results, init), Notifications(subs[id], results[id]));
      } else {
        assert Updates(subs, results, changed) == Updates(subs, results, init);
      }
    }
  }

  lemma {:induction false} NotificationsHoldNoCallback(indexes: seq<nat>, result: FunctionResult)
    ensures Answers(Notifications(indexes, result)) == []
  {
    if indexes != [] {
      var events := Notifications(indexes, result);
      assert events[..|events| - 1] == Notifications(indexes[..|indexes| - 1], result);
      NotificationsHoldNoCallback(indexes[..|indexes| - 1], result);
    }
  }

  lemma {:induction false} OrphansCallBack(ids: seq<RequestId>)
    ensures Answers(Orphans(ids)) == GivenUp(ids)
  {
    if ids != [] {
      var events := Orphans(ids);
      assert events[..|events| - 1] == Orphans(ids[..|ids| - 1]);
      OrphansCallBack(ids[..|ids| - 1]);
      assert GivenUp(ids) == GivenUp(ids[..|ids| - 1]) + [(ids[|ids| - 1], SHUT_DOWN)];
    }
  }

  /** Every finished request has its callback pending, so each is moved to the queue, in order. */
  lemma {:induction false} ResolveAll(pending: set<RequestId>, done: seq<Spec.Completion>)
    requires Distinct(Runs.CompletedIds(done))
    requires forall id :: id in Runs.CompletedIds(done) ==> id in pending
    ensures var (left, events) := Resolve(pending, done);
            && (forall id :: id in left <==> id in pending && id !in Runs.CompletedIds(done))
            && Answers(events) == done
  {
    var ids := Runs.CompletedIds(done);
    if done != [] {
      var init, last := done[..|done| - 1], done[|done| - 1];
      assert Runs.CompletedIds(init) == ids[..|ids| - 1];
      assert ids == Runs.CompletedIds(init) + [last.0];
      assert forall id :: id in Runs.CompletedIds(init) ==> id in ids;
      ResolveAll(pending, init);
      forall k | 0 <= k < |init|
        ensures Runs.CompletedIds(init)[k] != last.0
      {
        assert ids[k] != ids[|ids| - 1];
      }
      AnswersConcat(Resolve(pending, init).1, [Completed(last.0, last.1)]);
    }
  }

  /** The callbacks of requests that leave `ongoing` are queued, and no others. */
  lemma ResolveCalledBack(c: State, c1: State, quiet: seq<Event>, done: seq<Spec.Completion>)
    requires CalledBack(c) && !c.stopping && !c1.stopping && Answers(quiet) == []
    requires Runs.Drained(c.base.s.ongoing, done, c1.base.s.ongoing)
    requires c1.base.reported == c.base.reported + done
    requires c1.pending == Resolve(c.pending, done).0
    requires c1.fired == c.fired && c1.eventQueue == c.eventQueue + quiet + Resolve(c.pending, done).1
    ensures CalledBack(c1)
  {
    var events := Resolve(c.pending, done).1;
    ResolveAll(c.pending, done);
    assert c1.fired + c1.eventQueue == (c.fired + c.eventQueue) + (quiet + events);
    AnswersConcat(c.fired + c.eventQueue, quiet + events);
    AnswersConcat(quiet, events);
    assert forall id :: id in c1.base.s.ongoing <==> id in c.base.s.ongoing && id !in Runs.CompletedIds(done);
    assert c1.pending == c1.base.s.ongoing.Keys;
  }

  /** Queueing an event that is no request's callback, with no change to requests. */
  lemma QuietCalledBack(c: State, c1: State, quiet: seq<Event>)
    requires CalledBack(c) && Answers(quiet) == [] && c1.stopping == c.stopping
    requires c1.base.s.ongoing == c.base.s.ongoing && c1.base.reported == c.base.reported && c1.pending == c.pending
    requires c1.fired == c.fired && c1.eventQueue == c.eventQueue + quiet
    ensures CalledBack(c1)
  {
    assert c1.fired + c1.eventQueue == (c.fired + c.eventQueue) + quiet;
    AnswersConcat(c.fired + c.eventQueue, quiet);
    AnswersConcat(c.eventQueue, quiet);
  }

  // ---- Each step keeps the invariants ---------------------------------------------

  /** The wires after moving on to a generation nothing has been sent on. */
  lemma NextGenerationWired(c: State, c1: State)
    requires Wired(c) && c1.wire == c.wire && c1.connGen == c.connGen + 1 && c1.base.everSent == c.base.everSent
    requires !Live(c1) && (if c1.stopping then c1.conn.None? else Linked(c1) && c1.base.sent == [])
    ensures Wired(c1)
  {
    NextGenerationCarried(c.wire, c.connGen);
  }

  lemma RestartReports(r: Runs.Run, refreshed: Option<AuthToken>)
    ensures var (s, failed) := Spec.Restart(r.s, refreshed);
            var r1 := Runs.Step(r, Runs.Restarting(refreshed));
            r1.s == s && r1.reported == r.reported + failed
  {
  }

  lemma DisconnectCalledBack(c: State, reason: string, fetched: Option<AuthToken>)
    requires CalledBack(c) && !c.stopping
    ensures CalledBack(Disconnect(c, reason, fetched))
  {
    var refreshed := if c.fetcher then fetched else None;
    var failed, c1 := Spec.Restart(c.base.s, refreshed).1, Disconnect(c, reason, fetched);
    Runs.RestartDrains(c.base.s, refreshed);
    RestartReports(c.base, refreshed);
    assert c1.base == Runs.Step(c.base, Runs.Restarting(refreshed));
    ResolveCalledBack(c, c1, [], failed);
  }

  lemma DisconnectSettled(c: State, reason: string, fetched: Option<AuthToken>)
    requires Sound(c) && !c.stopping
    ensures Settled(Disconnect(c, reason, fetched))
  {
    ReachableStep(c.base, Runs.Restarting(if c.fetcher then fetched else None));
    DisconnectCalledBack(c, reason, fetched);
    NextGenerationWired(c, Disconnect(c, reason, fetched));
  }

  lemma HandleOpenSettled(c: State)
    requires Sound(c) && !c.stopping && !Live(c) && c.connecting.None? && !c.reconnectScheduled
    ensures Settled(HandleOpen(c.(conn := Some(c.connGen), socketOpen := true, pendingOpen := false)))
  {
    var c1 := c.(conn := Some(c.connGen), socketOpen := true, pendingOpen := false);
    var connect := Spec.MakeConnect(c.base.s, c.lastCloseReason).1;
    var c2 := c1.(base := Runs.Step(c.base, Runs.Connecting(c.lastCloseReason)),
                  wire := Send(c.wire, c.connGen, [connect]));
    OpenWired(c);
    ReachableStep(c.base, Runs.Connecting(c.lastCloseReason));
    QuietCalledBack(c, c2, []);
    DrainSettles(c2);
  }

  lemma SocketOpenedSettled(c: State, gen: nat)
    requires Settled(c) && TransportOk(c, SocketOpened(gen))
    ensures Settled(WsOpen(c, gen))
  {
    if !c.stopping && gen == c.connGen {
      if c.conn.Some? {
        assert c.(socketOpen := true) == c.(conn := Some(c.connGen), socketOpen := true, pendingOpen := false);
        HandleOpenSettled(c);
      }
    }
  }

  lemma ConnectEndedSettled(c: State, failure: Option<string>, fetched: Option<AuthToken>)
    requires Settled(c)
    ensures Settled(FinishConnect(c, failure, fetched))
  {
    if c.connecting.Some? {
      var gen, c1 := c.connecting.value, c.(connecting := None);
      if !c.stopping {
        if gen != c.connGen {
          assert Settled(c1);
        } else if failure.Some? {
          ConnectFailedSettled(c, ConnectFailed(failure.value), fetched);
        } else if c.pendingOpen {
          ConnectedAndOpenSettled(c);
        }
      }
    }
  }

  lemma ConnectFailedSettled(c: State, failure: string, fetched: Option<AuthToken>)
    requires Settled(c) && !c.stopping && c.connecting == Some(c.connGen)
    ensures Settled(Disconnect(c.(connecting := None), failure, fetched))
  {
    var c0 := c.(connecting := None, reconnectScheduled := false, socketOpen := false, pendingOpen := false);
    assert Sound(c0);
    assert Disconnect(c0, failure, fetched) == Disconnect(c.(connecting := None), failure, fetched);
    DisconnectSettled(c0, failure, fetched);
  }

  lemma ConnectedAndOpenSettled(c: State)
    requires Settled(c) && !c.stopping && c.connecting == Some(c.connGen) && c.pendingOpen
    ensures Settled(HandleOpen(c.(connecting := None, conn := Some(c.connGen), pendingOpen := false,
                                  socketOpen := true)))
  {
    var c0 := c.(connecting := None, socketOpen := false, pendingOpen := false);
    assert Sound(c0);
    assert c0.(conn := Some(c.connGen), socketOpen := true, pendingOpen := false)
           == c.(connecting := None, conn := Some(c.connGen), pendingOpen := false, socketOpen := true);
    HandleOpenSettled(c0);
  }

  lemma ReconnectIsQuiet(s: Spec.State, m: ServerMessage)
    ensures var (s1, r) := Spec.Receive(s, m); r.reconnectReason.Some? ==> s1 == s && r.completed == []
  {
  }

  lemma AfterAuthErrorSound(c: State, reason: string, attempted: bool)
    requires Sound(c) && !c.stopping
    ensures Sound(AfterAuthError(c, reason, attempted)) && !AfterAuthError(c, reason, attempted).stopping
  {
    var c1 := AfterAuthError(c, reason, attempted);
    ReachableStep(c.base, Runs.SettingAuth(NoToken));
    QuietBaseWired(c, c1);
    if c1.eventQueue == c.eventQueue {
      assert CalledBack(c1);
    } else {
      assert Answers([AuthFailed(reason)]) == [] by { assert [AuthFailed(reason)][..0] == []; }
      QuietCalledBack(c, c1, [AuthFailed(reason)]);
    }
  }

  /** A message that forces a reconnect leaves the base client as it was. */
  lemma RejectedBase(r: Runs.Run, m: ServerMessage)
    requires Spec.Receive(r.s, m).1.reconnectReason.Some?
    ensures Runs.Step(r, Runs.Receiving(m)) == r
  {
    ReconnectIsQuiet(r.s, m);
    assert r.reported + [] == r.reported;
  }

  lemma RejectSettled(c: State, r: Spec.ReceiveResult, fetched: Option<AuthToken>)
    requires Sound(c) && !c.stopping && r.reconnectReason.Some?
    ensures Settled(Reject(c, r, fetched))
  {
    var reason := r.reconnectReason.value;
    AfterAuthErrorSound(c, reason, r.authUpdateAttempted);
    DisconnectSettled(if r.authError then AfterAuthError(c, reason, r.authUpdateAttempted) else c, reason, fetched);
  }

  lemma DeliverSettled(c: State, m: ServerMessage, fetched: Option<AuthToken>)
    requires Sound(c) && !c.stopping
    ensures Settled(Deliver(c, m, fetched))
  {
    var r := Spec.Receive(c.base.s, m).1;
    if r.reconnectReason.Some? {
      RejectedBase(c.base, m);
      assert c.(base := c.base) == c;
      RejectSettled(c, r, fetched);
    } else {
      ReachableStep(c.base, Runs.Receiving(m));
      DeliverResultsSettled(c, m, fetched);
    }
  }

  lemma DeliverResultsSettled(c: State, m: ServerMessage, fetched: Option<AuthToken>)
    requires Sound(c) && !c.stopping && Spec.Receive(c.base.s, m).1.reconnectReason.None?
    requires Reachable(Runs.Step(c.base, Runs.Receiving(m)))
    ensures Settled(Deliver(c, m, fetched))
  {
    var r := Spec.Receive(c.base.s, m).1;
    var base := Runs.Step(c.base, Runs.Receiving(m));
    var (left, completions) := Resolve(c.pending, r.completed);
    var updates := Updates(c.subs, base.s.remoteResults, r.changedQueries);
    var healthy := r.stateChanged && base.s.outstanding == {};
    var c2 := c.(base := base, pending := left, eventQueue := c.eventQueue + updates + completions,
                 retries := if healthy then 0 else c.retries,
                 consecutiveAuthErrors := if healthy then 0 else c.consecutiveAuthErrors);
    UpdatesHoldNoCallback(c.subs, base.s.remoteResults, r.changedQueries);
    Runs.ReceiveDrains(c.base.s, m);
    ResolveCalledBack(c, c2, updates, r.completed);
    QuietBaseWired(c, c2);
    DrainSettles(c2);
  }

  lemma ChunksDoNotMatter(c: State, chunks: Buffer)
    requires Settled(c)
    ensures Settled(c.(chunks := chunks))
  {
    QuietBaseWired(c, c.(chunks := chunks));
    QuietCalledBack(c, c.(chunks := chunks), []);
  }

  lemma ChunkArrivedSettled(c: State, m: ServerMessage, fetched: Option<AuthToken>, decode: Decoder)
    requires Settled(c) && !c.stopping && m.TransitionChunk?
    ensures var (chunks, fed) := Feed(c.chunks, m, decode);
            var c1 := c.(chunks := chunks);
            match fed
            case Partial => Settled(c1)
            case Rejected(why) => Settled(Disconnect(c1, "ProtocolError: " + why, fetched))
            case Assembled(t) => Settled(Deliver(c1, t, fetched))
  {
    var (chunks, fed) := Feed(c.chunks, m, decode);
    ChunksDoNotMatter(c, chunks);
    match fed
    case Partial =>
    case Rejected(why) => DisconnectSettled(c.(chunks := chunks), "ProtocolError: " + why, fetched);
    case Assembled(t) => DeliverSettled(c.(chunks := chunks), t, fetched);
  }

  lemma FrameArrivedSettled(c: State, gen: nat, text: string, fetched: Option<AuthToken>, decode: Decoder)
    requires Settled(c)
    ensures Settled(WsMessage(c, gen, text, fetched, decode))
  {
    if !c.stopping && gen == c.connGen {
      match decode(text)
      case Err(why) => DisconnectSettled(c, "ProtocolError: " + why, fetched);
      case Ok(m) =>
        if m.TransitionChunk? {
          ChunkArrivedSettled(c, m, fetched, decode);
        } else {
          ChunksDoNotMatter(c, IDLE);
          DeliverSettled(if m.Ping? then c else c.(chunks := IDLE), m, fetched);
        }
    }
  }

  lemma FirstUpdateHoldsNoCallback(index: nat, result: FunctionResult)
    ensures Answers([Updated(index, result)]) == []
  {
    assert [Updated(index, result)][..0] == [];
  }

  /** A step of the base client that touches no request, followed by a drain. */
  lemma BaseStepSettled(c: State, c1: State, op: Runs.Op, quiet: seq<Event>)
    requires Settled(c) && c1.base == Runs.Step(c.base, op) && Answers(quiet) == []
    requires c1.base.sent == c.base.sent && c1.base.everSent == c.base.everSent
    requires c1.base.s.ongoing == c.base.s.ongoing && c1.base.reported == c.base.reported
    requires c1 == c.(base := c1.base, subs := c1.subs, fetcher := c1.fetcher,
                      consecutiveAuthErrors := c1.consecutiveAuthErrors, eventQueue := c.eventQueue + quiet)
    ensures c.stopping ==> Settled(c1)
    ensures Settled(DrainOutgoing(c1))
  {
    ReachableStep(c.base, op);
    QuietBaseWired(c, c1);
    QuietCalledBack(c, c1, quiet);
    if !c.stopping { DrainSettles(c1); }
  }

  lemma SubscribedSettled(c: State, path: string, args: Option<string>)
    requires Settled(c)
    ensures Settled(Subscribe(c, path, args).0)
  {
    var handle := Spec.Subscribe(c.base.s, path, args).1;
    if handle.Some? {
      var h, base := handle.value, Runs.Step(c.base, Runs.Subscribing(path, args));
      var first := if h.query in base.s.remoteResults then [Updated(h.index, base.s.remoteResults[h.query])] else [];
      if first != [] { FirstUpdateHoldsNoCallback(h.index, base.s.remoteResults[h.query]); }
      var c1 := c.(base := base, subs := AddSub(c.subs, h), eventQueue := c.eventQueue + first);
      BaseStepSettled(c, c1, Runs.Subscribing(path, args), first);
    }
  }

  lemma UnsubscribedSettled(c: State, h: Spec.SubscriberId)
    requires Settled(c)
    ensures Settled(Unsubscribe(c, h))
  {
    assert c.eventQueue + [] == c.eventQueue;
    var c1 := c.(base := Runs.Step(c.base, Runs.Unsubscribing(h)), subs := RemoveSub(c.subs, h));
    BaseStepSettled(c, c1, Runs.Unsubscribing(h), []);
  }

  lemma AuthSetSettled(c: State, token: AuthToken, fetcher: bool)
    requires Settled(c)
    ensures Settled(SetAuth(c, token, fetcher))
  {
    assert c.eventQueue + [] == c.eventQueue;
    var c1 := c.(fetcher := fetcher, consecutiveAuthErrors := 0, base := Runs.Step(c.base, Runs.SettingAuth(token)));
    BaseStepSettled(c, c1, Runs.SettingAuth(token), []);
  }

  lemma RequestedSettled(c: State, kind: Spec.RequestKind, path: string, args: Option<string>)
    requires Settled(c)
    ensures Settled(Request(c, kind, path, args))
  {
    if c.stopping {
      RefusedSettled(c);
    } else {
      var id := Spec.Request(c.base.s, kind, path, args).1;
      var base := Runs.Step(c.base, Runs.Requesting(kind, path, args));
      var c1 := c.(base := base, pending := if id.Some? then c.pending + {id.value} else c.pending);
      ReachableStep(c.base, Runs.Requesting(kind, path, args));
      QuietBaseWired(c, c1);
      assert CalledBack(c1);
      if id.Some? { DrainSettles(c1); }
    }
  }

  lemma RefusedSettled(c: State)
    requires Settled(c) && c.stopping
    ensures Settled(c.(fired := c.fired + [Refused]))
  {
    var c1 := c.(fired := c.fired + [Refused]);
    AnswersConcat(c.fired, c.eventQueue);
    AnswersConcat(c1.fired, c1.eventQueue);
    assert (c.fired + [Refused])[..|c.fired|] == c.fired;
    QuietBaseWired(c, c1);
  }

  lemma ProcessedSettled(c: State)
    requires Settled(c)
    ensures Settled(ProcessEvents(c))
  {
    var c1 := ProcessEvents(c);
    assert c1.fired + c1.eventQueue == c.fired + c.eventQueue;
    QuietBaseWired(c, c1);
  }

  lemma ShutDownCalledBack(c: State)
    requires CalledBack(c) && !c.stopping
    ensures CalledBack(Shutdown(c))
  {
    var c1 := Shutdown(c);
    var orphans := Orphans(SortedIds(c.pending));
    OrphansCallBack(SortedIds(c.pending));
    AnswersConcat(c.fired + c.eventQueue, orphans);
    assert c1.fired + c1.eventQueue == c.fired + c.eventQueue + orphans;
  }

  lemma ShutDownSettled(c: State)
    requires Settled(c)
    ensures Settled(Shutdown(c))
  {
    if !c.stopping {
      ShutDownCalledBack(c);
      NextGenerationWired(c, Shutdown(c));
    }
  }

  lemma ConnectBegunSettled(c: State)
    requires Settled(c)
    ensures Settled(BeginConnect(c))
  {
    var c1 := BeginConnect(c);
    if c1 != c {
      assert !Live(c) && c.base.sent == [];
      NextGenerationWired(c, c1);
      QuietCalledBack(c, c1, []);
    }
  }

  lemma SettledStep(c: State, op: Op, decode: Decoder)
    requires Settled(c) && TransportOk(c, op)
    ensures Settled(Step(c, op, decode))
  {
    hide Sound, NothingQueued, Disconnect, WsOpen, WsMessage, BeginConnect, FinishConnect, Subscribe, Unsubscribe,
      Request, SetAuth, ProcessEvents, Shutdown;
    match op
    case SocketOpened(gen) => SocketOpenedSettled(c, gen);
    case SocketClosed(gen, reason, fetched) =>
      if !c.stopping && gen == c.connGen { DisconnectSettled(c, reason, fetched); }
    case FrameArrived(gen, text, fetched) => FrameArrivedSettled(c, gen, text, fetched, decode);
    case ConnectBegun => ConnectBegunSettled(c);
    case ConnectEnded(failure, fetched) => ConnectEndedSettled(c, failure, fetched);
    case InactivityFound(fetched) =>
      if !c.stopping { DisconnectSettled(c, "InactiveServer", fetched); }
    case Subscribed(path, args) => SubscribedSettled(c, path, args);
    case Unsubscribed(handle) => UnsubscribedSettled(c, handle);
    case Requested(kind, path, args) => RequestedSettled(c, kind, path, args);
    case AuthSet(token, fetcher) => AuthSetSettled(c, token, fetcher);
    case EventsProcessed => ProcessedSettled(c);
    case ShutDown => ShutDownSettled(c);
  }

  lemma InitialSettled()
    ensures Settled(INITIAL)
  {
    assert Runs.Execute([]) == INITIAL.base;
  }

  lemma {:induction false} SettledAlways(ops: seq<Op>, decode: Decoder)
    requires Conforming(ops, decode)
    ensures Settled(Execute(ops, decode))
  {
    if ops == [] {
      InitialSettled();
    } else {
      var init := ops[..|ops| - 1];
      assert forall k :: 0 <= k < |init| ==> init[..k] == ops[..k];
      SettledAlways(init, decode);
      SettledStep(Execute(init, decode), ops[|ops| - 1], decode);
    }
  }

  // ---- Theorem: wire discipline ---------------------------------------------------

  /**
   * Each connection's first frame is Connect, and what follows is a stream the server accepts: versions
   * chain from zero and request ids increase. The connections together carry exactly what the base
   * client popped, in order: no message is lost between them or put on two of them. The connection held,
   * if any, is the one opened for the current generation.
   */
  lemma WireDiscipline(ops: seq<Op>, decode: Decoder)
    requires Conforming(ops, decode)
    ensures var c := Execute(ops, decode);
            && (forall g :: WellFormedWire(Frames(c.wire, g)))
            && Carried(c.wire, c.connGen) == c.base.everSent
            && (c.conn.Some? ==> c.conn.value == c.connGen)
            && Reachable(c.base)
  {
    SettledAlways(ops, decode);
  }

  /** Whatever happens to connections, no action is put on the wire twice. */
  lemma ActionOnOneConnectionOnly(ops: seq<Op>, decode: Decoder, i: nat, j: nat)
    requires Conforming(ops, decode)
    requires var sent := Carried(Execute(ops, decode).wire, Execute(ops, decode).connGen);
             i < |sent| && j < |sent| && sent[i].ActionRequest? && sent[j].ActionRequest? && sent[i].id == sent[j].id
    ensures i == j
  {
    SettledAlways(ops, decode);
    var c := Execute(ops, decode);
    var baseOps :| Runs.Execute(baseOps) == c.base;
    Runs.ActionSentAtMostOnce(baseOps, i, j);
  }

  /** `m` stands at one place of `messages`, and no other request there has its id. */
  ghost predicate CarriedOnce(messages: seq<ClientMessage>, m: ClientMessage)
    requires m.IsRequest()
  {
    exists k :: 0 <= k < |messages| && messages[k] == m
      && forall j :: 0 <= j < |messages| && messages[j].IsRequest() && messages[j].id == m.id ==> j == k
  }

  lemma AcceptedOnce(messages: seq<ClientMessage>, m: ClientMessage)
    requires Replay(messages).Some? && m.IsRequest() && m in messages
    ensures CarriedOnce(messages, m)
  {
    var k :| 0 <= k < |messages| && messages[k] == m;
    forall j | 0 <= j < |messages| && messages[j].IsRequest() && messages[j].id == m.id
      ensures j == k
    {
      if j < k { RequestIdsIncrease(messages, j, k); }
      if k < j { RequestIdsIncrease(messages, k, j); }
    }
  }

  /**
   * While a connection is open, replaying what it has carried after Connect gives exactly the local
   * query set and identity, and each request in flight has been carried by it exactly once.
   */
  lemma OpenConnectionMirrorsClient(ops: seq<Op>, decode: Decoder)
    requires Conforming(ops, decode) && !Execute(ops, decode).stopping && Live(Execute(ops, decode))
    ensures var c := Execute(ops, decode);
            var frames := Frames(c.wire, c.connGen);
            && frames != [] && frames[0].Connect?
            && Replay(frames[1..]).Some?
            && Replay(frames[1..]).value.queries == Runs.LocalQueries(c.base.s)
            && Replay(frames[1..]).value.auth == c.base.s.auth
            && (forall id :: id in c.base.s.ongoing ==>
                  var m := c.base.s.ongoing[id].message;
                  m.IsRequest() && m.id == id && CarriedOnce(frames[1..], m))
  {
    SettledAlways(ops, decode);
    var c := Execute(ops, decode);
    ReachableCore(c.base);
    assert Runs.Stream(c.base) == c.base.sent;
    forall id | id in c.base.s.ongoing
      ensures CarriedOnce(c.base.sent, c.base.s.ongoing[id].message)
    {
      AcceptedOnce(c.base.sent, c.base.s.ongoing[id].message);
    }
  }

  // ---- Theorem: each request's callback, exactly once ---------------------------------

  /**
   * Until shutdown the pending callbacks are those of the requests in flight. Callbacks queued or run are told
   * exactly what the base client reported, in order; after shutdown the requests left over are told so.
   */
  lemma EachCallbackToldTheReport(ops: seq<Op>, decode: Decoder)
    requires Conforming(ops, decode)
    ensures var c := Execute(ops, decode);
            if c.stopping then
              Answers(c.fired) == c.base.reported + GivenUp(SortedIds(c.base.s.ongoing.Keys)) && c.pending == {}
            else
              Answers(c.fired + c.eventQueue) == c.base.reported && c.pending == c.base.s.ongoing.Keys
  {
    SettledAlways(ops, decode);
    var c := Execute(ops, decode);
    AnswersConcat(c.fired, c.eventQueue);
  }

  /**
   * Every request id ever returned has its callback queued or run exactly once, unless it is pending; after
   * shutdown every one has run.
   */
  lemma EachCallbackExactlyOnce(ops: seq<Op>, decode: Decoder)
    requires Conforming(ops, decode)
    ensures var c := Execute(ops, decode);
            var called := Runs.CompletedIds(Answers(c.fired + c.eventQueue));
            && Distinct(called)
            && (forall id :: id in c.base.returned <==> id in c.pending || id in called)
            && (forall id :: id in c.pending ==> id !in called)
            && (c.stopping ==> called == Runs.CompletedIds(Answers(c.fired)) && c.pending == {})
  {
    hide Execute, Runs.Execute, Wired, Conforming, Answers, Runs.Conserved;
    SettledAlways(ops, decode);
    var c := Execute(ops, decode);
    var baseOps :| Runs.Execute(baseOps) == c.base;
    Runs.ConservedAlways(baseOps);
    EachOnce(c);
  }

  lemma EachOnce(c: State)
    requires CalledBack(c) && Runs.Conserved(c.base)
    ensures var called := Runs.CompletedIds(Answers(c.fired + c.eventQueue));
            && Distinct(called)
            && (forall id :: id in c.base.returned <==> id in c.pending || id in called)
            && (forall id :: id in c.pending ==> id !in called)
            && (c.stopping ==> called == Runs.CompletedIds(Answers(c.fired)) && c.pending == {})
  {
    hide Answers;
    if c.stopping {
      GivenUpJoinReported(c.base);
      AnswersConcat(c.fired, c.eventQueue);
      assert Answers(c.fired) + [] == Answers(c.fired);
    }
  }

  lemma GivenUpJoinReported(r: Runs.Run)
    requires Runs.Conserved(r)
    ensures var called := Runs.CompletedIds(r.reported + GivenUp(SortedIds(r.s.ongoing.Keys)));
            Distinct(called) && forall id :: id in r.returned <==> id in called
  {
    var left := SortedIds(r.s.ongoing.Keys);
    Runs.CompletedIdsConcat(r.reported, GivenUp(left));
    assert Runs.CompletedIds(GivenUp(left)) == left;
    DistinctConcat(Runs.ReportedIds(r), left);
  }
}
