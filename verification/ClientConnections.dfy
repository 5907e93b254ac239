/**
 * The life of the client's connections, read off its operations: which are given up and why, what the server is
 * told about it, and that there always is a connection, an attempt at one, or a next attempt scheduled.
 */
module ClientConnections {
  import opened Wrappers
  import opened Values
  import opened Protocol
  import opened Chunks
  import opened ClientSpec
  import opened ClientRuns
  import opened ClientCalls
  import Spec = BaseClientSpec
  import Runs = BaseClientRuns

  // ---- When a connection is given up ----------------------------------------------

  /** `c1` has given up what `c` had, for `reason`, and is due to try again. */
  ghost predicate GaveUp(c: State, c1: State, reason: string) {
    && c1.connGen == c.connGen + 1 && c1.conn.None? && !c1.socketOpen && !c1.pendingOpen && c1.reconnectScheduled
    && c1.lastCloseReason == reason && c1.retries == c.retries + 1 && c1.stopping == c.stopping
  }

  /** `c1` has the connection, or the attempt at one, that `c` has. */
  ghost predicate Kept(c: State, c1: State) {
    && c1.connGen == c.connGen && c1.conn == c.conn && c1.socketOpen == c.socketOpen
    && c1.pendingOpen == c.pendingOpen && c1.reconnectScheduled == c.reconnectScheduled
    && c1.lastCloseReason == c.lastCloseReason && c1.connecting == c.connecting && c1.stopping == c.stopping
  }

  /** The server has caught up: a transition that settles the last query still outstanding. */
  ghost predicate CaughtUp(c: State, m: ServerMessage) {
    && m.Transition? && m.start == c.base.s.remoteVersion
    && forall id :: id in c.base.s.outstanding ==> exists k :: 0 <= k < |m.modifications| && m.modifications[k].id == id
  }

  lemma DisconnectGivesUp(c: State, reason: string, fetched: Option<AuthToken>)
    ensures GaveUp(c, Disconnect(c, reason, fetched), reason)
    ensures Disconnect(c, reason, fetched).connecting == c.connecting
  {
    hide Spec.Restart, Runs.Step, Resolve;
  }

  lemma CaughtUpIs(c: State, m: ServerMessage)
    ensures var (s, r) := Spec.Receive(c.base.s, m);
            r.reconnectReason.None? ==> (r.stateChanged && s.outstanding == {} <==> CaughtUp(c, m))
  {
    if m.Transition? && m.start == c.base.s.remoteVersion {
      Settles(c.base.s, m.modifications);
      var s1 := Spec.ApplyModifications(c.base.s, m.modifications);
      if CaughtUp(c, m) { assert s1.outstanding == {}; }
      if s1.outstanding == {} {
        forall id | id in c.base.s.outstanding
          ensures exists k :: 0 <= k < |m.modifications| && m.modifications[k].id == id
        {
          assert id !in s1.outstanding;
        }
      }
    }
  }

  lemma {:induction false} Settles(s: Spec.State, mods: seq<StateModification>)
    ensures forall id :: id in Spec.ApplyModifications(s, mods).outstanding
              <==> id in s.outstanding && forall k :: 0 <= k < |mods| ==> mods[k].id != id
  {
    if mods != [] { Settles(s, mods[..|mods| - 1]); }
  }

  lemma AfterAuthErrorKeeps(c: State, reason: string, attempted: bool)
    ensures Kept(c, AfterAuthError(c, reason, attempted))
    ensures AfterAuthError(c, reason, attempted).retries == c.retries
  {
    hide Runs.Step;
  }

  lemma DeliverCloses(c: State, m: ServerMessage, fetched: Option<AuthToken>)
    requires !m.TransitionChunk?
    ensures var c1 := Deliver(c, m, fetched);
            if MessageReason(c, m).Some? then GaveUp(c, c1, MessageReason(c, m).value) && c1.connecting == c.connecting
            else Kept(c, c1) && c1.retries == if CaughtUp(c, m) then 0 else c.retries
  {
    hide Runs.Step, Spec.Receive, Disconnect, Resolve, Updates, CaughtUp;
    ReasonIs(c, m);
    var r := Spec.Receive(c.base.s, m).1;
    var c0 := c.(base := Runs.Step(c.base, Runs.Receiving(m)));
    if MessageReason(c, m).Some? {
      var c1 := if r.authError then AfterAuthError(c0, r.reconnectReason.value, r.authUpdateAttempted) else c0;
      AfterAuthErrorKeeps(c0, r.reconnectReason.value, r.authUpdateAttempted);
      DisconnectGivesUp(c1, r.reconnectReason.value, fetched);
    } else {
      CaughtUpIs(c, m);
      ReceivedState(c.base, m);
    }
  }

  lemma ReceivedState(r: Runs.Run, m: ServerMessage)
    ensures Runs.Step(r, Runs.Receiving(m)).s == Spec.Receive(r.s, m).0
  {
  }

  /** Backoff starts over exactly when the server has caught up. */
  ghost predicate Recovers(c: State, op: Op, decode: Decoder) {
    Handled(c, op, decode).Some? && CaughtUp(c, Handled(c, op, decode).value)
  }

  ghost predicate Continues(c: State, c1: State, op: Op, decode: Decoder) {
    c1.lastCloseReason == c.lastCloseReason && !c1.stopping
    && c1.retries == if Recovers(c, op, decode) then 0 else c.retries
  }

  lemma FrameCloses(c: State, op: Op, decode: Decoder)
    requires op.FrameArrived? && !c.stopping && op.gen == c.connGen
    ensures var (c1, reason) := (Step(c, op, decode), FrameReason(c, op.text, decode));
            if reason.Some? then GaveUp(c, c1, reason.value) && c1.connecting == c.connecting
            else Kept(c, c1) && c1.retries == if Recovers(c, op, decode) then 0 else c.retries
  {
    hide Step, Deliver, Disconnect, Feed, MessageReason, CaughtUp;
    match decode(op.text)
    case Err(why) =>
      MalformedStep(c, op, decode);
      DisconnectGivesUp(c, "ProtocolError: " + why, op.fetched);
    case Ok(m) =>
      if m.TransitionChunk? {
        var (chunks, fed) := Feed(c.chunks, m, decode);
        ChunkStep(c, op, decode, m);
        match fed
        case Partial =>
        case Rejected(why) => DisconnectGivesUp(c.(chunks := chunks), "ProtocolError: " + why, op.fetched);
        case Assembled(t) =>
          AssembledIsTransition(c.chunks, m, decode);
          SameReason(c, c.(chunks := chunks), t);
          DeliverCloses(c.(chunks := chunks), t, op.fetched);
      } else {
        WholeMessageStep(c, op, decode, m);
        SameReason(c, c.(chunks := IDLE), m);
        DeliverCloses(if m.Ping? then c else c.(chunks := IDLE), m, op.fetched);
      }
  }

  lemma SameReason(c: State, c1: State, m: ServerMessage)
    requires c1.base == c.base
    ensures MessageReason(c1, m) == MessageReason(c, m) && CaughtUp(c1, m) == CaughtUp(c, m)
  {
  }

  /**
   * What each step does to the connection: given up exactly for the reasons read off the operation, a new attempt
   * begun when one is due, an open or a connection noted, and otherwise nothing.
   */
  ghost predicate Moves(c: State, c1: State, op: Op, decode: Decoder) {
    var reason := CloseReason(c, op, decode);
    if reason.Some? then
      GaveUp(c, c1, reason.value) && c1.connecting == (if op.ConnectEnded? then None else c.connecting)
    else
      && Continues(c, c1, op, decode)
      && (match op
          case ConnectBegun =>
            if c.reconnectScheduled && c.connecting.None? then
              && c1.connGen == c.connGen + 1 && c1.connecting == Some(c1.connGen) && !c1.reconnectScheduled
              && c1.conn == c.conn && c1.socketOpen == c.socketOpen
            else Kept(c, c1)
          case ConnectEnded(_, _) =>
            && c1.connecting.None? && c1.connGen == c.connGen && c1.socketOpen == c.socketOpen
            && c1.reconnectScheduled == c.reconnectScheduled
            && c1.conn == if c.connecting == Some(c.connGen) then Some(c.connGen) else c.conn
          case SocketOpened(gen) =>
            && c1.connGen == c.connGen && c1.conn == c.conn && c1.reconnectScheduled == c.reconnectScheduled
            && c1.connecting == c.connecting && (c1.socketOpen <==> c.socketOpen || gen == c.connGen)
          case _ => Kept(c, c1))
  }

  lemma BegunMoves(c: State, decode: Decoder)
    requires !c.stopping
    ensures Moves(c, Step(c, ConnectBegun, decode), ConnectBegun, decode)
  {
    hide WsMessage;
  }

  lemma EndedMoves(c: State, failure: Option<string>, fetched: Option<AuthToken>, decode: Decoder)
    requires !c.stopping && (c.pendingOpen ==> c.socketOpen)
    ensures var op := ConnectEnded(failure, fetched); Moves(c, Step(c, op, decode), op, decode)
  {
    hide Disconnect, HandleOpen, WsMessage;
    if failure.Some? {
      DisconnectGivesUp(c.(connecting := None), ConnectFailed(failure.value), fetched);
    } else if c.connecting == Some(c.connGen) {
      OpenKeeps(c.(connecting := None, conn := Some(c.connGen), pendingOpen := false, socketOpen := true));
    }
  }

  lemma OpenKeeps(c: State)
    requires c.conn.Some?
    ensures Kept(c, HandleOpen(c)) && HandleOpen(c).retries == c.retries
  {
    hide Runs.Step, Spec.MakeConnect;
  }

  lemma OpenedMoves(c: State, gen: nat, decode: Decoder)
    requires !c.stopping
    ensures Moves(c, Step(c, SocketOpened(gen), decode), SocketOpened(gen), decode)
  {
    hide HandleOpen, WsMessage;
    if gen == c.connGen && c.conn.Some? { OpenKeeps(c.(socketOpen := true)); }
  }

  /** The connection as it was, and no failure counted or forgiven. */
  ghost predicate Unmoved(c: State, c1: State) { Kept(c, c1) && c1.retries == c.retries }

  lemma DrainUnmoved(c: State, c1: State)
    requires Unmoved(c, c1)
    ensures Unmoved(c, DrainOutgoing(c1))
  {
  }

  lemma SubscribedUnmoved(c: State, path: string, args: Option<string>)
    ensures Unmoved(c, Subscribe(c, path, args).0)
  {
    hide Runs.Step, Spec.Subscribe, AddSub, DrainOutgoing;
    var h := Spec.Subscribe(c.base.s, path, args).1;
    if h.Some? {
      var base := Runs.Step(c.base, Runs.Subscribing(path, args));
      var known := h.value.query in base.s.remoteResults;
      var first := if known then [Updated(h.value.index, base.s.remoteResults[h.value.query])] else [];
      DrainUnmoved(c, c.(base := base, subs := AddSub(c.subs, h.value), eventQueue := c.eventQueue + first));
    }
  }

  lemma RequestedUnmoved(c: State, kind: Spec.RequestKind, path: string, args: Option<string>)
    ensures Unmoved(c, Request(c, kind, path, args))
  {
    hide Runs.Step, Spec.Request, DrainOutgoing;
    var id := Spec.Request(c.base.s, kind, path, args).1;
    var c1 := c.(base := Runs.Step(c.base, Runs.Requesting(kind, path, args)));
    if id.Some? { DrainUnmoved(c, c1.(pending := c.pending + {id.value})); }
  }

  lemma OperationUnmoved(c: State, op: Op, decode: Decoder)
    requires op.Subscribed? || op.Unsubscribed? || op.Requested? || op.AuthSet? || op.EventsProcessed?
    ensures Unmoved(c, Step(c, op, decode))
  {
    hide Runs.Step, Subscribe, Request, RemoveSub, WsMessage, DrainOutgoing;
    match op
    case Subscribed(path, args) => SubscribedUnmoved(c, path, args);
    case Requested(kind, path, args) => RequestedUnmoved(c, kind, path, args);
    case Unsubscribed(h) =>
      DrainUnmoved(c, c.(base := Runs.Step(c.base, Runs.Unsubscribing(h)), subs := RemoveSub(c.subs, h)));
    case AuthSet(token, fetcher) =>
      DrainUnmoved(c, c.(fetcher := fetcher, consecutiveAuthErrors := 0,
                         base := Runs.Step(c.base, Runs.SettingAuth(token))));
    case EventsProcessed =>
  }

  lemma OperationMoves(c: State, op: Op, decode: Decoder)
    requires !c.stopping && (op.Subscribed? || op.Unsubscribed? || op.Requested? || op.AuthSet? || op.EventsProcessed?)
    ensures Moves(c, Step(c, op, decode), op, decode)
  {
    hide Step, FrameReason, CaughtUp;
    OperationUnmoved(c, op, decode);
  }

  lemma LossMoves(c: State, op: Op, decode: Decoder)
    requires !c.stopping && (op.SocketClosed? || op.InactivityFound?)
    ensures Moves(c, Step(c, op, decode), op, decode)
  {
    hide Disconnect;
    match op
    case SocketClosed(_, reason, fetched) => DisconnectGivesUp(c, reason, fetched);
    case InactivityFound(fetched) => DisconnectGivesUp(c, "InactiveServer", fetched);
  }

  lemma StaleFrame(c: State, op: Op, decode: Decoder)
    requires op.FrameArrived? && op.gen != c.connGen && !c.stopping
    ensures Moves(c, Step(c, op, decode), op, decode)
  {
    hide Deliver, Disconnect, Feed;
  }

  lemma StepMoves(c: State, op: Op, decode: Decoder)
    requires !c.stopping && !op.ShutDown? && (c.pendingOpen ==> c.socketOpen)
    ensures Moves(c, Step(c, op, decode), op, decode)
  {
    hide Step, Moves;
    match op
    case FrameArrived(gen, _, _) =>
      if gen == c.connGen { FrameMoves(c, op, decode); } else { StaleFrame(c, op, decode); }
    case ConnectBegun => BegunMoves(c, decode);
    case ConnectEnded(failure, fetched) => EndedMoves(c, failure, fetched, decode);
    case SocketOpened(gen) => OpenedMoves(c, gen, decode);
    case SocketClosed(_, _, _) => LossMoves(c, op, decode);
    case InactivityFound(_) => LossMoves(c, op, decode);
    case _ => OperationMoves(c, op, decode);
  }

  lemma FrameMoves(c: State, op: Op, decode: Decoder)
    requires op.FrameArrived? && !c.stopping && op.gen == c.connGen
    ensures Moves(c, Step(c, op, decode), op, decode)
  {
    hide Step, FrameReason, Recovers;
    FrameCloses(c, op, decode);
  }

  // ---- The history of a run ---------------------------------------------------------

  datatype Link = Link(
    begun: bool,           // connect() has been called for this generation
    held: bool,            // and has returned a connection
    isOpen: bool,          // its socket has been reported open
    reason: string,        // why the last one was given up
    failures: nat)         // how many were, since the server last caught up

  ghost function NoteLink(l: Link, c: State, op: Op, decode: Decoder): Link {
    var reason := CloseReason(c, op, decode);
    if c.stopping then l
    else if reason.Some? then Link(false, false, false, reason.value, l.failures + 1)
    else
      var l1 := if Recovers(c, op, decode) then l.(failures := 0) else l;
      match op
      case ConnectBegun => if c.connecting.None? && !l1.begun then l1.(begun := true) else l1
      case ConnectEnded(_, _) => if c.connecting == Some(c.connGen) then l1.(held := true) else l1
      case SocketOpened(gen) => if gen == c.connGen then l1.(isOpen := true) else l1
      case _ => l1
  }

  ghost function LinkOf(ops: seq<Op>, decode: Decoder): Link {
    if ops == [] then Link(false, false, false, "InitialConnect", 0)
    else
      var init := ops[..|ops| - 1];
      NoteLink(LinkOf(init, decode), Execute(init, decode), ops[|ops| - 1], decode)
  }

  ghost predicate LinkIs(c: State, l: Link) {
    !c.stopping ==>
      && c.reconnectScheduled == !l.begun && (c.connecting == Some(c.connGen) <==> l.begun && !l.held)
      && c.conn == (if l.held then Some(c.connGen) else None) && c.socketOpen == l.isOpen
      && (l.isOpen || l.held ==> l.begun) && (c.connecting.Some? ==> c.connecting.value <= c.connGen)
      && c.lastCloseReason == l.reason && c.retries == l.failures
  }

  lemma LinkStep(c: State, l: Link, op: Op, decode: Decoder)
    requires LinkIs(c, l) && TransportOk(c, op) && (!c.stopping && c.pendingOpen ==> c.socketOpen)
    ensures LinkIs(Step(c, op, decode), NoteLink(l, c, op, decode))
  {
    hide Step, Recovers, CloseReason;
    if c.stopping {
      StoppedStays(c, op, decode);
    } else if op.ShutDown? {
      ShutDownStops(c, op, decode);
    } else {
      StepMoves(c, op, decode);
    }
  }

  lemma StoppedStays(c: State, op: Op, decode: Decoder)
    requires c.stopping
    ensures Step(c, op, decode).stopping
  {
  }

  lemma ShutDownStops(c: State, op: Op, decode: Decoder)
    requires op.ShutDown?
    ensures Step(c, op, decode).stopping
  {
  }

  lemma EarlyOpenIsOpen(c: State)
    requires Settled(c) && !c.stopping && c.pendingOpen
    ensures c.socketOpen
  {
  }

  /**
   * Until shutdown there is always a connection held for the current generation, connect() running for it, or a next
   * attempt scheduled; and the reason and the number of failures kept are those of the run.
   */
  lemma {:induction false} NeverForgotten(ops: seq<Op>, decode: Decoder)
    requires Conforming(ops, decode)
    ensures LinkIs(Execute(ops, decode), LinkOf(ops, decode))
  {
    hide Step, NoteLink, Settled;
    if ops == [] {
      assert Execute(ops, decode) == INITIAL;
    } else {
      var init := ops[..|ops| - 1];
      assert forall k :: 0 <= k < |init| ==> init[..k] == ops[..k];
      NeverForgotten(init, decode);
      SettledAlways(init, decode);
      var c := Execute(init, decode);
      assert ops[..|init|] == init;
      if !c.stopping && c.pendingOpen { EarlyOpenIsOpen(c); }
      LinkStep(Execute(init, decode), LinkOf(init, decode), ops[|ops| - 1], decode);
    }
  }

  // ---- What Connect tells the server --------------------------------------------------

  /** An open connection began with a Connect that gives the reason the last one was given up, and its number. */
  ghost predicate Told(c: State) {
    !c.stopping && Live(c) ==>
      var frames := Frames(c.wire, c.conn.value);
      && frames != [] && frames[0].Connect? && frames[0].lastCloseReason == c.lastCloseReason
      && frames[0].connectionCount + 1 == c.base.s.connectionCount
  }

  /** Nothing about the connection has changed but what is queued for it. */
  ghost predicate SameLine(c: State, c1: State) {
    && Kept(c, c1) && c1.wire == c.wire && c1.base.s.connectionCount == c.base.s.connectionCount
  }

  lemma DrainTold(c: State, c1: State)
    requires Told(c) && SameLine(c, c1)
    ensures Told(c1) && Told(DrainOutgoing(c1))
  {
  }

  lemma OpenTold(c: State)
    requires c.conn.Some? && c.socketOpen && Frames(c.wire, c.conn.value) == []
    ensures Told(HandleOpen(c))
  {
  }

  lemma ClosedTold(c: State)
    requires c.conn.None?
    ensures Told(c)
  {
  }

  lemma SubscribedTold(c: State, path: string, args: Option<string>)
    requires Told(c)
    ensures Told(Subscribe(c, path, args).0)
  {
    hide Told, AddSub, Canonicalize, DrainOutgoing;
    var h := Spec.Subscribe(c.base.s, path, args).1;
    if h.Some? {
      var base := Runs.Step(c.base, Runs.Subscribing(path, args));
      var known := h.value.query in base.s.remoteResults;
      var first := if known then [Updated(h.value.index, base.s.remoteResults[h.value.query])] else [];
      DrainTold(c, c.(base := base, subs := AddSub(c.subs, h.value), eventQueue := c.eventQueue + first));
    }
  }

  lemma RequestedTold(c: State, kind: Spec.RequestKind, path: string, args: Option<string>)
    requires Told(c)
    ensures Told(Request(c, kind, path, args))
  {
    hide Told, Canonicalize, DrainOutgoing;
    var c1 := c.(base := Runs.Step(c.base, Runs.Requesting(kind, path, args)));
    DrainTold(c, c1);
    DrainTold(c, c1.(pending := c.pending + {c.base.s.nextRequestId}));
    DrainTold(c, c.(fired := c.fired + [Refused]));
  }

  lemma OperationTold(c: State, op: Op, decode: Decoder)
    requires Told(c) && (op.Subscribed? || op.Unsubscribed? || op.Requested? || op.AuthSet? || op.EventsProcessed?)
    ensures Told(Step(c, op, decode))
  {
    hide Told, DrainOutgoing, Subscribe, Request, RemoveSub, WsMessage;
    DrainTold(c, c);
    match op
    case Subscribed(path, args) => SubscribedTold(c, path, args);
    case Requested(kind, path, args) => RequestedTold(c, kind, path, args);
    case Unsubscribed(h) =>
      DrainTold(c, c.(base := Runs.Step(c.base, Runs.Unsubscribing(h)), subs := RemoveSub(c.subs, h)));
    case AuthSet(token, fetcher) =>
      DrainTold(c, c.(fetcher := fetcher, consecutiveAuthErrors := 0,
                      base := Runs.Step(c.base, Runs.SettingAuth(token))));
    case EventsProcessed => DrainTold(c, ProcessEvents(c));
  }

  lemma DeliverTold(c: State, m: ServerMessage, fetched: Option<AuthToken>)
    requires Told(c) && !m.TransitionChunk?
    ensures Told(Deliver(c, m, fetched))
  {
    hide Told, Runs.Step, Spec.Receive, Disconnect, Resolve, Updates, DrainOutgoing;
    DeliverCloses(c, m, fetched);
    if MessageReason(c, m).Some? {
      ClosedTold(Deliver(c, m, fetched));
    } else {
      ReasonIs(c, m);
      ReceivedState(c.base, m);
      Runs.ReceiveFrame(c.base.s, m);
      DrainTold(c, Absorb(c.(base := Runs.Step(c.base, Runs.Receiving(m))), Spec.Receive(c.base.s, m).1));
    }
  }

  lemma FrameTold(c: State, op: Op, decode: Decoder)
    requires op.FrameArrived? && !c.stopping && op.gen == c.connGen && Told(c)
    ensures Told(Step(c, op, decode))
  {
    hide Told, Step, Deliver, Disconnect, Feed;
    FrameCloses(c, op, decode);
    if FrameReason(c, op.text, decode).Some? {
      ClosedTold(Step(c, op, decode));
    } else {
      var m := decode(op.text).value;
      if m.TransitionChunk? {
        var (chunks, fed) := Feed(c.chunks, m, decode);
        ChunkStep(c, op, decode, m);
        DrainTold(c, c.(chunks := chunks));
        if fed.Assembled? {
          AssembledIsTransition(c.chunks, m, decode);
          DeliverTold(c.(chunks := chunks), fed.transition, op.fetched);
        }
      } else {
        WholeMessageStep(c, op, decode, m);
        DrainTold(c, c.(chunks := IDLE));
        DeliverTold(if m.Ping? then c else c.(chunks := IDLE), m, op.fetched);
      }
    }
  }

  lemma LifecycleTold(c: State, op: Op, decode: Decoder)
    requires Told(c) && Settled(c) && TransportOk(c, op) && !c.stopping
    requires op.SocketOpened? || op.SocketClosed? || op.ConnectBegun? || op.ConnectEnded? || op.InactivityFound?
    ensures Told(Step(c, op, decode))
  {
    hide Disconnect, HandleOpen, Runs.Step, WsMessage;
    match op
    case SocketOpened(gen) =>
      if gen == c.connGen && c.conn.Some? { OpenTold(c.(socketOpen := true)); }
    case ConnectEnded(None, _) =>
      if c.connecting == Some(c.connGen) && c.pendingOpen {
        OpenTold(c.(connecting := None, conn := Some(c.connGen), pendingOpen := false, socketOpen := true));
      }
    case ConnectEnded(Some(what), fetched) =>
      DisconnectGivesUp(c.(connecting := None), ConnectFailed(what), fetched);
    case SocketClosed(_, reason, fetched) => DisconnectGivesUp(c, reason, fetched);
    case InactivityFound(fetched) => DisconnectGivesUp(c, "InactiveServer", fetched);
    case ConnectBegun =>
  }

  lemma ToldStep(c: State, op: Op, decode: Decoder)
    requires Told(c) && Settled(c) && TransportOk(c, op)
    ensures Told(Step(c, op, decode))
  {
    hide Told, Step, Settled, TransportOk;
    if c.stopping {
      StoppedStays(c, op, decode);
      StoppedTold(Step(c, op, decode));
    } else {
      match op
      case ShutDown =>
        ShutDownStops(c, op, decode);
        StoppedTold(Step(c, op, decode));
      case FrameArrived(gen, _, _) =>
        if gen == c.connGen { FrameTold(c, op, decode); } else { StaleFrameIgnored(c, op, decode); }
      case Subscribed(_, _) => OperationTold(c, op, decode);
      case Unsubscribed(_) => OperationTold(c, op, decode);
      case Requested(_, _, _) => OperationTold(c, op, decode);
      case AuthSet(_, _) => OperationTold(c, op, decode);
      case EventsProcessed => OperationTold(c, op, decode);
      case _ => LifecycleTold(c, op, decode);
    }
  }

  lemma StoppedTold(c: State)
    requires c.stopping
    ensures Told(c)
  {
  }

  lemma StaleFrameIgnored(c: State, op: Op, decode: Decoder)
    requires op.FrameArrived? && op.gen != c.connGen
    ensures Step(c, op, decode) == c
  {
    hide Deliver, Disconnect, Feed;
  }

  lemma {:induction false} ToldAlways(ops: seq<Op>, decode: Decoder)
    requires Conforming(ops, decode)
    ensures Told(Execute(ops, decode))
  {
    hide Step, Settled;
    if ops == [] {
      assert Execute(ops, decode) == INITIAL;
    } else {
      var init := ops[..|ops| - 1];
      assert forall k :: 0 <= k < |init| ==> init[..k] == ops[..k];
      ToldAlways(init, decode);
      SettledAlways(init, decode);
      assert ops[..|init|] == init;
      ToldStep(Execute(init, decode), ops[|ops| - 1], decode);
    }
  }

  /** Every open connection began with a Connect that tells why the client gave up the last one. */
  lemma ConnectTellsReason(ops: seq<Op>, decode: Decoder)
    requires Conforming(ops, decode) && !Execute(ops, decode).stopping && Live(Execute(ops, decode))
    ensures var c := Execute(ops, decode);
            var frames := Frames(c.wire, c.connGen);
            && frames != [] && frames[0].Connect? && frames[0].lastCloseReason == LinkOf(ops, decode).reason
            && frames[0].connectionCount + 1 == c.base.s.connectionCount
  {
    hide Execute, LinkOf, Conforming;
    ToldAlways(ops, decode);
    NeverForgotten(ops, decode);
  }
}
