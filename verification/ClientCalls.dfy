/**
 * How the client drives the base client and its connection, read off the client's operations: the calls each step
 * makes, when and why it gives a connection up, and that a next attempt is never forgotten.
 */
module ClientCalls {
  import opened Wrappers
  import opened Ordering
  import opened Values
  import opened Protocol
  import opened Chunks
  import opened SyncSession
  import opened ClientSpec
  import opened ClientRuns
  import Spec = BaseClientSpec
  import Runs = BaseClientRuns
  import History = BaseClientHistory

  // ---- Runs of the base client, continued -------------------------------------

  ghost function RunFrom(r: Runs.Run, calls: seq<Runs.Op>): Runs.Run {
    if calls == [] then r else Runs.Step(RunFrom(r, calls[..|calls| - 1]), calls[|calls| - 1])
  }

  lemma {:induction false} RunFromStart(calls: seq<Runs.Op>)
    ensures RunFrom(Runs.START, calls) == Runs.Execute(calls)
  {
    if calls != [] { RunFromStart(calls[..|calls| - 1]); }
  }

  lemma {:induction false} RunConcat(r: Runs.Run, a: seq<Runs.Op>, b: seq<Runs.Op>)
    ensures RunFrom(r, a + b) == RunFrom(RunFrom(r, a), b)
  {
    if b == [] {
      assert a + b == a;
    } else {
      RunConcat(r, a, b[..|b| - 1]);
      assert (a + b)[..|a + b| - 1] == a + b[..|b| - 1];
    }
  }

  lemma RunOne(r: Runs.Run, op: Runs.Op)
    ensures RunFrom(r, [op]) == Runs.Step(r, op)
  {
    hide Runs.Step;
    assert [op][..0] == [];
  }

  function Pops(n: nat): seq<Runs.Op> { if n == 0 then [] else [Runs.Popping] + Pops(n - 1) }

  lemma {:induction false} PopsEmpty(r: Runs.Run)
    ensures RunFrom(r, Pops(|r.s.outgoing|)) == Emptied(r)
    decreases |r.s.outgoing|
  {
    if r.s.outgoing == [] {
      assert Emptied(r) == r;
    } else {
      var r1 := Runs.Step(r, Runs.Popping);
      PopsEmpty(r1);
      RunConcat(r, [Runs.Popping], Pops(|r1.s.outgoing|));
      RunOne(r, Runs.Popping);
      EmptiedAfterPop(r);
    }
  }

  // ---- Why a connection is given up ---------------------------------------------

  /** Why a message costs the connection, if it does. */
  function MessageReason(c: State, m: ServerMessage): Option<string> {
    match m
    case Transition(start, _, _) => if start == c.base.s.remoteVersion then None else Some("StartVersionMismatch")
    case AuthError(error, _) => Some("AuthError: " + error)
    case FatalError(error) => Some("FatalError: " + error)
    case _ => None
  }

  function FrameReason(c: State, text: string, decode: Decoder): Option<string> {
    match decode(text)
    case Err(why) => Some("ProtocolError: " + why)
    case Ok(m) =>
      if !m.TransitionChunk? then MessageReason(c, m)
      else match Feed(c.chunks, m, decode).1
           case Partial => None
           case Rejected(why) => Some("ProtocolError: " + why)
           case Assembled(t) => MessageReason(c, t)
  }

  /** Why `op` costs the client its connection or its attempt at one, if it does. */
  function CloseReason(c: State, op: Op, decode: Decoder): Option<string> {
    if c.stopping then None
    else
      match op
      case SocketClosed(gen, reason, _) => if gen == c.connGen then Some(reason) else None
      case FrameArrived(gen, text, _) => if gen == c.connGen then FrameReason(c, text, decode) else None
      case ConnectEnded(Some(what), _) =>
        if c.connecting != Some(c.connGen) then None
        else if what == "" then Some("ConnectFailed")
        else Some("ConnectFailed: " + what)
      case InactivityFound(_) => if c.socketOpen && c.connecting.None? then Some("InactiveServer") else None
      case _ => None
  }

  /** What the token fetcher is taken to return in this step. */
  function Fetched(op: Op): Option<AuthToken> {
    match op
    case SocketClosed(_, _, fetched) => fetched
    case FrameArrived(_, _, fetched) => fetched
    case ConnectEnded(_, fetched) => fetched
    case InactivityFound(fetched) => fetched
    case _ => None
  }

  // ---- The calls each step makes --------------------------------------------------

  /** A rejected token that cannot be fetched anew, or was rejected twice in a row. */
  predicate IsTerminal(c: State, m: ServerMessage) {
    m.AuthError? && (m.updateAttempted || !c.fetcher || c.consecutiveAuthErrors >= 1)
  }

  /** `calls`, then popping whatever is queued if there is a connection to send it on. */
  ghost function ThenSent(c: State, calls: seq<Runs.Op>): seq<Runs.Op> {
    calls + if Live(c) then Pops(|RunFrom(c.base, calls).s.outgoing|) else []
  }

  ghost function OnOpen(c: State): seq<Runs.Op> {
    [Runs.Connecting(c.lastCloseReason)] + Pops(|c.base.s.outgoing|)
  }

  /** Giving up a connection restarts the base client, with a new token if the fetcher gives one. */
  ghost function OnClose(c: State, m: Option<ServerMessage>, fetched: Option<AuthToken>): seq<Runs.Op> {
    if m.Some? && IsTerminal(c, m.value) then
      [Runs.Receiving(m.value), Runs.SettingAuth(NoToken), Runs.Restarting(None)]
    else
      (if m.Some? then [Runs.Receiving(m.value)] else []) + [Runs.Restarting(if c.fetcher then fetched else None)]
  }

  ghost function Calls(c: State, op: Op, decode: Decoder): seq<Runs.Op> {
    var m := Handled(c, op, decode);
    if CloseReason(c, op, decode).Some? then OnClose(c, m, Fetched(op))
    else if m.Some? then ThenSent(c, [Runs.Receiving(m.value)])
    else
      match op
      case SocketOpened(gen) => if !c.stopping && gen == c.connGen && c.conn.Some? then OnOpen(c) else []
      case ConnectEnded(None, _) =>
        if !c.stopping && c.connecting == Some(c.connGen) && c.pendingOpen then OnOpen(c) else []
      case Subscribed(path, args) => if args.None? then [] else ThenSent(c, [Runs.Subscribing(path, args)])
      case Unsubscribed(handle) => if c.stopping then [] else ThenSent(c, [Runs.Unsubscribing(handle)])
      case Requested(kind, path, args) =>
        if c.stopping then []
        else if args.None? then [Runs.Requesting(kind, path, args)]
        else ThenSent(c, [Runs.Requesting(kind, path, args)])
      case AuthSet(token, _) => if c.stopping then [] else ThenSent(c, [Runs.SettingAuth(token)])
      case _ => []
  }

  ghost function AllCalls(ops: seq<Op>, decode: Decoder): seq<Runs.Op> {
    if ops == [] then []
    else
      AllCalls(ops[..|ops| - 1], decode) + Calls(Execute(ops[..|ops| - 1], decode), ops[|ops| - 1], decode)
  }

  /** The client after one call of the base client and a drain. */
  lemma DrainCalls(c: State, c1: State, op: Runs.Op)
    requires c1.base == Runs.Step(c.base, op) && c1.socketOpen == c.socketOpen && c1.conn == c.conn
    ensures DrainOutgoing(c1).base == RunFrom(c.base, ThenSent(c, [op]))
  {
    hide Runs.Step;
    RunOne(c.base, op);
    if Live(c) {
      RunConcat(c.base, [op], Pops(|c1.base.s.outgoing|));
      PopsEmpty(c1.base);
    } else {
      assert [op] + [] == [op];
    }
  }

  lemma OpenCalls(c: State, c1: State)
    requires c1.base == c.base && c1.lastCloseReason == c.lastCloseReason && Live(c1)
    ensures HandleOpen(c1).base == RunFrom(c.base, OnOpen(c))
  {
    var op := Runs.Connecting(c.lastCloseReason);
    var r := Runs.Step(c.base, op);
    RunOne(c.base, op);
    RunConcat(c.base, [op], Pops(|r.s.outgoing|));
    PopsEmpty(r);
  }

  lemma CloseCalls(c: State, c1: State, reason: string, fetched: Option<AuthToken>)
    requires c1.base == c.base && c1.fetcher == c.fetcher
    ensures Disconnect(c1, reason, fetched).base == RunFrom(c.base, OnClose(c, None, fetched))
  {
    hide Runs.Step, Spec.Restart, Resolve;
    RunOne(c.base, Runs.Restarting(if c.fetcher then fetched else None));
    assert [] + OnClose(c, None, fetched) == OnClose(c, None, fetched);
  }

  lemma RunTwo(r: Runs.Run, a: Runs.Op, b: Runs.Op)
    ensures RunFrom(r, [a, b]) == Runs.Step(Runs.Step(r, a), b)
  {
    hide Runs.Step;
    assert [a, b][..1] == [a];
    RunOne(r, a);
  }

  lemma RunThree(r: Runs.Run, a: Runs.Op, b: Runs.Op, d: Runs.Op)
    ensures RunFrom(r, [a, b, d]) == Runs.Step(Runs.Step(Runs.Step(r, a), b), d)
  {
    hide Runs.Step;
    assert [a, b, d][..2] == [a, b];
    RunTwo(r, a, b);
  }

  lemma ReasonIs(c: State, m: ServerMessage)
    requires !m.TransitionChunk?
    ensures var r := Spec.Receive(c.base.s, m).1;
            && r.reconnectReason == MessageReason(c, m)
            && (r.authError <==> m.AuthError?) && (m.AuthError? ==> r.authUpdateAttempted == m.updateAttempted)
  {
    History.ReconnectsIff(c.base.s, m);
  }

  lemma DisconnectBase(c: State, reason: string, fetched: Option<AuthToken>)
    ensures Disconnect(c, reason, fetched).base
            == Runs.Step(c.base, Runs.Restarting(if c.fetcher then fetched else None))
  {
    hide Runs.Step, Spec.Restart, Resolve;
  }

  /** What a rejected token costs: itself and the fetcher, or one tolerated error. */
  lemma AfterAuthErrorBase(c: State, c0: State, m: ServerMessage)
    requires m.AuthError? && c0 == c.(base := c0.base)
    ensures var c1 := AfterAuthError(c0, "AuthError: " + m.error, m.updateAttempted);
            if IsTerminal(c, m) then c1.base == Runs.Step(c0.base, Runs.SettingAuth(NoToken)) && !c1.fetcher
            else c1.base == c0.base && c1.fetcher == c.fetcher
  {
    hide Runs.Step;
  }

  lemma AuthErrorCalls(c: State, m: ServerMessage, fetched: Option<AuthToken>)
    requires m.AuthError?
    ensures var c1 := AfterAuthError(c.(base := Runs.Step(c.base, Runs.Receiving(m))), "AuthError: " + m.error,
                                     m.updateAttempted);
            Disconnect(c1, "AuthError: " + m.error, fetched).base == RunFrom(c.base, OnClose(c, Some(m), fetched))
  {
    hide Runs.Step, RunFrom, Disconnect, AfterAuthError;
    var c0 := c.(base := Runs.Step(c.base, Runs.Receiving(m)));
    AfterAuthErrorBase(c, c0, m);
    DisconnectBase(AfterAuthError(c0, "AuthError: " + m.error, m.updateAttempted), "AuthError: " + m.error, fetched);
    if IsTerminal(c, m) {
      RunThree(c.base, Runs.Receiving(m), Runs.SettingAuth(NoToken), Runs.Restarting(None));
    } else {
      TwoCalls(c, m, fetched);
    }
  }

  lemma TwoCalls(c: State, m: ServerMessage, fetched: Option<AuthToken>)
    requires !IsTerminal(c, m)
    ensures RunFrom(c.base, OnClose(c, Some(m), fetched))
            == Runs.Step(Runs.Step(c.base, Runs.Receiving(m)), Runs.Restarting(if c.fetcher then fetched else None))
  {
    hide Runs.Step, RunFrom, IsTerminal;
    var refreshed := if c.fetcher then fetched else None;
    assert OnClose(c, Some(m), fetched) == [Runs.Receiving(m), Runs.Restarting(refreshed)];
    RunTwo(c.base, Runs.Receiving(m), Runs.Restarting(refreshed));
  }

  lemma RejectCalls(c: State, m: ServerMessage, fetched: Option<AuthToken>)
    requires !m.TransitionChunk? && MessageReason(c, m).Some?
    ensures Deliver(c, m, fetched).base == RunFrom(c.base, OnClose(c, Some(m), fetched))
  {
    hide Runs.Step, Spec.Receive, Disconnect, Absorb, RunFrom, DrainOutgoing, AfterAuthError, OnClose;
    ReasonIs(c, m);
    if m.AuthError? {
      AuthErrorCalls(c, m, fetched);
    } else {
      TwoCalls(c, m, fetched);
      DisconnectBase(c.(base := Runs.Step(c.base, Runs.Receiving(m))), MessageReason(c, m).value, fetched);
    }
  }

  lemma SameClose(c: State, c0: State, m: ServerMessage, fetched: Option<AuthToken>)
    requires c0 == c.(chunks := c0.chunks)
    ensures OnClose(c0, Some(m), fetched) == OnClose(c, Some(m), fetched)
    ensures MessageReason(c0, m) == MessageReason(c, m)
  {
  }

  lemma DeliverCalls(c: State, c0: State, m: ServerMessage, fetched: Option<AuthToken>)
    requires !m.TransitionChunk? && c0 == c.(chunks := c0.chunks)
    ensures Deliver(c0, m, fetched).base
            == RunFrom(c.base, if MessageReason(c, m).Some? then OnClose(c, Some(m), fetched)
                               else ThenSent(c, [Runs.Receiving(m)]))
  {
    hide Runs.Step, Spec.Receive, RunFrom, Reject, OnClose;
    ReasonIs(c0, m);
    if MessageReason(c, m).Some? {
      RejectCalls(c0, m, fetched);
      SameClose(c, c0, m, fetched);
    } else {
      hide ThenSent, Resolve, Updates, DrainOutgoing;
      var c1 := c0.(base := Runs.Step(c0.base, Runs.Receiving(m)));
      DrainCalls(c, Absorb(c1, Spec.Receive(c0.base.s, m).1), Runs.Receiving(m));
    }
  }

  lemma FrameCalls(c: State, op: Op, decode: Decoder)
    requires op.FrameArrived? && !c.stopping && op.gen == c.connGen
    ensures Step(c, op, decode).base == RunFrom(c.base, Calls(c, op, decode))
  {
    hide Step, Deliver, Disconnect, Feed, RunFrom, OnClose, ThenSent;
    match decode(op.text)
    case Err(why) =>
      MalformedStep(c, op, decode);
      CloseCalls(c, c, "ProtocolError: " + why, op.fetched);
    case Ok(m) =>
      if m.TransitionChunk? {
        var (chunks, fed) := Feed(c.chunks, m, decode);
        ChunkStep(c, op, decode, m);
        match fed
        case Partial => NoCalls(c.base);
        case Rejected(why) => CloseCalls(c, c.(chunks := chunks), "ProtocolError: " + why, op.fetched);
        case Assembled(t) =>
          AssembledIsTransition(c.chunks, m, decode);
          DeliverCalls(c, c.(chunks := chunks), t, op.fetched);
      } else {
        WholeMessageStep(c, op, decode, m);
        DeliverCalls(c, if m.Ping? then c else c.(chunks := IDLE), m, op.fetched);
      }
  }

  lemma NoCalls(r: Runs.Run)
    ensures RunFrom(r, []) == r
  {
  }

  lemma AssembledIsTransition(s: Buffer, m: ServerMessage, decode: Decoder)
    requires m.TransitionChunk?
    ensures Feed(s, m, decode).1.Assembled? ==> Feed(s, m, decode).1.transition.Transition?
  {
  }

  lemma ConnectEndCalls(c: State, op: Op, decode: Decoder)
    requires op.ConnectEnded? && !c.stopping
    ensures Step(c, op, decode).base == RunFrom(c.base, Calls(c, op, decode))
  {
    hide Disconnect, HandleOpen, RunFrom, OnClose, OnOpen;
    NoCalls(c.base);
    if c.connecting == Some(c.connGen) {
      match op.failure
      case Some(what) => CloseCalls(c, c.(connecting := None), ConnectFailed(what), op.fetched);
      case None =>
        if c.pendingOpen {
          OpenCalls(c, c.(connecting := None, conn := Some(c.connGen), pendingOpen := false, socketOpen := true));
        }
    }
  }

  lemma LifecycleCalls(c: State, op: Op, decode: Decoder)
    requires op.SocketOpened? || op.SocketClosed? || op.InactivityFound?
    ensures Step(c, op, decode).base == RunFrom(c.base, Calls(c, op, decode))
  {
    hide Disconnect, HandleOpen, RunFrom, OnClose, OnOpen;
    NoCalls(c.base);
    match op
    case SocketOpened(gen) =>
      if !c.stopping && gen == c.connGen && c.conn.Some? { OpenCalls(c, c.(socketOpen := true)); }
    case SocketClosed(gen, reason, fetched) => CloseCalls(c, c, reason, fetched);
    case InactivityFound(fetched) => CloseCalls(c, c, "InactiveServer", fetched);
  }

  lemma SubscribedCalls(c: State, path: string, args: Option<string>)
    ensures Subscribe(c, path, args).0.base
            == RunFrom(c.base, if args.None? then [] else ThenSent(c, [Runs.Subscribing(path, args)]))
  {
    hide Runs.Step, RunFrom, ThenSent, AddSub, Spec.AddQuery, Spec.ShareQuery, DrainOutgoing;
    NoCalls(c.base);
    var h := Spec.Subscribe(c.base.s, path, args).1;
    if h.Some? {
      var base := Runs.Step(c.base, Runs.Subscribing(path, args));
      var known := h.value.query in base.s.remoteResults;
      var first := if known then [Updated(h.value.index, base.s.remoteResults[h.value.query])] else [];
      DrainCalls(c, c.(base := base, subs := AddSub(c.subs, h.value), eventQueue := c.eventQueue + first),
                 Runs.Subscribing(path, args));
    }
  }

  lemma RequestedCalls(c: State, kind: Spec.RequestKind, path: string, args: Option<string>)
    requires !c.stopping
    ensures var call := Runs.Requesting(kind, path, args);
            Request(c, kind, path, args).base == RunFrom(c.base, if args.None? then [call] else ThenSent(c, [call]))
  {
    hide Runs.Step, RunFrom, ThenSent, Spec.AddRequest, DrainOutgoing;
    var call := Runs.Requesting(kind, path, args);
    RunOne(c.base, call);
    DrainCalls(c, c.(base := Runs.Step(c.base, call), pending := c.pending + {c.base.s.nextRequestId}), call);
  }

  lemma OperationCalls(c: State, op: Op, decode: Decoder)
    requires op.Subscribed? || op.Unsubscribed? || op.Requested? || op.AuthSet?
    ensures Step(c, op, decode).base == RunFrom(c.base, Calls(c, op, decode))
  {
    hide Runs.Step, RunFrom, ThenSent, RemoveSub, Subscribe, WsMessage, DrainOutgoing;
    NoCalls(c.base);
    match op
    case Subscribed(path, args) => SubscribedCalls(c, path, args);
    case Unsubscribed(h) =>
      DrainCalls(c, c.(base := Runs.Step(c.base, Runs.Unsubscribing(h)), subs := RemoveSub(c.subs, h)),
                 Runs.Unsubscribing(h));
    case Requested(kind, path, args) => if !c.stopping { RequestedCalls(c, kind, path, args); }
    case AuthSet(token, fetcher) =>
      DrainCalls(c, c.(fetcher := fetcher, consecutiveAuthErrors := 0,
                       base := Runs.Step(c.base, Runs.SettingAuth(token))), Runs.SettingAuth(token));
  }

  lemma StepCalls(c: State, op: Op, decode: Decoder)
    ensures Step(c, op, decode).base == RunFrom(c.base, Calls(c, op, decode))
  {
    hide RunFrom, OnClose, OnOpen, ThenSent, Deliver, Disconnect, HandleOpen, Feed, Subscribe, Unsubscribe, Request,
      SetAuth, Orphans;
    NoCalls(c.base);
    match op
    case FrameArrived(gen, _, _) => if !c.stopping && gen == c.connGen { FrameCalls(c, op, decode); }
    case ConnectEnded(_, _) => if !c.stopping { ConnectEndCalls(c, op, decode); }
    case SocketOpened(_) => LifecycleCalls(c, op, decode);
    case SocketClosed(_, _, _) => LifecycleCalls(c, op, decode);
    case InactivityFound(_) => LifecycleCalls(c, op, decode);
    case Subscribed(_, _) => OperationCalls(c, op, decode);
    case Unsubscribed(_) => OperationCalls(c, op, decode);
    case Requested(_, _, _) => OperationCalls(c, op, decode);
    case AuthSet(_, _) => OperationCalls(c, op, decode);
    case _ =>
  }

  /**
   * The base client inside the client goes through exactly the calls read off the client's operations; so what
   * holds of every run of the base client, by its calls, holds of the client by its operations.
   */
  lemma {:induction false} ClientDrivesBase(ops: seq<Op>, decode: Decoder)
    ensures Runs.Execute(AllCalls(ops, decode)) == Execute(ops, decode).base
  {
    hide Step, Calls, Runs.Step, Handled;
    if ops == [] {
      assert Execute(ops, decode) == INITIAL;
    } else {
      var init, op := ops[..|ops| - 1], ops[|ops| - 1];
      ClientDrivesBase(init, decode);
      StepCalls(Execute(init, decode), op, decode);
      RunFromStart(AllCalls(init, decode));
      RunFromStart(AllCalls(ops, decode));
      RunConcat(Runs.START, AllCalls(init, decode), Calls(Execute(init, decode), op, decode));
    }
  }

  // ---- Theorems: what callbacks are told, and who the client is ---------------------

  /**
   * Every request's callback is told the result of the last answer that came while the request was in flight, or
   * that its action was lost with a connection, or that the client was shut down before it was done.
   */
  lemma CallbacksAreAnswers(ops: seq<Op>, decode: Decoder, e: Event)
    requires Conforming(ops, decode) && e.Completed?
    requires var c := Execute(ops, decode); e in c.fired + c.eventQueue
    ensures var (c, h) := (Execute(ops, decode), History.Recorded(AllCalls(ops, decode)));
            if c.stopping && e.id in c.base.s.ongoing then e.result == PlainError("convex: client is shut down")
            else if e.id in h.lost then e.result == PlainError("Connection lost while action was in flight")
            else e.id in h.answers && History.Answers(h.answers[e.id]) && h.answers[e.id].result == e.result
  {
    hide Execute, AllCalls, Answers;
    var c, calls := Execute(ops, decode), AllCalls(ops, decode);
    EachCallbackToldTheReport(ops, decode);
    ClientDrivesBase(ops, decode);
    AnsweredIn(c.fired + c.eventQueue, e);
    StoppedQueueIsEmpty(ops, decode);
    Runs.ConservedAlways(calls);
    if (e.id, e.result) in c.base.reported {
      History.ReportsAreAnswers(calls, e.id, e.result);
      ReportedIsDone(c.base, e.id, e.result);
    } else {
      var ids := SortedIds(c.base.s.ongoing.Keys);
      var k :| 0 <= k < |GivenUp(ids)| && GivenUp(ids)[k] == (e.id, e.result);
      assert ids[k] in ids;
    }
  }

  lemma ReportedIsDone(r: Runs.Run, id: RequestId, result: FunctionResult)
    requires Runs.Conserved(r) && (id, result) in r.reported
    ensures id !in r.s.ongoing
  {
    var k :| 0 <= k < |r.reported| && r.reported[k] == (id, result);
    assert Runs.ReportedIds(r)[k] == id;
  }

  lemma {:induction false} AnsweredIn(events: seq<Event>, e: Event)
    requires e in events && e.Completed?
    ensures (e.id, e.result) in Answers(events)
  {
    if e in events[..|events| - 1] { AnsweredIn(events[..|events| - 1], e); }
  }

  lemma StoppedQueueIsEmpty(ops: seq<Op>, decode: Decoder)
    requires Conforming(ops, decode)
    ensures var c := Execute(ops, decode);
            c.stopping ==> Answers(c.fired + c.eventQueue) == Answers(c.fired)
  {
    SettledAlways(ops, decode);
    var c := Execute(ops, decode);
    AnswersConcat(c.fired, c.eventQueue);
  }

  /**
   * The identity the client keeps, and shows on the open connection, is the last one given: by set_auth, by the
   * fetcher when a connection was given up, or none after a terminal rejection.
   */
  lemma IdentityIsLastGiven(ops: seq<Op>, decode: Decoder)
    requires Conforming(ops, decode)
    ensures var (c, token) := (Execute(ops, decode), History.Recorded(AllCalls(ops, decode)).presented);
            && c.base.s.auth == (if token.NoToken? then None else Some(token))
            && (!c.stopping && Live(c) ==>
                  && Frames(c.wire, c.connGen) != []
                  && var sent := Replay(Frames(c.wire, c.connGen)[1..]);
                  sent.Some? && sent.value.auth == (if token.NoToken? then None else Some(token)))
  {
    hide Execute, AllCalls, Replay, History.Recorded;
    ClientDrivesBase(ops, decode);
    History.LastTokenIsPresented(AllCalls(ops, decode));
    var c := Execute(ops, decode);
    if !c.stopping && Live(c) { OpenConnectionMirrorsClient(ops, decode); }
  }

  /** Every request put on any connection says what its caller asked for. */
  lemma FramesSayWhatWasAsked(ops: seq<Op>, decode: Decoder, gen: nat, k: nat)
    requires Conforming(ops, decode)
    requires var frames := Frames(Execute(ops, decode).wire, gen);
             1 <= k < |frames| && frames[k].IsRequest()
    ensures var (m, calls) := (Frames(Execute(ops, decode).wire, gen)[k],
                               History.Recorded(AllCalls(ops, decode)).calls);
            && m.id in calls && calls[m.id].Requesting? && calls[m.id].args.Some?
            && m == (if calls[m.id].kind.ActionKind?
                     then ActionRequest(m.id, Canonicalize(calls[m.id].path), calls[m.id].args.value)
                     else MutationRequest(m.id, Canonicalize(calls[m.id].path), calls[m.id].args.value))
  {
    hide Execute, AllCalls, Replay, Carried, History.Recorded;
    ClientDrivesBase(ops, decode);
    WireDiscipline(ops, decode);
    var c := Execute(ops, decode);
    SettledAlways(ops, decode);
    CarriesFrame(c.wire, c.connGen, gen, k);
    History.RequestsSayWhatWasAsked(AllCalls(ops, decode), Frames(c.wire, gen)[k]);
  }

  lemma {:induction false} CarriesFrame(wire: map<nat, seq<ClientMessage>>, upTo: nat, gen: nat, k: nat)
    requires gen <= upTo && 1 <= k < |Frames(wire, gen)|
    ensures Frames(wire, gen)[k] in Carried(wire, upTo)
  {
    if gen == upTo {
      assert Tail(Frames(wire, gen))[k - 1] == Frames(wire, gen)[k];
    } else {
      CarriesFrame(wire, upTo - 1, gen, k);
    }
  }
}
