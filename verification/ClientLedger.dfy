/** Longer histories of the client: authentication failures, and the callbacks of each subscription. */
module ClientLedger {
  import opened Wrappers
  import opened Sequences
  import opened Values
  import opened Protocol
  import opened Chunks
  import opened ClientSpec
  import opened ClientRuns
  import opened ClientCalls
  import opened ClientConnections
  import Spec = BaseClientSpec
  import Runs = BaseClientRuns
  import Base = BaseClientLedger

  datatype Ledger = Ledger(
    fetcher: bool,                          // whether the user's token fetcher is still in use
    deauthedFrom: Option<nat>,              // first generation after a terminal auth failure, until set_auth
    tolerated: nat,                         // non-terminal AuthErrors since the last set_auth or synced transition
    held: set<Spec.SubscriberId>)           // subscription objects alive, while the client runs

  /** An AuthError is tolerated once in a row, and only if a token can be fetched anew. */
  ghost function NoteMessage(l: Ledger, c: State, m: ServerMessage): Ledger {
    if m.AuthError? then
      if m.updateAttempted || !l.fetcher || l.tolerated == 1 then
        l.(fetcher := false, tolerated := 0,
           deauthedFrom := if l.deauthedFrom.Some? then l.deauthedFrom else Some(c.connGen + 1))
      else l.(tolerated := l.tolerated + 1)
    else if CaughtUp(c, m) then l.(tolerated := 0)
    else l
  }

  ghost function Note(l: Ledger, c: State, op: Op, decode: Decoder): Ledger {
    var m := Handled(c, op, decode);
    if m.Some? then NoteMessage(l, c, m.value)
    else if c.stopping then l
    else
      match op
      case AuthSet(_, fetcher) => l.(fetcher := fetcher, deauthedFrom := None, tolerated := 0)
      case Subscribed(path, args) =>
        var h := Spec.Subscribe(c.base.s, path, args).1;
        if h.None? then l else l.(held := l.held + {h.value})
      case Unsubscribed(h) => l.(held := l.held - {h})
      case _ => l
  }

  ghost function Book(ops: seq<Op>, decode: Decoder): Ledger {
    if ops == [] then Ledger(false, None, 0, {})
    else Note(Book(ops[..|ops| - 1], decode), Execute(ops[..|ops| - 1], decode), ops[|ops| - 1], decode)
  }

  // ---- Authentication failures ----------------------------------------------

  ghost predicate NoAuthenticate(messages: seq<ClientMessage>) {
    forall m :: m in messages ==> !m.Authenticate?
  }

  /** Nothing the client holds, has sent in this epoch or has queued identifies it, and nothing will. */
  ghost predicate Anonymous(c: State) {
    && !c.fetcher && c.base.s.auth == None
    && NoAuthenticate(c.base.sent) && NoAuthenticate(c.base.s.outgoing)
  }

  ghost predicate SilentFrom(wire: map<nat, seq<ClientMessage>>, from: nat) {
    forall g :: g >= from ==> NoAuthenticate(Frames(wire, g))
  }

  /** From generation `from` on, nothing carried or to be carried identifies the client. */
  ghost predicate Deauthed(c: State, from: nat) {
    from <= c.connGen && Anonymous(c) && SilentFrom(c.wire, from)
  }

  ghost predicate AuthKept(c: State, l: Ledger) {
    && l.tolerated <= 1 && c.fetcher == l.fetcher && c.consecutiveAuthErrors == l.tolerated
    && (l.deauthedFrom.Some? ==> Deauthed(c, l.deauthedFrom.value))
  }

  lemma SendSilent(wire: map<nat, seq<ClientMessage>>, gen: nat, frames: seq<ClientMessage>, from: nat)
    requires SilentFrom(wire, from) && NoAuthenticate(frames)
    ensures SilentFrom(Send(wire, gen, frames), from)
  {
    forall g | g >= from
      ensures NoAuthenticate(Frames(Send(wire, gen, frames), g))
    {
      assert NoAuthenticate(Frames(wire, g));
      if g != gen { assert Frames(Send(wire, gen, frames), g) == Frames(wire, g); }
    }
  }

  lemma DrainAnonymous(c: State, from: nat)
    requires Deauthed(c, from)
    ensures Deauthed(DrainOutgoing(c), from)
  {
    if c.socketOpen && c.conn.Some? { SendSilent(c.wire, c.conn.value, c.base.s.outgoing, from); }
  }

  lemma OpenAnonymous(c: State, from: nat)
    requires c.conn.Some? && Deauthed(c, from)
    ensures Deauthed(HandleOpen(c), from)
  {
    var connect := Spec.MakeConnect(c.base.s, c.lastCloseReason).1;
    SendSilent(c.wire, c.conn.value, [connect], from);
    DrainAnonymous(c.(base := Runs.Step(c.base, Runs.Connecting(c.lastCloseReason)),
                      wire := Send(c.wire, c.conn.value, [connect])), from);
  }

  /** Restarting without a token queues no Authenticate. */
  lemma RestartAnonymous(s: Spec.State)
    requires s.auth == None && Runs.RequestsWellFormed(s)
    ensures NoAuthenticate(Spec.Restart(s, None).0.outgoing) && Spec.Restart(s, None).0.auth == None
  {
    hide Spec.ResentRequests, Spec.LostActions, Spec.UnsentActions, Spec.Adds;
    Runs.ResentInOrder(Spec.Restart(s, None).0.ongoing, s.nextRequestId);
  }

  lemma DisconnectAnonymous(c: State, reason: string, fetched: Option<AuthToken>)
    requires c.base.s.auth == None && !c.fetcher && Runs.RequestsWellFormed(c.base.s)
    ensures Anonymous(Disconnect(c, reason, fetched))
  {
    RestartAnonymous(c.base.s);
  }

  /** A step of the base client that adds no Authenticate. */
  lemma BaseStepAnonymous(c: State, c1: State, op: Runs.Op)
    requires Anonymous(c) && c1.base == Runs.Step(c.base, op) && !c1.fetcher
    requires !op.SettingAuth? && !op.Restarting? && !op.Popping?
    ensures Anonymous(c1)
  {
    if op.Receiving? { Runs.ReceiveFrame(c.base.s, op.message); }
  }

  lemma DisconnectAuthKept(c: State, l: Ledger, reason: string, fetched: Option<AuthToken>)
    requires AuthKept(c, l) && Reachable(c.base)
    ensures AuthKept(Disconnect(c, reason, fetched), l)
  {
    if l.deauthedFrom.Some? {
      ReachableCore(c.base);
      DisconnectAnonymous(c, reason, fetched);
    }
  }

  lemma OpenAuthKept(c: State, l: Ledger)
    requires c.conn.Some? && AuthKept(c, l)
    ensures AuthKept(HandleOpen(c), l)
  {
    if l.deauthedFrom.Some? { OpenAnonymous(c, l.deauthedFrom.value); }
  }

  lemma TerminalAuthError(c: State, reason: string, attempted: bool, fetched: Option<AuthToken>)
    requires Sound(c) && !c.stopping && Hopeless(c, attempted)
    ensures var c1 := Disconnect(AfterAuthError(c, reason, attempted), reason, fetched);
            && Anonymous(c1) && c1.consecutiveAuthErrors == 0
            && c1.wire == c.wire && c1.connGen == c.connGen + 1 && SilentFrom(c1.wire, c.connGen + 1)
  {
    var c0 := AfterAuthError(c, reason, attempted);
    AfterAuthErrorSound(c, reason, attempted);
    ReachableCore(c0.base);
    DisconnectAnonymous(c0, reason, fetched);
  }

  /** An AuthError changes nothing in the base client itself. */
  lemma AuthErrorDelivered(c: State, m: ServerMessage, fetched: Option<AuthToken>)
    requires m.AuthError?
    ensures var reason := "AuthError: " + m.error;
            Deliver(c, m, fetched) == Disconnect(AfterAuthError(c, reason, m.updateAttempted), reason, fetched)
  {
    RejectedBase(c.base, m);
    assert c.(base := c.base) == c;
  }

  lemma AuthErrorKept(c: State, l: Ledger, m: ServerMessage, fetched: Option<AuthToken>)
    requires AuthKept(c, l) && Sound(c) && !c.stopping && m.AuthError?
    ensures AuthKept(Deliver(c, m, fetched), NoteMessage(l, c, m))
  {
    hide Wired, CalledBack, Disconnect, Deliver, Spec.Receive, Runs.Step;
    var reason := "AuthError: " + m.error;
    AuthErrorDelivered(c, m, fetched);
    if Hopeless(c, m.updateAttempted) {
      TerminalAuthError(c, reason, m.updateAttempted, fetched);
    } else {
      var c1 := AfterAuthError(c, reason, m.updateAttempted);
      assert c1 == c.(consecutiveAuthErrors := c.consecutiveAuthErrors + 1);
      DisconnectAuthKept(c1, l.(tolerated := l.tolerated + 1), reason, fetched);
    }
  }

  lemma DeliverResultsDeauthed(c: State, m: ServerMessage, fetched: Option<AuthToken>, from: nat)
    requires Deauthed(c, from) && Spec.Receive(c.base.s, m).1.reconnectReason.None?
    ensures Deauthed(Deliver(c, m, fetched), from)
  {
    var r := Spec.Receive(c.base.s, m).1;
    var base := Runs.Step(c.base, Runs.Receiving(m));
    var (left, completions) := Resolve(c.pending, r.completed);
    var healthy := r.stateChanged && base.s.outstanding == {};
    var c1 := c.(base := base, pending := left,
                 eventQueue := c.eventQueue + Updates(c.subs, base.s.remoteResults, r.changedQueries) + completions,
                 retries := if healthy then 0 else c.retries,
                 consecutiveAuthErrors := if healthy then 0 else c.consecutiveAuthErrors);
    BaseStepAnonymous(c, c1, Runs.Receiving(m));
    DrainAnonymous(c1, from);
  }

  lemma DeliverResultsCounters(c: State, m: ServerMessage, fetched: Option<AuthToken>)
    requires Spec.Receive(c.base.s, m).1.reconnectReason.None?
    ensures var c1 := Deliver(c, m, fetched);
            && c1.fetcher == c.fetcher
            && c1.consecutiveAuthErrors == (if CaughtUp(c, m) then 0 else c.consecutiveAuthErrors)
  {
    hide CaughtUp;
    CaughtUpIs(c, m);
  }

  lemma DeliverAuthKept(c: State, l: Ledger, m: ServerMessage, fetched: Option<AuthToken>)
    requires AuthKept(c, l) && Sound(c) && !c.stopping
    ensures AuthKept(Deliver(c, m, fetched), NoteMessage(l, c, m))
  {
    var r := Spec.Receive(c.base.s, m).1;
    if m.AuthError? {
      AuthErrorKept(c, l, m, fetched);
    } else if r.reconnectReason.Some? {
      RefusedDelivered(c, m, fetched);
      DisconnectAuthKept(c, l, r.reconnectReason.value, fetched);
    } else {
      DeliverResultsCounters(c, m, fetched);
      if l.deauthedFrom.Some? { DeliverResultsDeauthed(c, m, fetched, l.deauthedFrom.value); }
    }
  }

  /** A message that forces a reconnect, and is no AuthError, does nothing else. */
  lemma RefusedDelivered(c: State, m: ServerMessage, fetched: Option<AuthToken>)
    requires !m.AuthError? && Spec.Receive(c.base.s, m).1.reconnectReason.Some?
    ensures Deliver(c, m, fetched) == Disconnect(c, Spec.Receive(c.base.s, m).1.reconnectReason.value, fetched)
    ensures !CaughtUp(c, m)
  {
    hide Disconnect, Resolve, Updates, DrainOutgoing;
    RejectedBase(c.base, m);
    assert c.(base := c.base) == c;
  }

  lemma ChunkAuthKept(c: State, l: Ledger, m: ServerMessage, fetched: Option<AuthToken>, decode: Decoder)
    requires AuthKept(c, l) && Settled(c) && !c.stopping && m.TransitionChunk?
    ensures var (chunks, fed) := Feed(c.chunks, m, decode);
            var c1 := c.(chunks := chunks);
            match fed
            case Partial => AuthKept(c1, l)
            case Rejected(why) => AuthKept(Disconnect(c1, "ProtocolError: " + why, fetched), l)
            case Assembled(t) => AuthKept(Deliver(c1, t, fetched), NoteMessage(l, c, t))
  {
    var (chunks, fed) := Feed(c.chunks, m, decode);
    var c1 := c.(chunks := chunks);
    ChunksDoNotMatter(c, chunks);
    assert AuthKept(c1, l);
    match fed
    case Partial =>
    case Rejected(why) => DisconnectAuthKept(c1, l, "ProtocolError: " + why, fetched);
    case Assembled(t) =>
      DeliverAuthKept(c1, l, t, fetched);
      assert NoteMessage(l, c1, t) == NoteMessage(l, c, t);
  }

  lemma WholeMessageAuthKept(c: State, l: Ledger, m: ServerMessage, fetched: Option<AuthToken>)
    requires AuthKept(c, l) && Settled(c) && !c.stopping
    ensures AuthKept(Deliver(if m.Ping? then c else c.(chunks := IDLE), m, fetched), NoteMessage(l, c, m))
  {
    var c1 := if m.Ping? then c else c.(chunks := IDLE);
    ChunksDoNotMatter(c, IDLE);
    assert AuthKept(c1, l) && NoteMessage(l, c1, m) == NoteMessage(l, c, m);
    DeliverAuthKept(c1, l, m, fetched);
  }

  lemma FrameAuthKept(c: State, l: Ledger, op: Op, decode: Decoder)
    requires AuthKept(c, l) && Settled(c) && op.FrameArrived? && !c.stopping && op.gen == c.connGen
    ensures AuthKept(Step(c, op, decode), Note(l, c, op, decode))
  {
    match decode(op.text)
    case Err(why) =>
      MalformedStep(c, op, decode);
      DisconnectAuthKept(c, l, "ProtocolError: " + why, op.fetched);
    case Ok(m) =>
      if m.TransitionChunk? {
        ChunkStep(c, op, decode, m);
        ChunkAuthKept(c, l, m, op.fetched, decode);
      } else {
        WholeMessageStep(c, op, decode, m);
        WholeMessageAuthKept(c, l, m, op.fetched);
      }
  }

  lemma SubscribedDeauthed(c: State, path: string, args: Option<string>, from: nat)
    requires Deauthed(c, from)
    ensures Deauthed(Subscribe(c, path, args).0, from)
  {
    var h := Spec.Subscribe(c.base.s, path, args).1;
    if h.Some? {
      var base := Runs.Step(c.base, Runs.Subscribing(path, args));
      var first := if h.value.query in base.s.remoteResults
                   then [Updated(h.value.index, base.s.remoteResults[h.value.query])] else [];
      var c1 := c.(base := base, subs := AddSub(c.subs, h.value), eventQueue := c.eventQueue + first);
      BaseStepAnonymous(c, c1, Runs.Subscribing(path, args));
      DrainAnonymous(c1, from);
    }
  }

  lemma UnsubscribedDeauthed(c: State, h: Spec.SubscriberId, from: nat)
    requires Deauthed(c, from) && !c.stopping
    ensures Deauthed(Unsubscribe(c, h), from)
  {
    var c1 := c.(base := Runs.Step(c.base, Runs.Unsubscribing(h)), subs := RemoveSub(c.subs, h));
    BaseStepAnonymous(c, c1, Runs.Unsubscribing(h));
    DrainAnonymous(c1, from);
  }

  lemma RequestedDeauthed(c: State, kind: Spec.RequestKind, path: string, args: Option<string>, from: nat)
    requires Deauthed(c, from) && !c.stopping
    ensures Deauthed(Request(c, kind, path, args), from)
  {
    var id := Spec.Request(c.base.s, kind, path, args).1;
    var c1 := c.(base := Runs.Step(c.base, Runs.Requesting(kind, path, args)));
    BaseStepAnonymous(c, c1, Runs.Requesting(kind, path, args));
    if id.Some? { DrainAnonymous(c1.(pending := c.pending + {id.value}), from); }
  }

  lemma OperationDeauthed(c: State, op: Op, decode: Decoder, from: nat)
    requires Deauthed(c, from)
    requires op.Subscribed? || ((op.Unsubscribed? || op.Requested?) && !c.stopping)
    ensures Deauthed(Step(c, op, decode), from)
  {
    match op
    case Subscribed(path, args) => SubscribedDeauthed(c, path, args, from);
    case Unsubscribed(h) => UnsubscribedDeauthed(c, h, from);
    case Requested(kind, path, args) => RequestedDeauthed(c, kind, path, args, from);
  }

  lemma OperationAuthKept(c: State, l: Ledger, op: Op, decode: Decoder)
    requires AuthKept(c, l) && (op.Subscribed? || op.Unsubscribed? || op.Requested?)
    ensures AuthKept(Step(c, op, decode), Note(l, c, op, decode))
  {
    if l.deauthedFrom.Some? && (op.Subscribed? || !c.stopping) {
      OperationDeauthed(c, op, decode, l.deauthedFrom.value);
    }
  }

  lemma ConnectEndedAuthKept(c: State, l: Ledger, failure: Option<string>, fetched: Option<AuthToken>)
    requires AuthKept(c, l) && Reachable(c.base)
    ensures AuthKept(FinishConnect(c, failure, fetched), l)
  {
    var c1 := c.(connecting := None);
    assert AuthKept(c1, l);
    if failure.Some? {
      DisconnectAuthKept(c1, l, ConnectFailed(failure.value), fetched);
    } else {
      OpenAuthKept(c1.(conn := Some(c.connGen), pendingOpen := false, socketOpen := true), l);
    }
  }

  lemma ConnectionAuthKept(c: State, l: Ledger, op: Op, decode: Decoder)
    requires AuthKept(c, l) && Settled(c)
    requires op.SocketOpened? || op.SocketClosed? || op.ConnectBegun? || op.InactivityFound?
    ensures AuthKept(Step(c, op, decode), l)
  {
    match op
    case SocketOpened(gen) =>
      if !c.stopping && gen == c.connGen && c.conn.Some? { OpenAuthKept(c.(socketOpen := true), l); }
    case SocketClosed(gen, reason, fetched) => DisconnectAuthKept(c, l, reason, fetched);
    case ConnectBegun =>
    case InactivityFound(fetched) => DisconnectAuthKept(c, l, "InactiveServer", fetched);
  }

  lemma AuthKeptStep(c: State, l: Ledger, op: Op, decode: Decoder)
    requires AuthKept(c, l) && Settled(c)
    ensures AuthKept(Step(c, op, decode), Note(l, c, op, decode))
  {
    match op
    case FrameArrived(gen, _, _) =>
      if !c.stopping && gen == c.connGen { FrameAuthKept(c, l, op, decode); }
    case Subscribed(_, _) => OperationAuthKept(c, l, op, decode);
    case Unsubscribed(_) => OperationAuthKept(c, l, op, decode);
    case Requested(_, _, _) => OperationAuthKept(c, l, op, decode);
    case AuthSet(_, _) =>
    case EventsProcessed =>
    case ShutDown =>
    case ConnectEnded(failure, fetched) => ConnectEndedAuthKept(c, l, failure, fetched);
    case _ => ConnectionAuthKept(c, l, op, decode);
  }

  lemma {:induction false} AuthKeptAlways(ops: seq<Op>, decode: Decoder)
    requires Conforming(ops, decode)
    ensures AuthKept(Execute(ops, decode), Book(ops, decode))
  {
    if ops != [] {
      var init := ops[..|ops| - 1];
      ConformingInit(ops, decode);
      AuthKeptAlways(init, decode);
      SettledAlways(init, decode);
      AuthKeptStep(Execute(init, decode), Book(init, decode), ops[|ops| - 1], decode);
    }
  }

  lemma ConformingInit(ops: seq<Op>, decode: Decoder)
    requires Conforming(ops, decode) && ops != []
    ensures Conforming(ops[..|ops| - 1], decode)
  {
    var init := ops[..|ops| - 1];
    assert forall k :: 0 <= k < |init| ==> init[..k] == ops[..k];
  }

  /**
   * The client counts AuthErrors, and keeps or drops the fetcher, as read off the messages: one in a row is tolerated
   * if a token can be fetched anew. After a terminal one no connection made later carries an Authenticate, and no
   * identity is kept, until set_auth is called.
   */
  lemma TerminalAuthFailureIsFinal(ops: seq<Op>, decode: Decoder)
    requires Conforming(ops, decode)
    ensures var c, l := Execute(ops, decode), Book(ops, decode);
            && c.fetcher == l.fetcher && c.consecutiveAuthErrors == l.tolerated <= 1
            && (l.deauthedFrom.Some? ==>
                  && c.base.s.auth.None? && !c.fetcher
                  && forall g, k :: g >= l.deauthedFrom.value && 0 <= k < |Frames(c.wire, g)|
                       ==> !Frames(c.wire, g)[k].Authenticate?)
  {
    AuthKeptAlways(ops, decode);
    var c, l := Execute(ops, decode), Book(ops, decode);
    if l.deauthedFrom.Some? {
      forall g, k | g >= l.deauthedFrom.value && 0 <= k < |Frames(c.wire, g)|
        ensures !Frames(c.wire, g)[k].Authenticate?
      {
        assert Frames(c.wire, g)[k] in Frames(c.wire, g);
      }
    }
  }

  // ---- Subscriptions ----------------------------------------------------------

  predicate HasEntry(subs: map<QueryId, seq<nat>>, h: Spec.SubscriberId) {
    h.query in subs && h.index in subs[h.query]
  }

  /** The entries of `subs` are the handles held, each once. */
  ghost predicate Listed(subs: map<QueryId, seq<nat>>, held: set<Spec.SubscriberId>) {
    && (forall q :: q in subs ==> subs[q] != [] && Distinct(subs[q]))
    && (forall h :: HasEntry(subs, h) <==> h in held)
  }

  ghost predicate Tracked(c: State, l: Ledger) {
    !c.stopping ==> Base.Counted(c.base.s, l.held) && Listed(c.subs, l.held)
  }

  lemma AddSubListed(subs: map<QueryId, seq<nat>>, held: set<Spec.SubscriberId>, h: Spec.SubscriberId)
    requires Listed(subs, held) && h !in held
    ensures Listed(AddSub(subs, h), held + {h})
  {
    var subs1, before := AddSub(subs, h), if h.query in subs then subs[h.query] else [];
    assert !HasEntry(subs, h);
    forall g
      ensures HasEntry(subs1, g) <==> g in held + {h}
    {
      assert HasEntry(subs, g) <==> g in held;
      if g.query == h.query { assert g.index in subs1[h.query] <==> g.index in before || g.index == h.index; }
    }
  }

  lemma {:induction false} WithoutRemoves(indexes: seq<nat>, index: nat)
    requires Distinct(indexes)
    ensures Distinct(Without(indexes, index))
    ensures forall i :: i in Without(indexes, index) <==> i in indexes && i != index
  {
    if indexes != [] {
      var init, last := indexes[..|indexes| - 1], indexes[|indexes| - 1];
      WithoutRemoves(init, index);
      assert indexes == init + [last];
      assert last !in init;
    }
  }

  lemma RemoveSubListed(subs: map<QueryId, seq<nat>>, held: set<Spec.SubscriberId>, h: Spec.SubscriberId)
    requires Listed(subs, held) && h in held
    ensures Listed(RemoveSub(subs, h), held - {h})
  {
    var subs1 := RemoveSub(subs, h);
    assert HasEntry(subs, h);
    WithoutRemoves(subs[h.query], h.index);
    forall g
      ensures HasEntry(subs1, g) <==> g in held - {h}
    {
      assert HasEntry(subs, g) <==> g in held;
      if g.query == h.query { assert g.index in Without(subs[h.query], h.index) <==> HasEntry(subs, g) && g != h; }
    }
  }

  lemma EmptiedCounted(c: State, held: set<Spec.SubscriberId>)
    requires Base.Counted(c.base.s, held)
    ensures Base.Counted(DrainOutgoing(c).base.s, held)
  {
  }

  lemma SubscribeTracked(c: State, l: Ledger, path: string, args: Option<string>)
    requires Tracked(c, l) && Reachable(c.base) && !c.stopping && args.Some?
    ensures var (c1, h) := Subscribe(c, path, args);
            h.Some? && Tracked(c1, l.(held := l.held + {h.value}))
  {
    ReachableCore(c.base);
    Base.SubscribeCounted(c.base.s, l.held, path, args);
    var (s1, h) := Spec.Subscribe(c.base.s, path, args);
    assert h.value.index == c.base.s.nextSubscriptionIndex;
    AddSubListed(c.subs, l.held, h.value);
    EmptiedCounted(c.(base := Runs.Step(c.base, Runs.Subscribing(path, args))), l.held + {h.value});
  }

  lemma UnsubscribeTracked(c: State, l: Ledger, h: Spec.SubscriberId)
    requires Tracked(c, l) && Reachable(c.base) && !c.stopping && h in l.held
    ensures Tracked(Unsubscribe(c, h), l.(held := l.held - {h}))
  {
    ReachableCore(c.base);
    Base.UnsubscribeCounted(c.base.s, l.held, h);
    RemoveSubListed(c.subs, l.held, h);
    EmptiedCounted(c.(base := Runs.Step(c.base, Runs.Unsubscribing(h))), l.held - {h});
  }

  lemma DisconnectTracked(c: State, l: Ledger, reason: string, fetched: Option<AuthToken>)
    requires Tracked(c, l) && !c.stopping
    ensures Tracked(Disconnect(c, reason, fetched), l)
  {
    Base.OtherOpsCounted(c.base, l.held, Runs.Restarting(if c.fetcher then fetched else None));
  }

  lemma OpenTracked(c: State, l: Ledger)
    requires c.conn.Some? && Tracked(c, l) && !c.stopping
    ensures Tracked(HandleOpen(c), l)
  {
    Base.OtherOpsCounted(c.base, l.held, Runs.Connecting(c.lastCloseReason));
  }

  lemma AfterAuthErrorTracked(c: State, l: Ledger, reason: string, attempted: bool)
    requires Tracked(c, l) && !c.stopping
    ensures Tracked(AfterAuthError(c, reason, attempted), l)
  {
    Base.OtherOpsCounted(c.base, l.held, Runs.SettingAuth(NoToken));
  }

  lemma RejectedTracked(c: State, l: Ledger, m: ServerMessage, fetched: Option<AuthToken>)
    requires Tracked(c, l) && !c.stopping && Spec.Receive(c.base.s, m).1.reconnectReason.Some?
    ensures Tracked(Deliver(c, m, fetched), l)
  {
    var r := Spec.Receive(c.base.s, m).1;
    var reason := r.reconnectReason.value;
    if m.AuthError? {
      AuthErrorDelivered(c, m, fetched);
      AfterAuthErrorTracked(c, l, reason, m.updateAttempted);
      DisconnectTracked(AfterAuthError(c, reason, m.updateAttempted), l, reason, fetched);
    } else {
      RefusedDelivered(c, m, fetched);
      DisconnectTracked(c, l, reason, fetched);
    }
  }

  lemma DeliverTracked(c: State, l: Ledger, m: ServerMessage, fetched: Option<AuthToken>)
    requires Tracked(c, l) && !c.stopping
    ensures Tracked(Deliver(c, m, fetched), l)
  {
    if Spec.Receive(c.base.s, m).1.reconnectReason.Some? {
      RejectedTracked(c, l, m, fetched);
    } else {
      Base.OtherOpsCounted(c.base, l.held, Runs.Receiving(m));
    }
  }

  lemma FrameTracked(c: State, l: Ledger, op: Op, decode: Decoder)
    requires Tracked(c, l) && op.FrameArrived? && !c.stopping && op.gen == c.connGen
    ensures Tracked(Step(c, op, decode), l)
  {
    match decode(op.text)
    case Err(why) =>
      MalformedStep(c, op, decode);
      DisconnectTracked(c, l, "ProtocolError: " + why, op.fetched);
    case Ok(m) =>
      if m.TransitionChunk? {
        var (chunks, fed) := Feed(c.chunks, m, decode);
        var c1 := c.(chunks := chunks);
        ChunkStep(c, op, decode, m);
        assert Tracked(c1, l);
        match fed
        case Partial =>
        case Rejected(why) => DisconnectTracked(c1, l, "ProtocolError: " + why, op.fetched);
        case Assembled(t) => DeliverTracked(c1, l, t, op.fetched);
      } else {
        WholeMessageStep(c, op, decode, m);
        DeliverTracked(if m.Ping? then c else c.(chunks := IDLE), l, m, op.fetched);
      }
  }

  lemma FrameKeepsHeld(c: State, l: Ledger, op: Op, decode: Decoder)
    requires !op.Subscribed? && !op.Unsubscribed?
    ensures Note(l, c, op, decode).held == l.held
  {
  }

  lemma ConnectEndedTracked(c: State, l: Ledger, failure: Option<string>, fetched: Option<AuthToken>)
    requires Tracked(c, l) && !c.stopping
    ensures Tracked(FinishConnect(c, failure, fetched), l)
  {
    var c1 := c.(connecting := None);
    assert Tracked(c1, l);
    if failure.Some? {
      DisconnectTracked(c1, l, ConnectFailed(failure.value), fetched);
    } else {
      OpenTracked(c1.(conn := Some(c.connGen), pendingOpen := false, socketOpen := true), l);
    }
  }

  lemma OtherStepsTracked(c: State, l: Ledger, op: Op, decode: Decoder)
    requires Tracked(c, l) && !c.stopping && !op.Subscribed? && !op.Unsubscribed?
    ensures Tracked(Step(c, op, decode), l)
  {
    hide Disconnect, HandleOpen, Deliver, Feed, FinishConnect, Listed, Base.HandlesOf, Spec.Request,
      Spec.SetAuth, Orphans;
    match op
    case SocketOpened(gen) => if c.conn.Some? { OpenTracked(c.(socketOpen := true), l); }
    case SocketClosed(gen, reason, fetched) => DisconnectTracked(c, l, reason, fetched);
    case FrameArrived(gen, _, _) => if gen == c.connGen { FrameTracked(c, l, op, decode); }
    case ConnectBegun =>
    case ConnectEnded(failure, fetched) => ConnectEndedTracked(c, l, failure, fetched);
    case InactivityFound(fetched) => DisconnectTracked(c, l, "InactiveServer", fetched);
    case Requested(kind, path, args) => Base.OtherOpsCounted(c.base, l.held, Runs.Requesting(kind, path, args));
    case AuthSet(token, fetcher) => Base.OtherOpsCounted(c.base, l.held, Runs.SettingAuth(token));
    case EventsProcessed =>
    case ShutDown =>
  }

  /** Each subscription object lets go once: the moved-from or already released handle is empty. */
  ghost predicate Disciplined(ops: seq<Op>, decode: Decoder) {
    forall k :: 0 <= k < |ops| && ops[k].Unsubscribed? && !Execute(ops[..k], decode).stopping
      ==> ops[k].handle in Book(ops[..k], decode).held
  }

  lemma StoppedForGood(c: State, op: Op, decode: Decoder)
    requires c.stopping
    ensures Step(c, op, decode).stopping
  {
  }

  lemma TrackedStep(c: State, l: Ledger, op: Op, decode: Decoder)
    requires Tracked(c, l) && Settled(c)
    requires op.Unsubscribed? && !c.stopping ==> op.handle in l.held
    ensures Tracked(Step(c, op, decode), Note(l, c, op, decode))
  {
    if c.stopping {
      StoppedForGood(c, op, decode);
    } else if op.Subscribed? {
      if op.args.Some? { SubscribeTracked(c, l, op.path, op.args); }
    } else if op.Unsubscribed? {
      UnsubscribeTracked(c, l, op.handle);
    } else {
      OtherStepsTracked(c, l, op, decode);
      FrameKeepsHeld(c, l, op, decode);
    }
  }

  lemma {:induction false} TrackedAlways(ops: seq<Op>, decode: Decoder)
    requires Conforming(ops, decode) && Disciplined(ops, decode)
    ensures Tracked(Execute(ops, decode), Book(ops, decode))
  {
    if ops != [] {
      var init := ops[..|ops| - 1];
      ConformingInit(ops, decode);
      assert forall k :: 0 <= k < |init| ==> init[..k] == ops[..k];
      TrackedAlways(init, decode);
      SettledAlways(init, decode);
      TrackedStep(Execute(init, decode), Book(init, decode), ops[|ops| - 1], decode);
    }
  }

  function HandlesFor(q: QueryId, indexes: seq<nat>): set<Spec.SubscriberId> {
    set i | i in indexes :: Spec.SubscriberId(q, i)
  }

  lemma {:induction false} HandlesForCount(q: QueryId, indexes: seq<nat>)
    requires Distinct(indexes)
    ensures |HandlesFor(q, indexes)| == |indexes|
  {
    if indexes != [] {
      var init, last := indexes[..|indexes| - 1], indexes[|indexes| - 1];
      HandlesForCount(q, init);
      assert indexes == init + [last];
      assert last !in init;
      assert HandlesFor(q, indexes) == HandlesFor(q, init) + {Spec.SubscriberId(q, last)};
    }
  }

  lemma EntriesCounted(subs: map<QueryId, seq<nat>>, held: set<Spec.SubscriberId>, q: QueryId)
    requires Listed(subs, held)
    ensures q in subs <==> Base.HandlesOf(held, q) != {}
    ensures q in subs ==> |subs[q]| == |Base.HandlesOf(held, q)|
  {
    if q in subs {
      HandlesForCount(q, subs[q]);
      assert forall i :: i in subs[q] <==> HasEntry(subs, Spec.SubscriberId(q, i));
      assert HandlesFor(q, subs[q]) == Base.HandlesOf(held, q);
    }
    forall h | h in Base.HandlesOf(held, q)
      ensures q in subs
    {
      assert HasEntry(subs, h);
    }
  }

  /**
   * While the client runs and each handle is dropped once, a query is live exactly when a callback is
   * registered for it, and its subscriber count is the number of callbacks.
   */
  lemma SubscriberCountsAgree(ops: seq<Op>, decode: Decoder, id: QueryId)
    requires Conforming(ops, decode) && Disciplined(ops, decode) && !Execute(ops, decode).stopping
    ensures var c := Execute(ops, decode);
            && (id in c.base.s.idToToken <==> id in c.subs)
            && (id in c.subs ==>
                  && c.base.s.idToToken[id] in c.base.s.querySet
                  && c.base.s.querySet[c.base.s.idToToken[id]].numSubscribers == |c.subs[id]|)
  {
    TrackedAlways(ops, decode);
    SettledAlways(ops, decode);
    var c, held := Execute(ops, decode), Book(ops, decode).held;
    ReachableCore(c.base);
    EntriesCounted(c.subs, held, id);
    Base.LiveMeansHeld(c.base.s, held);
  }

  /** `e` tells the holder of some changed query's handle that query's latest result. */
  ghost predicate OwedTo(held: set<Spec.SubscriberId>, results: map<QueryId, FunctionResult>,
                         changed: seq<QueryId>, e: Event) {
    e.Updated? && exists h :: h in held && h.query in changed && h.query in results
                              && h.index == e.index && e.result == results[h.query]
  }

  lemma {:induction false} UpdatesReachHolders(subs: map<QueryId, seq<nat>>, held: set<Spec.SubscriberId>,
                                               results: map<QueryId, FunctionResult>, changed: seq<QueryId>, e: Event)
    requires Listed(subs, held)
    ensures e in Updates(subs, results, changed) <==> OwedTo(held, results, changed, e)
  {
    if changed != [] {
      var init, id := changed[..|changed| - 1], changed[|changed| - 1];
      UpdatesReachHolders(subs, held, results, init, e);
      assert forall q :: q in changed <==> q in init || q == id;
      if id in results && id in subs {
        NotificationsReach(subs, held, id, results[id], e);
      } else if id in results {
        assert forall h :: h in held && h.query == id ==> HasEntry(subs, h);
      }
    }
  }

  lemma NotificationsReach(subs: map<QueryId, seq<nat>>, held: set<Spec.SubscriberId>, id: QueryId,
                           result: FunctionResult, e: Event)
    requires Listed(subs, held) && id in subs
    ensures e in Notifications(subs[id], result)
            <==> e.Updated? && e.result == result && Spec.SubscriberId(id, e.index) in held
  {
    var events := Notifications(subs[id], result);
    if e.Updated? && e.result == result && Spec.SubscriberId(id, e.index) in held {
      assert HasEntry(subs, Spec.SubscriberId(id, e.index));
      var k :| 0 <= k < |subs[id]| && subs[id][k] == e.index;
      assert events[k] == e;
    }
    if e in events {
      var k :| 0 <= k < |events| && events[k] == e;
      assert HasEntry(subs, Spec.SubscriberId(id, subs[id][k]));
    }
  }

  lemma DeliverQueues(c: State, m: ServerMessage, fetched: Option<AuthToken>)
    requires Spec.Receive(c.base.s, m).1.reconnectReason.None?
    ensures var (s, r) := Spec.Receive(c.base.s, m);
            Deliver(c, m, fetched).eventQueue
            == c.eventQueue + Updates(c.subs, s.remoteResults, r.changedQueries) + Resolve(c.pending, r.completed).1
  {
  }

  lemma JoinedQueue(before: seq<Event>, updates: seq<Event>, completions: seq<Event>, e: Event)
    requires e.Updated? && forall x :: x in completions ==> x.Completed?
    ensures var queue := before + updates + completions;
            queue[..|before|] == before && (e in queue[|before|..] <==> e in updates)
  {
    var queue := before + updates + completions;
    assert queue[|before|..] == updates + completions;
  }

  /** The last word of a transition on a query is a result, and this one. */
  predicate Says(mods: seq<StateModification>, id: QueryId, result: FunctionResult) {
    match Base.LastMention(mods, id)
    case Some(QueryUpdated(_, value, _)) => result == Success(value)
    case Some(QueryFailed(_, message, None, _)) => result == PlainError(message)
    case Some(QueryFailed(_, message, Some(data), _)) => result == AppError(message, data)
    case _ => false
  }

  lemma {:induction false} ChangedAreMentioned(mods: seq<StateModification>, id: QueryId)
    ensures id in Spec.Ids(mods) <==> Base.LastMention(mods, id).Some?
    ensures Base.LastMention(mods, id).Some? ==> Base.LastMention(mods, id).value.id == id
  {
    if mods != [] {
      var init, last := mods[..|mods| - 1], mods[|mods| - 1];
      ChangedAreMentioned(init, id);
      assert Spec.Ids(mods) == Spec.Ids(init) + [last.id];
    }
  }

  /** A query a transition changes has a result afterwards exactly when its last word is one. */
  lemma ResultsAreSaid(s: Spec.State, m: ServerMessage, id: QueryId, result: FunctionResult)
    requires m.Transition? && m.start == s.remoteVersion
    ensures var (s1, r) := Spec.Receive(s, m);
            id in r.changedQueries && id in s1.remoteResults && s1.remoteResults[id] == result
            <==> Says(m.modifications, id, result)
  {
    hide Spec.ResultOf, Spec.Ids;
    ChangedAreMentioned(m.modifications, id);
    Base.LastMentionWins(s, m.modifications, id);
    var last := Base.LastMention(m.modifications, id);
    if last.Some? && !last.value.QueryRemoved? { Base.ResultSays(last.value); }
  }

  lemma OthersChangeNothing(s: Spec.State, m: ServerMessage)
    requires !m.Transition?
    ensures Spec.Receive(s, m).1.changedQueries == []
  {
  }

  lemma OwedAsSaid(c: State, held: set<Spec.SubscriberId>, m: ServerMessage, e: Event)
    requires !m.TransitionChunk? && MessageReason(c, m).None? && e.Updated?
    ensures var (s, r) := Spec.Receive(c.base.s, m);
            OwedTo(held, s.remoteResults, r.changedQueries, e)
            <==> m.Transition?
                 && exists h :: h in held && h.index == e.index && Says(m.modifications, h.query, e.result)
  {
    hide Spec.Receive, Says;
    if m.Transition? {
      forall h | h in held
        ensures var (s, r) := Spec.Receive(c.base.s, m);
                h.query in r.changedQueries && h.query in s.remoteResults && s.remoteResults[h.query] == e.result
                <==> Says(m.modifications, h.query, e.result)
      {
        ResultsAreSaid(c.base.s, m, h.query, e.result);
      }
    } else {
      OthersChangeNothing(c.base.s, m);
    }
  }

  /**
   * A server message the client goes on from queues an update for exactly the holders of handles of the queries its
   * last word on which is a result, each with that result.
   */
  lemma MessageUpdatesEveryHolder(ops: seq<Op>, decode: Decoder, m: ServerMessage, fetched: Option<AuthToken>, e: Event)
    requires Conforming(ops, decode) && Disciplined(ops, decode) && !Execute(ops, decode).stopping
    requires !m.TransitionChunk? && MessageReason(Execute(ops, decode), m).None? && e.Updated?
    ensures var c := Execute(ops, decode);
            var queue := Deliver(c, m, fetched).eventQueue;
            && |c.eventQueue| <= |queue| && queue[..|c.eventQueue|] == c.eventQueue
            && (e in queue[|c.eventQueue|..]
                <==> m.Transition?
                     && exists h :: h in Book(ops, decode).held && h.index == e.index
                                    && Says(m.modifications, h.query, e.result))
  {
    hide Execute, Book, Deliver, Spec.Receive, Says, OwedTo;
    TrackedAlways(ops, decode);
    var c := Execute(ops, decode);
    ReasonIs(c, m);
    var (s, r) := Spec.Receive(c.base.s, m);
    var updates, completions := Updates(c.subs, s.remoteResults, r.changedQueries), Resolve(c.pending, r.completed).1;
    UpdatesReachHolders(c.subs, Book(ops, decode).held, s.remoteResults, r.changedQueries, e);
    ResolveQueuesCompletions(c.pending, r.completed);
    DeliverQueues(c, m, fetched);
    JoinedQueue(c.eventQueue, updates, completions, e);
    OwedAsSaid(c, Book(ops, decode).held, m, e);
  }

  lemma {:induction false} ResolveQueuesCompletions(pending: set<RequestId>, done: seq<Spec.Completion>)
    ensures forall e :: e in Resolve(pending, done).1 ==> e.Completed?
  {
    if done != [] { ResolveQueuesCompletions(pending, done[..|done| - 1]); }
  }

  // ---- How many updates -----------------------------------------------------------

  function UpdatesIn(events: seq<Event>): nat {
    if events == [] then 0
    else UpdatesIn(events[..|events| - 1]) + if events[|events| - 1].Updated? then 1 else 0
  }

  lemma {:induction false} UpdatesInConcat(a: seq<Event>, b: seq<Event>)
    ensures UpdatesIn(a + b) == UpdatesIn(a) + UpdatesIn(b)
  {
    if b == [] {
      assert a + b == a;
    } else {
      UpdatesInConcat(a, b[..|b| - 1]);
      assert (a + b)[..|a + b| - 1] == a + b[..|b| - 1];
    }
  }

  lemma {:induction false} AllUpdates(events: seq<Event>)
    requires forall e :: e in events ==> e.Updated?
    ensures UpdatesIn(events) == |events|
  {
    if events != [] { AllUpdates(events[..|events| - 1]); }
  }

  lemma {:induction false} NoUpdates(events: seq<Event>)
    requires forall e :: e in events ==> !e.Updated?
    ensures UpdatesIn(events) == 0
  {
    if events != [] { NoUpdates(events[..|events| - 1]); }
  }

  /** The updates due for the first `n` modifications: one per holder, if the query's last word is a result. */
  ghost function Due(held: set<Spec.SubscriberId>, mods: seq<StateModification>, n: nat): nat
    requires n <= |mods|
  {
    if n == 0 then 0
    else
      var id := mods[n - 1].id;
      Due(held, mods, n - 1) + if exists result :: Says(mods, id, result) then |Base.HandlesOf(held, id)| else 0
  }

  lemma ChangedByTransition(s: Spec.State, m: ServerMessage)
    requires m.Transition? && m.start == s.remoteVersion
    ensures Spec.Receive(s, m).1.changedQueries == Spec.Ids(m.modifications)
  {
    hide Spec.ApplyModifications, Spec.Flushed;
  }

  lemma UpdatesNext(subs: map<QueryId, seq<nat>>, results: map<QueryId, FunctionResult>, changed: seq<QueryId>,
                    id: QueryId)
    ensures UpdatesIn(Updates(subs, results, changed + [id]))
            == UpdatesIn(Updates(subs, results, changed))
               + UpdatesIn(if id in results && id in subs then Notifications(subs[id], results[id]) else [])
  {
    hide UpdatesIn;
    assert (changed + [id])[..|changed|] == changed;
    UpdatesInConcat(Updates(subs, results, changed),
                    if id in results && id in subs then Notifications(subs[id], results[id]) else []);
  }

  lemma IdsNext(mods: seq<StateModification>, n: nat)
    requires n < |mods|
    ensures |Spec.Ids(mods)| == |mods| && Spec.Ids(mods)[..n + 1] == Spec.Ids(mods)[..n] + [mods[n].id]
    ensures mods[n].id in Spec.Ids(mods)
  {
    assert Spec.Ids(mods)[n] == mods[n].id;
  }

  lemma {:induction false} UpdatesAreDue(c: State, held: set<Spec.SubscriberId>, m: ServerMessage, n: nat)
    requires Listed(c.subs, held) && m.Transition? && m.start == c.base.s.remoteVersion && n <= |m.modifications|
    ensures |Spec.Ids(m.modifications)| == |m.modifications|
    ensures UpdatesIn(Updates(c.subs, Spec.Receive(c.base.s, m).0.remoteResults, Spec.Ids(m.modifications)[..n]))
            == Due(held, m.modifications, n)
  {
    hide Spec.Receive, Updates, Listed, Spec.Ids, Says, UpdatesIn;
    IdsAreAsMany(m.modifications);
    var results, ids := Spec.Receive(c.base.s, m).0.remoteResults, Spec.Ids(m.modifications);
    if n == 0 {
      NothingDue(c.subs, results);
      assert ids[..0] == [];
    } else {
      UpdatesAreDue(c, held, m, n - 1);
      IdsNext(m.modifications, n - 1);
      OneIsDue(c, held, m, m.modifications[n - 1].id);
      UpdatesNext(c.subs, results, ids[..n - 1], m.modifications[n - 1].id);
    }
  }

  lemma IdsAreAsMany(mods: seq<StateModification>)
    ensures |Spec.Ids(mods)| == |mods|
  {
  }

  lemma NothingDue(subs: map<QueryId, seq<nat>>, results: map<QueryId, FunctionResult>)
    ensures UpdatesIn(Updates(subs, results, [])) == 0
  {
  }

  lemma OneIsDue(c: State, held: set<Spec.SubscriberId>, m: ServerMessage, id: QueryId)
    requires Listed(c.subs, held) && m.Transition? && m.start == c.base.s.remoteVersion
    requires id in Spec.Ids(m.modifications)
    ensures var s := Spec.Receive(c.base.s, m).0;
            UpdatesIn(if id in s.remoteResults && id in c.subs then Notifications(c.subs[id], s.remoteResults[id])
                      else [])
            == if exists result :: Says(m.modifications, id, result) then |Base.HandlesOf(held, id)| else 0
  {
    hide Says, Spec.Ids;
    var (s, r) := Spec.Receive(c.base.s, m);
    forall result
      ensures id in s.remoteResults && s.remoteResults[id] == result <==> Says(m.modifications, id, result)
    {
      ResultsAreSaid(c.base.s, m, id, result);
    }
    EntriesCounted(c.subs, held, id);
    if id in s.remoteResults {
      assert Says(m.modifications, id, s.remoteResults[id]);
      if id in c.subs {
        var events := Notifications(c.subs[id], s.remoteResults[id]);
        assert forall k :: 0 <= k < |events| ==> events[k].Updated?;
        AllUpdates(events);
      }
    }
  }

  /** A transition queues one update per modification and holder of its query, if the last word on it is a result. */
  lemma EachHolderOncePerMention(ops: seq<Op>, decode: Decoder, m: ServerMessage, fetched: Option<AuthToken>)
    requires Conforming(ops, decode) && Disciplined(ops, decode) && !Execute(ops, decode).stopping
    requires m.Transition? && MessageReason(Execute(ops, decode), m).None?
    ensures UpdatesIn(Deliver(Execute(ops, decode), m, fetched).eventQueue)
            == UpdatesIn(Execute(ops, decode).eventQueue)
               + Due(Book(ops, decode).held, m.modifications, |m.modifications|)
  {
    hide Execute, Book, Deliver, Spec.Receive, Updates, Resolve;
    TrackedAlways(ops, decode);
    var c := Execute(ops, decode);
    ReasonIs(c, m);
    var (s, r) := Spec.Receive(c.base.s, m);
    var updates, completions := Updates(c.subs, s.remoteResults, r.changedQueries), Resolve(c.pending, r.completed).1;
    ChangedByTransition(c.base.s, m);
    UpdatesAreDue(c, Book(ops, decode).held, m, |m.modifications|);
    assert Spec.Ids(m.modifications)[..|m.modifications|] == Spec.Ids(m.modifications);
    ResolveQueuesCompletions(c.pending, r.completed);
    NoUpdates(completions);
    DeliverQueues(c, m, fetched);
    UpdatesInConcat(c.eventQueue, updates);
    UpdatesInConcat(c.eventQueue + updates, completions);
  }
}
