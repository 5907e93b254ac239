/**
 * The order in which user code is called: every callback queued or run over a whole run of the client, and
 * read-your-writes as that order shows it.
 */
module ClientEvents {
  import opened Wrappers
  import opened Ordering
  import opened Sequences
  import opened Values
  import opened Protocol
  import opened Chunks
  import opened ClientSpec
  import opened ClientRuns
  import opened ClientCalls
  import Spec = BaseClientSpec
  import Runs = BaseClientRuns
  import History = BaseClientHistory

  /** Every callback run or queued, in order. */
  function Events(c: State): seq<Event> { c.fired + c.eventQueue }

  /** No update stands behind a completion. */
  ghost predicate UpdatesFirst(events: seq<Event>) {
    forall i, j :: 0 <= i < j < |events| && events[i].Completed? ==> !events[j].Updated?
  }

  ghost predicate Quiet(events: seq<Event>) { forall e :: e in events ==> !e.Updated? }

  /** `c1` has run or queued everything `c` has, and then `more`. */
  ghost predicate Extends(c: State, c1: State, more: seq<Event>) {
    Events(c1) == Events(c) + more && UpdatesFirst(more)
  }

  lemma QueuedExtends(c: State, c1: State, more: seq<Event>)
    requires c1.fired == c.fired && c1.eventQueue == c.eventQueue + more && UpdatesFirst(more)
    ensures Extends(c, c1, more)
  {
    ConcatAssociative(c.fired, c.eventQueue, more);
  }

  lemma JoinedUpdatesFirst(updates: seq<Event>, completions: seq<Event>)
    requires (forall e :: e in updates ==> e.Updated?) && (forall e :: e in completions ==> e.Completed?)
    ensures UpdatesFirst(updates + completions)
  {
    var events := updates + completions;
    assert forall i :: 0 <= i < |updates| ==> events[i] in updates;
    assert forall j :: |updates| <= j < |events| ==> events[j] in completions;
  }

  lemma QuietUpdatesFirst(events: seq<Event>)
    requires Quiet(events)
    ensures UpdatesFirst(events)
  {
    assert forall j :: 0 <= j < |events| ==> events[j] in events;
  }

  lemma {:induction false} UpdatesAreUpdates(subs: map<QueryId, seq<nat>>, results: map<QueryId, FunctionResult>,
                                             changed: seq<QueryId>)
    ensures forall e :: e in Updates(subs, results, changed) ==> e.Updated?
  {
    if changed != [] { UpdatesAreUpdates(subs, results, changed[..|changed| - 1]); }
  }

  /** A callback that is queued is told what its request was reported with. */
  lemma {:induction false} ResolveTellsReport(pending: set<RequestId>, done: seq<Spec.Completion>, e: Event)
    requires e in Resolve(pending, done).1
    ensures e.Completed? && (e.id, e.result) in done
  {
    var init, last := done[..|done| - 1], done[|done| - 1];
    assert (last.0, last.1) in done && forall d :: d in init ==> d in done;
    if e in Resolve(pending, init).1 {
      ResolveTellsReport(pending, init, e);
    } else {
      assert e == Completed(last.0, last.1);
    }
  }

  lemma DisconnectExtends(c: State, reason: string, fetched: Option<AuthToken>) returns (more: seq<Event>)
    ensures Extends(c, Disconnect(c, reason, fetched), more)
    ensures forall e :: e in more ==> e.Completed? && !e.result.Success?
  {
    var failed := Spec.Restart(c.base.s, if c.fetcher then fetched else None).1;
    more := Resolve(c.pending, failed).1;
    forall e | e in more
      ensures e.Completed? && !e.result.Success?
    {
      ResolveTellsReport(c.pending, failed, e);
    }
    QuietUpdatesFirst(more);
    QueuedExtends(c, Disconnect(c, reason, fetched), more);
  }

  /** A forced reconnect may tell auth-failure listeners first, and then fails the lost actions. */
  lemma RejectExtends(c: State, r: Spec.ReceiveResult, fetched: Option<AuthToken>) returns (more: seq<Event>)
    requires r.reconnectReason.Some?
    ensures Extends(c, Reject(c, r, fetched), more)
    ensures forall e :: e in more ==> !e.Updated? && (e.Completed? ==> !e.result.Success?)
  {
    var reason := r.reconnectReason.value;
    var c1 := if r.authError then AfterAuthError(c, reason, r.authUpdateAttempted) else c;
    var told := if c1.eventQueue == c.eventQueue then [] else [AuthFailed(reason)];
    assert c1.eventQueue == c.eventQueue + told;
    QuietUpdatesFirst(told);
    QueuedExtends(c, c1, told);
    var failed := DisconnectExtends(c1, reason, fetched);
    more := told + failed;
    ConcatAssociative(Events(c), told, failed);
    QuietUpdatesFirst(more);
  }

  /** An update is for a registered subscriber. */
  ghost predicate Registered(c: State, e: Event) {
    e.Updated? ==> exists q :: q in c.subs && e.index in c.subs[q]
  }

  lemma {:induction false} UpdatesRegistered(c: State, results: map<QueryId, FunctionResult>, changed: seq<QueryId>)
    ensures forall e :: e in Updates(c.subs, results, changed) ==> Registered(c, e)
  {
    if changed != [] {
      var id := changed[|changed| - 1];
      UpdatesRegistered(c, results, changed[..|changed| - 1]);
      if id in results && id in c.subs {
        forall e | e in Notifications(c.subs[id], results[id])
          ensures Registered(c, e)
        {
          assert e.index in c.subs[id];
        }
      }
    }
  }

  lemma AbsorbExtends(c: State, r: Spec.ReceiveResult) returns (more: seq<Event>)
    ensures Extends(c, Absorb(c, r), more)
    ensures forall e :: e in more ==> Registered(c, e)
    ensures forall e :: e in more && e.Completed? ==> (e.id, e.result) in r.completed
  {
    var updates := Updates(c.subs, c.base.s.remoteResults, r.changedQueries);
    var completions := Resolve(c.pending, r.completed).1;
    more := updates + completions;
    UpdatesAreUpdates(c.subs, c.base.s.remoteResults, r.changedQueries);
    UpdatesRegistered(c, c.base.s.remoteResults, r.changedQueries);
    forall e | e in completions
      ensures e.Completed? && (e.id, e.result) in r.completed
    {
      ResolveTellsReport(c.pending, r.completed, e);
    }
    JoinedUpdatesFirst(updates, completions);
    ConcatAssociative(c.eventQueue, updates, completions);
    QueuedExtends(c, Absorb(c, r), more);
  }

  /** A success queued by a message is one the base client reported on it. */
  lemma DeliverExtends(c: State, m: ServerMessage, fetched: Option<AuthToken>) returns (more: seq<Event>)
    ensures Extends(c, Deliver(c, m, fetched), more)
    ensures forall e :: e in more ==> Registered(c, e)
    ensures forall e :: e in more && e.Completed? && e.result.Success? ==>
              Spec.Receive(c.base.s, m).1.reconnectReason.None?
              && (e.id, e.result) in Spec.Receive(c.base.s, m).1.completed
  {
    var r := Spec.Receive(c.base.s, m).1;
    var c1 := c.(base := Runs.Step(c.base, Runs.Receiving(m)));
    assert Events(c1) == Events(c);
    if r.reconnectReason.Some? {
      more := RejectExtends(c1, r, fetched);
    } else {
      more := AbsorbExtends(c1, r);
      assert Events(DrainOutgoing(Absorb(c1, r))) == Events(Absorb(c1, r));
    }
  }

  /** The update of a new subscriber, if there is one, is queued alone. */
  lemma SubscribeExtends(c: State, path: string, args: Option<string>) returns (more: seq<Event>)
    ensures Extends(c, Subscribe(c, path, args).0, more)
    ensures forall e :: e in more ==> e.Updated? && e.index == c.base.s.nextSubscriptionIndex
  {
    more := [];
    var c1, h := Subscribe(c, path, args).0, Spec.Subscribe(c.base.s, path, args).1;
    assert c.eventQueue + [] == c.eventQueue;
    if h.Some? {
      var results := Spec.Subscribe(c.base.s, path, args).0.remoteResults;
      if h.value.query in results { more := [Updated(h.value.index, results[h.value.query])]; }
    }
    QueuedExtends(c, c1, more);
  }

  lemma FrameExtends(c: State, op: Op, decode: Decoder) returns (more: seq<Event>)
    requires op.FrameArrived? && !c.stopping && op.gen == c.connGen
    ensures Extends(c, Step(c, op, decode), more)
    ensures forall e :: e in more ==> Registered(c, e)
    ensures forall e :: e in more && e.Completed? && e.result.Success? ==>
              var m := Handled(c, op, decode);
              m.Some? && (e.id, e.result) in Spec.Receive(c.base.s, m.value).1.completed
  {
    hide UpdatesFirst, Step, Disconnect, Deliver, Feed, Spec.Receive;
    match decode(op.text)
    case Err(why) =>
      MalformedStep(c, op, decode);
      more := DisconnectExtends(c, "ProtocolError: " + why, op.fetched);
    case Ok(m) =>
      if m.TransitionChunk? {
        var (chunks, fed) := Feed(c.chunks, m, decode);
        var c1 := c.(chunks := chunks);
        ChunkStep(c, op, decode, m);
        assert Events(c1) == Events(c);
        match fed
        case Partial => more := []; NothingExtends(c, c1);
        case Rejected(why) => more := DisconnectExtends(c1, "ProtocolError: " + why, op.fetched);
        case Assembled(t) => more := DeliverExtends(c1, t, op.fetched);
      } else {
        var c1 := if m.Ping? then c else c.(chunks := IDLE);
        WholeMessageStep(c, op, decode, m);
        assert Events(c1) == Events(c);
        more := DeliverExtends(c1, m, op.fetched);
      }
  }

  lemma NothingExtends(c: State, c1: State)
    requires Events(c1) == Events(c)
    ensures Extends(c, c1, [])
  {
  }

  lemma ShutdownExtends(c: State) returns (more: seq<Event>)
    requires !c.stopping
    ensures Extends(c, Shutdown(c), more)
    ensures forall e :: e in more ==> e.Completed? && !e.result.Success?
  {
    more := Orphans(SortedIds(c.pending));
    assert Events(Shutdown(c)) == c.fired + c.eventQueue + more;
    QuietUpdatesFirst(more);
  }

  lemma ConnectEndedExtends(c: State, failure: Option<string>, fetched: Option<AuthToken>) returns (more: seq<Event>)
    ensures Extends(c, FinishConnect(c, failure, fetched), more)
    ensures forall e :: e in more ==> e.Completed? && !e.result.Success?
  {
    var c1 := c.(connecting := None);
    assert Events(c1) == Events(c);
    if c.connecting.Some? && !c.stopping && c.connecting.value == c.connGen && failure.Some? {
      more := DisconnectExtends(c1, ConnectFailed(failure.value), fetched);
    } else {
      more := [];
      NothingExtends(c, FinishConnect(c, failure, fetched));
    }
  }

  /** These call nothing back; process_events only moves what is queued. */
  lemma OthersExtend(c: State, op: Op, decode: Decoder)
    requires !c.stopping
    requires op.SocketOpened? || op.ConnectBegun? || op.Unsubscribed? || op.Requested? || op.AuthSet?
             || op.EventsProcessed?
    ensures Extends(c, Step(c, op, decode), [])
  {
    hide Extends, Runs.Step, Spec.Request, Spec.MakeConnect, RemoveSub, WsMessage, Subscribe, FinishConnect, Shutdown;
    assert Events(Step(c, op, decode)) == Events(c);
    NothingExtends(c, Step(c, op, decode));
  }

  /**
   * Each step of a running client adds its callbacks behind all earlier ones, updates first; a success
   * is only called back because a message made the base client report it.
   */
  lemma StepExtends(c: State, op: Op, decode: Decoder) returns (more: seq<Event>)
    requires !c.stopping
    ensures Extends(c, Step(c, op, decode), more)
    ensures forall e :: e in more && e.Updated? ==>
              if op.Subscribed? then e.index == c.base.s.nextSubscriptionIndex else Registered(c, e)
    ensures forall e :: e in more && e.Completed? && e.result.Success? ==>
              var m := Handled(c, op, decode);
              m.Some? && (e.id, e.result) in Spec.Receive(c.base.s, m.value).1.completed
  {
    hide Extends, Disconnect, FinishConnect, Deliver, Feed, Subscribe, Shutdown, WsOpen, Request, SetAuth, Unsubscribe,
      Runs.Step, Spec.Receive, Handled;
    match op
    case SocketClosed(gen, reason, fetched) =>
      more := [];
      if gen == c.connGen { more := DisconnectExtends(c, reason, fetched); } else { NothingExtends(c, c); }
    case FrameArrived(gen, _, _) =>
      more := [];
      if gen == c.connGen { more := FrameExtends(c, op, decode); } else { NothingExtends(c, c); }
    case ConnectEnded(failure, fetched) => more := ConnectEndedExtends(c, failure, fetched);
    case InactivityFound(fetched) =>
      more := [];
      if !c.socketOpen || c.connecting.Some? {
        NothingExtends(c, c);
      } else {
        more := DisconnectExtends(c, "InactiveServer", fetched);
      }
    case Subscribed(path, args) => more := SubscribeExtends(c, path, args);
    case ShutDown => more := ShutdownExtends(c);
    case _ =>
      more := [];
      OthersExtend(c, op, decode);
  }

  /** What can no longer be overtaken: after shutdown, what has run; before it, also what is queued. */
  function Lasting(c: State): seq<Event> { if c.stopping then c.fired else Events(c) }

  lemma StoppedLasting(c: State, op: Op, decode: Decoder)
    requires c.stopping
    ensures Step(c, op, decode).stopping && c.fired <= Step(c, op, decode).fired
  {
  }

  /** Only shutdown stops the client, and it leaves nothing queued. */
  lemma StepLasting(c: State, op: Op, decode: Decoder)
    requires !c.stopping
    ensures Lasting(Step(c, op, decode)) == Events(Step(c, op, decode))
  {
    var c1 := Step(c, op, decode);
    if op.ShutDown? {
      assert c1.eventQueue == [] && c1.fired + [] == c1.fired;
    } else {
      OnlyShutdownStops(c, op, decode);
    }
  }

  lemma RejectKeepsRunning(c: State, r: Spec.ReceiveResult, fetched: Option<AuthToken>)
    requires r.reconnectReason.Some?
    ensures Reject(c, r, fetched).stopping == c.stopping
  {
    assert AfterAuthError(c, r.reconnectReason.value, r.authUpdateAttempted).stopping == c.stopping;
  }

  lemma DeliverKeepsRunning(c: State, m: ServerMessage, fetched: Option<AuthToken>)
    ensures Deliver(c, m, fetched).stopping == c.stopping
  {
    var r := Spec.Receive(c.base.s, m).1;
    var c1 := c.(base := Runs.Step(c.base, Runs.Receiving(m)));
    if r.reconnectReason.Some? {
      RejectKeepsRunning(c1, r, fetched);
    } else {
      assert DrainOutgoing(Absorb(c1, r)).stopping == Absorb(c1, r).stopping == c.stopping;
    }
  }

  lemma FrameKeepsRunning(c: State, op: Op, decode: Decoder)
    requires op.FrameArrived? && !c.stopping && op.gen == c.connGen
    ensures !Step(c, op, decode).stopping
  {
    match decode(op.text)
    case Err(why) => MalformedStep(c, op, decode);
    case Ok(m) =>
      if m.TransitionChunk? {
        var (chunks, fed) := Feed(c.chunks, m, decode);
        ChunkStep(c, op, decode, m);
        if fed.Assembled? { DeliverKeepsRunning(c.(chunks := chunks), fed.transition, op.fetched); }
      } else {
        WholeMessageStep(c, op, decode, m);
        DeliverKeepsRunning(if m.Ping? then c else c.(chunks := IDLE), m, op.fetched);
      }
  }

  lemma OnlyShutdownStops(c: State, op: Op, decode: Decoder)
    requires !c.stopping && !op.ShutDown?
    ensures !Step(c, op, decode).stopping
  {
    hide Deliver, Feed, Runs.Step, Spec.Request, Spec.Subscribe, Spec.Restart, Spec.MakeConnect, Resolve, AddSub,
      RemoveSub;
    if op.FrameArrived? {
      if op.gen == c.connGen { FrameKeepsRunning(c, op, decode); }
    }
  }

  lemma LastingStep(c: State, op: Op, decode: Decoder, events: seq<Event>)
    requires events <= Lasting(c)
    ensures events <= Lasting(Step(c, op, decode))
  {
    if c.stopping {
      StoppedLasting(c, op, decode);
    } else {
      var more := StepExtends(c, op, decode);
      StepLasting(c, op, decode);
    }
  }

  lemma {:induction false} LastingAlways(ops: seq<Op>, decode: Decoder, k: nat)
    requires k <= |ops|
    ensures Lasting(Execute(ops[..k], decode)) <= Lasting(Execute(ops, decode))
  {
    if k == |ops| {
      assert ops[..k] == ops;
    } else {
      var init := ops[..|ops| - 1];
      assert init[..k] == ops[..k];
      LastingAlways(init, decode, k);
      LastingStep(Execute(init, decode), ops[|ops| - 1], decode, Lasting(Execute(ops[..k], decode)));
    }
  }

  /** A mutation's success is covered by the timestamp applied, or came without a timestamp to order it by. */
  ghost predicate Covered(s: Spec.State, m: ServerMessage, id: RequestId) {
    || (Runs.KnownTs(s, m, id).Some? && Runs.KnownTs(s, m, id).value <= Spec.Receive(s, m).0.remoteVersion.ts)
    || (m.MutationResponse? && m.id == id && m.ts.None?)
  }

  lemma CoveredIff(r: Runs.Run, m: ServerMessage, id: RequestId, result: FunctionResult)
    requires Reachable(r) && (id, result) in Spec.Receive(r.s, m).1.completed
    requires id in r.s.ongoing && r.s.ongoing[id].kind.MutationKind? && result.Success?
    ensures Covered(r.s, m, id) <==> !Runs.AnswersMutationAsAction(r.s, m)
  {
    var completed := Spec.Receive(r.s, m).1.completed;
    var k :| 0 <= k < |completed| && completed[k] == (id, result);
    if Runs.AnswersMutationAsAction(r.s, m) {
      var ops :| Runs.Execute(ops) == r;
      Runs.HeldAheadAlways(ops);
      assert completed[0] == (m.id, m.result);
    } else {
      Runs.GatedUnlessMismatched(r.s, m);
      assert completed[k].0 == id;
    }
  }

  lemma StepOfRun(ops: seq<Op>, decode: Decoder, k: nat)
    requires k < |ops|
    ensures Execute(ops[..k + 1], decode) == Step(Execute(ops[..k], decode), ops[k], decode)
  {
    assert ops[..k + 1][..k] == ops[..k];
  }

  /** What one step queues keeps its place for good, and no update is queued behind a completion. */
  lemma PlaceIsKept(ops: seq<Op>, decode: Decoder, k: nat, p: nat)
    requires k < |ops| && !Execute(ops[..k], decode).stopping
    requires p < |Events(Execute(ops[..k + 1], decode))|
    ensures p < |Lasting(Execute(ops, decode))|
    ensures Lasting(Execute(ops, decode))[p] == Events(Execute(ops[..k + 1], decode))[p]
  {
    StepOfRun(ops, decode, k);
    StepLasting(Execute(ops[..k], decode), ops[k], decode);
    LastingAlways(ops, decode, k + 1);
  }

  /** A success called back by a step: nothing owed before it is behind it, and a message reported it. */
  ghost predicate WellPlaced(c: State, op: Op, decode: Decoder, p: nat)
    requires p < |Events(Step(c, op, decode))| && Events(Step(c, op, decode))[p].Completed?
  {
    var events, m := Events(Step(c, op, decode)), Handled(c, op, decode);
    && (forall q :: p < q < |events| ==> !events[q].Updated?)
    && m.Some? && (events[p].id, events[p].result) in Spec.Receive(c.base.s, m.value).1.completed
  }

  lemma SuccessWellPlaced(c: State, op: Op, decode: Decoder, p: nat)
    requires !c.stopping && |Events(c)| <= p < |Events(Step(c, op, decode))|
    requires Events(Step(c, op, decode))[p].Completed? && Events(Step(c, op, decode))[p].result.Success?
    ensures WellPlaced(c, op, decode, p)
  {
    hide Step, Handled, Spec.Receive;
    var more := StepExtends(c, op, decode);
    var events, n := Events(Step(c, op, decode)), |Events(c)|;
    assert events[p] == more[p - n] && more[p - n] in more;
    assert forall q :: p < q < |events| ==> events[q] == more[q - n];
  }

  lemma ReportedWasInFlight(s: Spec.State, m: ServerMessage, id: RequestId, result: FunctionResult)
    requires (id, result) in Spec.Receive(s, m).1.completed
    ensures id in s.ongoing
  {
    var completed := Spec.Receive(s, m).1.completed;
    var k :| 0 <= k < |completed| && completed[k] == (id, result);
    Runs.ReceiveDrains(s, m);
    assert Runs.CompletedIds(completed)[k] == id;
  }

  /**
   * Over a whole run: let a callback telling success stand at place `p` among those run and queued, put there by
   * operation `k`. It keeps that place for good, a message put it there, every update queued up to then (by
   * that message or any before it) stands before it, and if its request is a mutation then its commit
   * timestamp is covered by the results applied, if and only if the message is no ActionResponse to it.
   */
  lemma EffectsBeforeCompletion(ops: seq<Op>, decode: Decoder, k: nat, p: nat)
    requires Conforming(ops, decode) && k < |ops| && !Execute(ops[..k], decode).stopping
    requires var before, after := Execute(ops[..k], decode), Execute(ops[..k + 1], decode);
             |Events(before)| <= p < |Events(after)| && Events(after)[p].Completed? && Events(after)[p].result.Success?
    ensures var before, after := Execute(ops[..k], decode), Execute(ops[..k + 1], decode);
            var (id, m) := (Events(after)[p].id, Handled(before, ops[k], decode));
            && p < |Lasting(Execute(ops, decode))| && Lasting(Execute(ops, decode))[p] == Events(after)[p]
            && (forall q :: p < q < |Events(after)| ==> !Events(after)[q].Updated?)
            && m.Some? && id in before.base.s.ongoing
            && (before.base.s.ongoing[id].kind.MutationKind? ==>
                  (Covered(before.base.s, m.value, id) <==> !Runs.AnswersMutationAsAction(before.base.s, m.value)))
  {
    var before := Execute(ops[..k], decode);
    StepOfRun(ops, decode, k);
    PlaceIsKept(ops, decode, k, p);
    SuccessWellPlaced(before, ops[k], decode, p);
    ConformingPrefix(ops, decode, k);
    SettledAlways(ops[..k], decode);
    var e, m := Events(Execute(ops[..k + 1], decode))[p], Handled(before, ops[k], decode).value;
    ReportedWasInFlight(before.base.s, m, e.id, e.result);
    if before.base.s.ongoing[e.id].kind.MutationKind? {
      CoveredIff(before.base, m, e.id, e.result);
    }
  }

  lemma ConformingPrefix(ops: seq<Op>, decode: Decoder, k: nat)
    requires Conforming(ops, decode) && k <= |ops|
    ensures Conforming(ops[..k], decode)
  {
    assert forall i :: 0 <= i < k ==> ops[..k][..i] == ops[..i];
  }

  // ---- The first call of a new subscriber -------------------------------------------

  /** No one has been called, or is registered, under an index not handed out yet. */
  ghost predicate IndexesUsed(c: State) {
    && (forall e :: e in Events(c) && e.Updated? ==> e.index < c.base.s.nextSubscriptionIndex)
    && (forall q, i :: q in c.subs && i in c.subs[q] ==> i < c.base.s.nextSubscriptionIndex)
  }

  lemma {:induction false} WithoutShrinks(indexes: seq<nat>, index: nat)
    ensures forall i :: i in Without(indexes, index) ==> i in indexes
  {
    if indexes != [] { WithoutShrinks(indexes[..|indexes| - 1], index); }
  }

  lemma CallIndexes(r: Runs.Run, op: Runs.Op)
    ensures Runs.Step(r, op).s.nextSubscriptionIndex >= r.s.nextSubscriptionIndex
  {
    hide Spec.Receive, Canonicalize, Spec.Token;
    if op.Receiving? { Runs.ReceiveFrame(r.s, op.message); }
  }

  lemma {:induction false} CallsIndexes(r: Runs.Run, calls: seq<Runs.Op>)
    ensures RunFrom(r, calls).s.nextSubscriptionIndex >= r.s.nextSubscriptionIndex
  {
    hide Runs.Step;
    if calls != [] {
      var init, op := calls[..|calls| - 1], calls[|calls| - 1];
      CallsIndexes(r, init);
      CallIndexes(RunFrom(r, init), op);
    }
  }

  lemma DisconnectKeepsSubs(c: State, reason: string, fetched: Option<AuthToken>)
    ensures Disconnect(c, reason, fetched).subs == c.subs
  {
    hide Runs.Step, Spec.Restart, Resolve;
  }

  lemma DeliverKeepsSubs(c: State, m: ServerMessage, fetched: Option<AuthToken>)
    ensures Deliver(c, m, fetched).subs == c.subs
  {
    hide Runs.Step, Spec.Receive, Disconnect, Resolve, Updates;
    var r := Spec.Receive(c.base.s, m).1;
    if r.reconnectReason.Some? {
      var c1 := c.(base := Runs.Step(c.base, Runs.Receiving(m)));
      var c2 := if r.authError then AfterAuthError(c1, r.reconnectReason.value, r.authUpdateAttempted) else c1;
      DisconnectKeepsSubs(c2, r.reconnectReason.value, fetched);
    }
  }

  lemma FrameKeepsSubs(c: State, op: Op, decode: Decoder)
    requires op.FrameArrived? && !c.stopping && op.gen == c.connGen
    ensures Step(c, op, decode).subs == c.subs
  {
    hide Step, Deliver, Disconnect, Feed;
    match decode(op.text)
    case Err(why) =>
      MalformedStep(c, op, decode);
      DisconnectKeepsSubs(c, "ProtocolError: " + why, op.fetched);
    case Ok(m) =>
      if m.TransitionChunk? {
        var (chunks, fed) := Feed(c.chunks, m, decode);
        ChunkStep(c, op, decode, m);
        match fed
        case Partial =>
        case Rejected(why) => DisconnectKeepsSubs(c.(chunks := chunks), "ProtocolError: " + why, op.fetched);
        case Assembled(t) => DeliverKeepsSubs(c.(chunks := chunks), t, op.fetched);
      } else {
        WholeMessageStep(c, op, decode, m);
        DeliverKeepsSubs(if m.Ping? then c else c.(chunks := IDLE), m, op.fetched);
      }
  }

  lemma LifecycleKeepsSubs(c: State, op: Op, decode: Decoder)
    requires op.SocketOpened? || op.SocketClosed? || op.ConnectBegun? || op.ConnectEnded? || op.InactivityFound?
    ensures Step(c, op, decode).subs == c.subs
  {
    hide Disconnect, Runs.Step, Spec.MakeConnect, WsMessage;
    match op
    case SocketClosed(_, reason, fetched) => DisconnectKeepsSubs(c, reason, fetched);
    case ConnectEnded(Some(what), fetched) =>
      DisconnectKeepsSubs(c.(connecting := None), ConnectFailed(what), fetched);
    case InactivityFound(fetched) => DisconnectKeepsSubs(c, "InactiveServer", fetched);
    case _ =>
  }

  /** `subs1` holds no index that `subs` does not, except perhaps those in `more`. */
  ghost predicate NoneButNew(subs: map<QueryId, seq<nat>>, subs1: map<QueryId, seq<nat>>, more: set<nat>) {
    forall q, i :: q in subs1 && i in subs1[q] ==> (q in subs && i in subs[q]) || i in more
  }

  lemma RemovedIndex(subs: map<QueryId, seq<nat>>, h: Spec.SubscriberId)
    ensures NoneButNew(subs, RemoveSub(subs, h), {})
  {
    if h.query in subs { WithoutShrinks(subs[h.query], h.index); }
  }

  lemma SubscribedSubs(c: State, path: string, args: Option<string>)
    ensures NoneButNew(c.subs, Subscribe(c, path, args).0.subs,
                       if args.None? then {} else {c.base.s.nextSubscriptionIndex})
  {
    hide Runs.Step, Canonicalize;
  }

  lemma StepSubs(c: State, op: Op, decode: Decoder)
    requires !c.stopping
    ensures NoneButNew(c.subs, Step(c, op, decode).subs,
                       if op.Subscribed? && op.args.Some? then {c.base.s.nextSubscriptionIndex} else {})
  {
    hide Runs.Step, WsMessage, Subscribe, RemoveSub, WsOpen, WsClose, BeginConnect, FinishConnect, Inactive, Orphans;
    match op
    case FrameArrived(gen, _, _) =>
      if gen == c.connGen { FrameKeepsSubs(c, op, decode); } else { StaleStep(c, op, decode); }
    case Unsubscribed(h) => RemovedIndex(c.subs, h);
    case Subscribed(path, args) => SubscribedSubs(c, path, args);
    case Requested(_, _, _) =>
    case AuthSet(_, _) =>
    case EventsProcessed =>
    case ShutDown =>
    case _ => LifecycleKeepsSubs(c, op, decode);
  }

  lemma StaleStep(c: State, op: Op, decode: Decoder)
    requires op.FrameArrived? && op.gen != c.connGen
    ensures Step(c, op, decode) == c
  {
    hide Deliver, Disconnect, Feed;
  }

  lemma SubscribedIndexes(c: State, path: string, args: string)
    ensures var (s, s1) := (c.base.s, Subscribe(c, path, Some(args)).0.base.s);
            s1.nextSubscriptionIndex == s.nextSubscriptionIndex + 1
  {
    hide AddSub;
  }

  lemma IndexesUsedStep(c: State, op: Op, decode: Decoder)
    requires IndexesUsed(c) && !c.stopping
    ensures IndexesUsed(Step(c, op, decode))
  {
    hide Step, Extends, Calls, RunFrom, Canonicalize;
    var c1 := Step(c, op, decode);
    var more := StepExtends(c, op, decode);
    ExtendsMeans(c, c1, more);
    StepCalls(c, op, decode);
    CallsIndexes(c.base, Calls(c, op, decode));
    StepSubs(c, op, decode);
    if op.Subscribed? {
      if op.args.Some? { SubscribedStep(c, op, decode); } else { RefusedArguments(c, op, decode, more); }
    }
    var next := c1.base.s.nextSubscriptionIndex;
    forall e | e in more && e.Updated?
      ensures e.index < next
    {
      if !op.Subscribed? { assert Registered(c, e); }
    }
    forall q, i | q in c1.subs && i in c1.subs[q]
      ensures i < next
    {
      var handed := if op.Subscribed? && op.args.Some? then {c.base.s.nextSubscriptionIndex} else {};
      assert (q in c.subs && i in c.subs[q]) || i in handed;
    }
  }

  lemma ExtendsMeans(c: State, c1: State, more: seq<Event>)
    requires Extends(c, c1, more)
    ensures Events(c1) == Events(c) + more
  {
  }

  /** Arguments that cannot be serialized leave no trace. */
  lemma RefusedArguments(c: State, op: Op, decode: Decoder, more: seq<Event>)
    requires op.Subscribed? && op.args.None? && Extends(c, Step(c, op, decode), more)
    ensures more == []
  {
    assert |Events(c) + more| == |Events(c)|;
  }

  lemma SubscribedStep(c: State, op: Op, decode: Decoder)
    requires op.Subscribed? && op.args.Some?
    ensures Step(c, op, decode).base.s.nextSubscriptionIndex == c.base.s.nextSubscriptionIndex + 1
  {
    SubscribedIndexes(c, op.path, op.args.value);
  }

  lemma {:induction false} IndexesUsedAlways(ops: seq<Op>, decode: Decoder)
    ensures !Execute(ops, decode).stopping ==> IndexesUsed(Execute(ops, decode))
  {
    hide Step, IndexesUsed;
    if ops == [] {
      NothingUsed();
    } else {
      var init := ops[..|ops| - 1];
      IndexesUsedAlways(init, decode);
      if Execute(init, decode).stopping {
        StoppedLasting(Execute(init, decode), ops[|ops| - 1], decode);
      } else {
        IndexesUsedStep(Execute(init, decode), ops[|ops| - 1], decode);
      }
    }
  }

  lemma NothingUsed()
    ensures IndexesUsed(INITIAL)
  {
  }

  /** The query a subscription to `path` with argument text `args` is for. */
  function QueryFor(s: Spec.State, path: string, args: string): QueryId {
    var token := Canonicalize(path) + "|" + args;
    if token in s.querySet then s.querySet[token].id else s.nextQueryId
  }

  /**
   * A new subscriber is registered under an index never used before, and its first call, queued at once behind all
   * others, is the result already known of its query, if there is one.
   */
  lemma SubscriberIsToldWhatIsKnown(ops: seq<Op>, decode: Decoder, path: string, args: string)
    requires !Execute(ops, decode).stopping
    ensures var c, c1 := Execute(ops, decode), Step(Execute(ops, decode), Subscribed(path, Some(args)), decode);
            var (id, index) := (QueryFor(c.base.s, path, args), c.base.s.nextSubscriptionIndex);
            && c1.eventQueue == c.eventQueue + (if id in c.base.s.remoteResults
                                                then [Updated(index, c.base.s.remoteResults[id])] else [])
            && id in c1.subs && index in c1.subs[id]
            && (forall e :: e in Events(c) && e.Updated? ==> e.index != index)
            && (forall q :: q in c.subs ==> index !in c.subs[q])
  {
    hide Execute, Runs.Step;
    IndexesUsedAlways(ops, decode);
    var c := Execute(ops, decode);
    SubscribeHandle(c.base, path, args);
    var h := Spec.Subscribe(c.base.s, path, Some(args)).1.value;
    assert AddSub(c.subs, h)[h.query][|AddSub(c.subs, h)[h.query]| - 1] == h.index;
  }

  lemma SubscribeHandle(r: Runs.Run, path: string, args: string)
    ensures var (s, h) := Spec.Subscribe(r.s, path, Some(args));
            && h == Some(Spec.SubscriberId(QueryFor(r.s, path, args), r.s.nextSubscriptionIndex))
            && Runs.Step(r, Runs.Subscribing(path, Some(args))).s == s && s.remoteResults == r.s.remoteResults
  {
    hide Canonicalize;
  }

  // ---- Refusals, and running the queue --------------------------------------------------

  /** After shutdown a request is refused on the spot and does nothing else; before it, none is. */
  lemma RefusedIffStopped(c: State, kind: Spec.RequestKind, path: string, args: Option<string>, decode: Decoder)
    ensures var c1 := Step(c, Requested(kind, path, args), decode);
            if c.stopping then c1 == c.(fired := c.fired + [Refused]) else Events(c1) == Events(c)
  {
    hide Runs.Step;
  }

  /** Processing events runs the whole queue, in order, and nothing else. */
  lemma ProcessingRunsTheQueue(c: State, decode: Decoder)
    ensures Step(c, EventsProcessed, decode) == c.(fired := Events(c), eventQueue := [])
  {
  }

  /**
   * A rejected token is told to the auth-failure listeners, before anything else it leads to, exactly if it is
   * terminal; what follows are the callbacks of requests, none of them a success.
   */
  lemma ListenersToldIffTerminal(c: State, m: ServerMessage, fetched: Option<AuthToken>) returns (rest: seq<Event>)
    requires m.AuthError?
    ensures Deliver(c, m, fetched).eventQueue
            == c.eventQueue + (if IsTerminal(c, m) then [AuthFailed("AuthError: " + m.error)] else []) + rest
    ensures forall e :: e in rest ==> e.Completed? && !e.result.Success?
  {
    hide Disconnect, DrainOutgoing, Absorb, Runs.Step, Spec.Receive;
    ReasonIs(c, m);
    var reason := "AuthError: " + m.error;
    var c0 := c.(base := Runs.Step(c.base, Runs.Receiving(m)));
    var c1 := AfterAuthError(c0, reason, m.updateAttempted);
    rest := DisconnectQueues(c1, reason, fetched);
    assert c.eventQueue + [] == c.eventQueue;
  }

  lemma DisconnectQueues(c: State, reason: string, fetched: Option<AuthToken>) returns (more: seq<Event>)
    ensures Disconnect(c, reason, fetched).eventQueue == c.eventQueue + more
    ensures forall e :: e in more ==> e.Completed? && !e.result.Success?
  {
    var failed := Spec.Restart(c.base.s, if c.fetcher then fetched else None).1;
    more := Resolve(c.pending, failed).1;
    forall e | e in more
      ensures e.Completed? && !e.result.Success?
    {
      ResolveTellsReport(c.pending, failed, e);
    }
  }

  /** No other message tells them anything. */
  lemma OthersTellNoListener(c: State, m: ServerMessage, fetched: Option<AuthToken>, e: Event)
    requires !m.AuthError? && e in Deliver(c, m, fetched).eventQueue && e.AuthFailed?
    ensures e in c.eventQueue
  {
    hide Disconnect, Runs.Step, Spec.Receive, Resolve, Updates;
    var r := Spec.Receive(c.base.s, m).1;
    History.ReconnectsIff(c.base.s, m);
    var c0 := c.(base := Runs.Step(c.base, Runs.Receiving(m)));
    if r.reconnectReason.Some? {
      var more := DisconnectQueues(c0, r.reconnectReason.value, fetched);
    } else {
      UpdatesAreUpdates(c.subs, c0.base.s.remoteResults, r.changedQueries);
      CompletionsOnly(c.pending, r.completed);
    }
  }

  lemma CompletionsOnly(pending: set<RequestId>, done: seq<Spec.Completion>)
    ensures forall e :: e in Resolve(pending, done).1 ==> e.Completed?
  {
    forall e | e in Resolve(pending, done).1
      ensures e.Completed?
    {
      ResolveTellsReport(pending, done, e);
    }
  }
}
