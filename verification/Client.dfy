/** client_impl (src/client.cpp), one method per lock-held section, proved against ClientSpec. */
module Client {
  import opened Wrappers
  import opened Ordering
  import opened Sequences
  import opened Values
  import opened Protocol
  import opened Chunks
  import opened ClientSpec
  import Spec = ClientSpec
  import BaseSpec = BaseClientSpec
  import Runs = BaseClientRuns
  import BaseClient
  import ClientChunks
  import ClientRuns

  // ---- Loop steps -------------------------------------------------------------

  lemma SentOneMore(wire: map<nat, seq<ClientMessage>>, gen: nat, queue: seq<ClientMessage>, n: nat)
    requires n < |queue|
    ensures queue[..n + 1] == queue[..n] + [queue[n]]
    ensures Send(Send(wire, gen, queue[..n]), gen, [queue[n]]) == Send(wire, gen, queue[..n + 1])
  {
    assert queue[..n + 1] == queue[..n] + [queue[n]];
    assert (Frames(wire, gen) + queue[..n]) + [queue[n]] == Frames(wire, gen) + queue[..n + 1];
  }

  lemma ResolveOneMore(pending: set<RequestId>, done: seq<BaseSpec.Completion>, i: nat)
    requires i < |done|
    ensures var (left, events) := Resolve(pending, done[..i]);
            Resolve(pending, done[..i + 1])
            == if done[i].0 in left then (left - {done[i].0}, events + [Completed(done[i].0, done[i].1)])
               else (left, events)
  {
    assert done[..i + 1][..i] == done[..i];
  }

  lemma UpdatesOneMore(subs: map<QueryId, seq<nat>>, results: map<QueryId, FunctionResult>, changed: seq<QueryId>,
                       i: nat)
    requires i < |changed|
    ensures var id := changed[i];
            Updates(subs, results, changed[..i + 1])
            == Updates(subs, results, changed[..i])
               + if id in results && id in subs then Notifications(subs[id], results[id]) else []
  {
    assert changed[..i + 1][..i] == changed[..i];
  }

  lemma WithoutOneMore(indexes: seq<nat>, index: nat, i: nat)
    requires i < |indexes|
    ensures Without(indexes[..i + 1], index)
            == if indexes[i] == index then Without(indexes[..i], index) else Without(indexes[..i], index) + [indexes[i]]
  {
    assert indexes[..i + 1][..i] == indexes[..i];
  }

  lemma NextOrphan(todo: set<RequestId>, id: RequestId, out: seq<Event>)
    requires id in todo && forall j :: j in todo ==> id <= j
    ensures out + Orphans(SortedIds(todo))
            == (out + [Completed(id, SHUT_DOWN)]) + Orphans(SortedIds(todo - {id}))
  {
    SortedIdsCons(todo, id);
    assert Orphans(SortedIds(todo)) == [Completed(id, SHUT_DOWN)] + Orphans(SortedIds(todo - {id}));
  }

  function Abandoned(c: State, reason: string): State {
    c.(chunks := IDLE, conn := None, connGen := c.connGen + 1, socketOpen := false, pendingOpen := false,
       lastCloseReason := reason, retries := c.retries + 1, reconnectScheduled := true)
  }

  /** Delivering after the drain or before it is the same. */
  lemma DeliverCommutes(c: State, out: seq<Event>)
    ensures ClientSpec.DrainOutgoing(c).(eventQueue := ClientSpec.DrainOutgoing(c).eventQueue + out)
            == ClientSpec.DrainOutgoing(c.(eventQueue := c.eventQueue + out))
  {
  }

  class ClientImpl {
    const base: BaseClient.BaseClient
    const assembler: Assembler
    var conn: Option<nat>
    var connGen: nat
    var socketOpen: bool
    var pendingOpen: bool
    var lastCloseReason: string
    var fetcher: bool
    var retries: nat
    var stopping: bool
    var subs: map<QueryId, seq<nat>>
    var pending: set<RequestId>
    var consecutiveAuthErrors: nat
    var reconnectScheduled: bool
    var connecting: Option<nat>
    var eventQueue: seq<Event>
    ghost var run: Runs.Run                          // histories of the base client
    ghost var wire: map<nat, seq<ClientMessage>>     // frames handed to each connection
    ghost var fired: seq<Event>                      // callbacks run

    /** The base client with its histories. */
    ghost function BaseRun(): Runs.Run
      reads this, base
    {
      run.(s := base.Model())
    }

    ghost function Model(): State
      reads this, base, assembler
    {
      State(BaseRun(), assembler.Model(), conn, connGen, socketOpen, pendingOpen, lastCloseReason, fetcher,
            retries, stopping, subs, pending, consecutiveAuthErrors, reconnectScheduled, connecting, eventQueue, wire,
            fired)
    }

    /** The state once the callbacks collected in `out` have been delivered. */
    ghost function After(out: seq<Event>): State
      reads this, base, assembler
    {
      Model().(eventQueue := eventQueue + out)
    }

    /** What calls into the base client and the assembler rely on; every run keeps it (lemma AlwaysReady). */
    ghost predicate Valid()
      reads this, base, assembler
    {
      Ready(Model())
    }

    constructor ()
      ensures Model() == INITIAL && Valid() && fresh(base) && fresh(assembler)
    {
      base := new BaseClient.BaseClient();
      assembler := new Assembler();
      conn, connGen, socketOpen, pendingOpen, lastCloseReason := None, 0, false, false, "InitialConnect";
      fetcher, retries, stopping, subs, pending := false, 0, false, map[], {};
      consecutiveAuthErrors, reconnectScheduled, connecting, eventQueue := 0, true, None, [];
      run, wire, fired := Runs.START, map[], [];
    }

    /** deliver(), in the default pumped mode. */
    method Deliver(out: seq<Event>)
      modifies this`eventQueue
      ensures eventQueue == old(eventQueue) + out
    {
      eventQueue := eventQueue + out;
    }

    /** Moves the callbacks of finished requests from `pending` to the events to deliver. */
    method ResolveRequests(done: seq<BaseSpec.Completion>, out: seq<Event>) returns (events: seq<Event>)
      modifies this`pending
      ensures pending == Resolve(old(pending), done).0
      ensures events == out + Resolve(old(pending), done).1
    {
      events := out;
      for i := 0 to |done|
        invariant pending == Resolve(old(pending), done[..i]).0
        invariant events == out + Resolve(old(pending), done[..i]).1
      {
        ResolveOneMore(old(pending), done, i);
        var (id, result) := done[i];
        if id in pending {
          events := events + [Completed(id, result)];
          pending := pending - {id};
        }
      }
      assert done[..|done|] == done;
    }

    method DrainOutgoing()
      modifies this`run, this`wire, base`outgoing
      ensures Model() == Spec.DrainOutgoing(old(Model()))
    {
      if !socketOpen || conn.None? { return; }
      SendQueue();
    }

    /** Pops and sends until nothing is queued. */
    method SendQueue()
      requires conn.Some?
      modifies this`run, this`wire, base`outgoing
      ensures BaseRun() == Emptied(old(BaseRun()))
      ensures wire == Send(old(wire), conn.value, old(base.outgoing))
    {
      ghost var queue, n, before, s := base.outgoing, 0, run, base.Model();
      wire := Send(wire, conn.value, []);
      assert queue[..0] == [] && before.sent + [] == before.sent && before.everSent + [] == before.everSent;
      var m := base.PopNextMessage();
      while m.Some?
        invariant n <= |queue|
        invariant if m.Some? then n < |queue| && m.value == queue[n] && base.outgoing == queue[n + 1..]
                  else n == |queue| && base.outgoing == []
        invariant base.Model() == s.(outgoing := base.outgoing)
        invariant run == before.(sent := before.sent + queue[..n], everSent := before.everSent + queue[..n])
        invariant wire == Send(old(wire), conn.value, queue[..n])
        decreases |queue| - n
      {
        SentOneMore(old(wire), conn.value, queue, n);
        wire := Send(wire, conn.value, [m.value]);
        run := run.(sent := before.sent + queue[..n + 1], everSent := before.everSent + queue[..n + 1]);
        n := n + 1;
        m := base.PopNextMessage();
      }
      assert queue[..|queue|] == queue;
    }

    method RestartBase(fetched: Option<AuthToken>) returns (failed: seq<BaseSpec.Completion>)
      modifies this`run, base
      ensures var refreshed := if fetcher then fetched else None;
              && BaseRun() == Runs.Step(old(BaseRun()), Runs.Restarting(refreshed))
              && failed == BaseSpec.Restart(old(base.Model()), refreshed).1
    {
      ghost var before := BaseRun();
      var refreshed := if fetcher then fetched else None;
      failed := base.Restart(refreshed);
      run := Runs.Step(before, Runs.Restarting(refreshed));
    }

    /** Lets go of the connection; late callbacks of its generation become no-ops. */
    method AbandonConnection(reason: string)
      modifies this`connGen, this`conn, this`socketOpen, this`pendingOpen, this`lastCloseReason,
               this`reconnectScheduled, this`retries, assembler
      ensures connGen == old(connGen) + 1 && conn.None? && !socketOpen && !pendingOpen && lastCloseReason == reason
      ensures reconnectScheduled && retries == old(retries) + 1 && assembler.Model() == IDLE
    {
      connGen := connGen + 1;
      assembler.Abandon();
      conn, socketOpen, pendingOpen := None, false, false;
      lastCloseReason := reason;
      reconnectScheduled := true;
      retries := retries + 1;
    }

    /** Tears the connection down, rebuilds the protocol state and schedules the next attempt. */
    method BeginDisconnect(out: seq<Event>, reason: string, fetched: Option<AuthToken>) returns (events: seq<Event>)
      modifies this, base, assembler
      ensures After(events) == Spec.Disconnect(old(After(out)), reason, fetched) && fired == old(fired)
    {
      hide Resolve, BaseSpec.Restart;
      AbandonConnection(reason);
      assert Model() == Abandoned(old(Model()), reason);
      var failed := RestartBase(fetched);
      events := ResolveRequests(failed, out);
      ConcatAssociative(eventQueue, out, Resolve(old(pending), failed).1);
    }

    /** begin_disconnect on its own, its callbacks delivered. */
    method Drop(reason: string, fetched: Option<AuthToken>)
      modifies this, base, assembler
      ensures Model() == Spec.Disconnect(old(Model()), reason, fetched)
    {
      assert After([]) == Model();
      var out := BeginDisconnect([], reason, fetched);
      Deliver(out);
    }

    /** The socket is open: Connect, then everything queued. */
    method HandleOpen()
      requires conn.Some?
      modifies this`run, this`wire, base
      ensures Model() == Spec.HandleOpen(old(Model()))
    {
      var connect := base.MakeConnectMessage(lastCloseReason);
      wire := Send(wire, conn.value, [connect]);
      DrainOutgoing();
    }

    method WsOpen(gen: nat)
      modifies this, base
      ensures Model() == Spec.WsOpen(old(Model()), gen)
    {
      if stopping || gen != connGen { return; }
      socketOpen := true;
      if conn.None? {
        pendingOpen := true;
        return;
      }
      HandleOpen();
    }

    method WsClose(gen: nat, reason: string, fetched: Option<AuthToken>)
      modifies this, base, assembler
      ensures Model() == Spec.WsClose(old(Model()), gen, reason, fetched)
    {
      if stopping || gen != connGen { return; }
      Drop(reason, fetched);
    }

    /** The first locked half of attempt_connect: a new generation, before connect() is called. */
    method BeginConnect() returns (gen: Option<nat>)
      modifies this
      ensures Model() == Spec.BeginConnect(old(Model()))
      ensures gen == if Model() == old(Model()) then None else Some(connGen)
    {
      if stopping || !reconnectScheduled || connecting.Some? { return None; }
      reconnectScheduled := false;
      connGen := connGen + 1;
      connecting := Some(connGen);
      gen := connecting;
    }

    /** The second locked half: connect() has returned, or failed. */
    method FinishConnect(failure: Option<string>, fetched: Option<AuthToken>)
      modifies this, base, assembler
      ensures Model() == Spec.FinishConnect(old(Model()), failure, fetched)
    {
      if connecting.None? { return; }
      var gen := connecting.value;
      connecting := None;
      if stopping || gen != connGen { return; }
      if failure.Some? {
        Drop(ConnectFailed(failure.value), fetched);
        return;
      }
      Adopt(gen);
    }

    /** The new connection is taken over, and opened if its on_open came before connect() returned. */
    method Adopt(gen: nat)
      modifies this, base
      ensures var c := old(Model()).(conn := Some(gen));
              Model() == if c.pendingOpen then Spec.HandleOpen(c.(pendingOpen := false, socketOpen := true)) else c
    {
      conn := Some(gen);
      if pendingOpen {
        pendingOpen, socketOpen := false, true;
        assert Model() == old(Model()).(conn := Some(gen), pendingOpen := false, socketOpen := true);
        HandleOpen();
      }
    }

    method CheckInactivity(fetched: Option<AuthToken>)
      modifies this, base, assembler
      ensures Model() == Spec.Inactive(old(Model()), fetched)
    {
      if stopping || !socketOpen || connecting.Some? { return; }
      Drop("InactiveServer", fetched);
    }

    // ---- Server messages ------------------------------------------------------

    method DropIdentity()
      modifies base
      ensures BaseRun() == Runs.Step(old(BaseRun()), Runs.SettingAuth(NoToken))
    {
      base.SetAuth(NoToken);
    }

    /** A rejected token: tolerated once if it can be refreshed, otherwise dropped for good. */
    method HandleAuthError(reason: string, attempted: bool) returns (out: seq<Event>)
      modifies this`consecutiveAuthErrors, this`fetcher, base
      ensures After(out) == Spec.AfterAuthError(old(Model()), reason, attempted)
    {
      hide Runs.Step;
      out := [];
      assert eventQueue + [] == eventQueue;
      consecutiveAuthErrors := consecutiveAuthErrors + 1;
      if attempted || !fetcher || consecutiveAuthErrors >= 2 {
        DropIdentity();
        fetcher, consecutiveAuthErrors := false, 0;
        out := [AuthFailed(reason)];
      }
    }

    /** One callback per subscriber of each changed query that still has a result. */
    method NotifySubscribers(changed: seq<QueryId>) returns (out: seq<Event>)
      ensures out == Updates(subs, base.remoteResults, changed)
    {
      out := [];
      for i := 0 to |changed|
        invariant out == Updates(subs, base.remoteResults, changed[..i])
      {
        UpdatesOneMore(subs, base.remoteResults, changed, i);
        var id := changed[i];
        if id in base.remoteResults && id in subs {
          ghost var before := out;
          var indexes, result := subs[id], base.remoteResults[id];
          for j := 0 to |indexes|
            invariant out == before + Notifications(indexes[..j], result)
          {
            assert Notifications(indexes[..j + 1], result)
                   == Notifications(indexes[..j], result) + [Updated(indexes[j], result)];
            out := out + [Updated(indexes[j], result)];
          }
          assert indexes[..|indexes|] == indexes;
        }
      }
      assert changed[..|changed|] == changed;
    }

    method ReceiveBase(m: ServerMessage) returns (r: BaseSpec.ReceiveResult)
      requires base.Valid()
      modifies this`run, base
      ensures BaseRun() == Runs.Step(old(BaseRun()), Runs.Receiving(m))
      ensures r == BaseSpec.Receive(old(base.Model()), m).1
    {
      ghost var before := BaseRun();
      r := base.ReceiveMessage(m);
      run := Runs.Step(before, Runs.Receiving(m));
    }

    method Reject(r: BaseSpec.ReceiveResult, fetched: Option<AuthToken>)
      requires r.reconnectReason.Some?
      modifies this, base, assembler
      ensures Model() == Spec.Reject(old(Model()), r, fetched)
    {
      if r.authError {
        var out := HandleAuthError(r.reconnectReason.value, r.authUpdateAttempted);
        out := BeginDisconnect(out, r.reconnectReason.value, fetched);
        Deliver(out);
      } else {
        Drop(r.reconnectReason.value, fetched);
      }
    }

    /** Once synced past the last restart, backoff starts over. */
    method NoteHealth(healthy: bool)
      modifies this`retries, this`consecutiveAuthErrors
      ensures retries == (if healthy then 0 else old(retries))
      ensures consecutiveAuthErrors == (if healthy then 0 else old(consecutiveAuthErrors))
    {
      if healthy { retries, consecutiveAuthErrors := 0, 0; }
    }

    /** Delivers the callbacks a message gives rise to: updates first, then completions. */
    method DeliverCallbacks(r: BaseSpec.ReceiveResult)
      modifies this`pending, this`eventQueue
      ensures pending == Resolve(old(pending), r.completed).0
      ensures eventQueue == old(eventQueue) + Updates(subs, base.remoteResults, r.changedQueries)
                            + Resolve(old(pending), r.completed).1
    {
      var out := NotifySubscribers(r.changedQueries);
      var events := ResolveRequests(r.completed, out);
      ConcatAssociative(eventQueue, out, Resolve(old(pending), r.completed).1);
      Deliver(events);
    }

    method Absorb(r: BaseSpec.ReceiveResult)
      modifies this`pending, this`eventQueue, this`retries, this`consecutiveAuthErrors
      ensures Model() == Spec.Absorb(old(Model()), r)
    {
      DeliverCallbacks(r);
      NoteHealth(r.stateChanged && base.outstanding == {});
    }

    /** The part of ws_message that hands a whole message to the base client. */
    method Dispatch(m: ServerMessage, fetched: Option<AuthToken>)
      requires Valid()
      modifies this, base, assembler
      ensures Model() == Spec.Deliver(old(Model()), m, fetched)
    {
      hide Spec.Reject, Spec.Absorb, Spec.DrainOutgoing, BaseSpec.Receive, BaseSpec.TokensLive, ChunksReady;
      var r := ReceiveBase(m);
      if r.reconnectReason.Some? {
        Reject(r, fetched);
      } else {
        Absorb(r);
        DrainOutgoing();
      }
    }

    method WsMessage(gen: nat, text: string, fetched: Option<AuthToken>, decode: Decoder)
      requires Valid()
      modifies this, base, assembler
      ensures Model() == Spec.WsMessage(old(Model()), gen, text, fetched, decode)
    {
      if stopping || gen != connGen { return; }
      match decode(text)
      case Err(why) =>
        Drop("ProtocolError: " + why, fetched);
      case Ok(m) =>
        if m.TransitionChunk? {
          HandleChunk(m, fetched, decode);
        } else {
          if !m.Ping? { assembler.Abandon(); }
          Dispatch(m, fetched);
        }
    }

    method HandleChunk(m: ServerMessage, fetched: Option<AuthToken>, decode: Decoder)
      requires Valid() && m.TransitionChunk?
      modifies this, base, assembler
      ensures var c := old(Model());
              var (chunks, fed) := Feed(c.chunks, m, decode);
              var c1 := c.(chunks := chunks);
              Model() == match fed
                         case Partial => c1
                         case Rejected(why) => Disconnect(c1, "ProtocolError: " + why, fetched)
                         case Assembled(t) => Spec.Deliver(c1, t, fetched)
    {
      var fed := assembler.FeedChunk(m, decode);
      assert Model() == old(Model()).(chunks := Feed(old(Model()).chunks, m, decode).0);
      match fed
      case Partial =>
      case Rejected(why) =>
        Drop("ProtocolError: " + why, fetched);
      case Assembled(t) =>
        Dispatch(t, fetched);
    }

    // ---- Public operations ------------------------------------------------------

    method SubscribeBase(path: string, args: Option<string>) returns (handle: Option<BaseSpec.SubscriberId>)
      modifies base
      ensures BaseRun() == Runs.Step(old(BaseRun()), Runs.Subscribing(path, args))
      ensures handle == BaseSpec.Subscribe(old(base.Model()), path, args).1
    {
      handle := base.Subscribe(path, args);
    }

    method AddEntry(h: BaseSpec.SubscriberId)
      modifies this`subs
      ensures subs == AddSub(old(subs), h)
    {
      subs := subs[h.query := (if h.query in subs then subs[h.query] else []) + [h.index]];
    }

    method FirstResult(h: BaseSpec.SubscriberId) returns (out: seq<Event>)
      ensures var results := base.remoteResults;
              out == if h.query in results then [Updated(h.index, results[h.query])] else []
    {
      out := [];
      if h.query in base.remoteResults { out := [Updated(h.index, base.remoteResults[h.query])]; }
    }

    method AddSubscriber(h: BaseSpec.SubscriberId) returns (out: seq<Event>)
      modifies this`subs, this`run, this`wire, base`outgoing
      ensures Model() == Spec.DrainOutgoing(old(Model()).(subs := AddSub(old(subs), h)))
      ensures var results := old(base.remoteResults);
              out == if h.query in results then [Updated(h.index, results[h.query])] else []
    {
      out := FirstResult(h);
      AddEntry(h);
      assert Model() == old(Model()).(subs := AddSub(old(subs), h));
      DrainOutgoing();
    }

    /** A new subscriber of a query whose result is already known hears it at once. */
    method Subscribe(path: string, args: Option<string>) returns (handle: Option<BaseSpec.SubscriberId>)
      modifies this, base
      ensures (Model(), handle) == Spec.Subscribe(old(Model()), path, args)
    {
      handle := SubscribeBase(path, args);
      if handle.None? { return; }
      ghost var c := old(Model()).(base := BaseRun());
      assert Model() == c;
      var out := AddSubscriber(handle.value);
      DeliverCommutes(c.(subs := AddSub(c.subs, handle.value)), out);
      Deliver(out);
    }

    /** Erases the entries of one subscriber, and the query's list once it is empty. */
    method EraseEntries(h: BaseSpec.SubscriberId)
      modifies this`subs
      ensures subs == RemoveSub(old(subs), h)
    {
      if h.query !in subs { return; }
      var entries, kept: seq<nat> := subs[h.query], [];
      for i := 0 to |entries|
        invariant kept == Without(entries[..i], h.index)
        modifies {}
      {
        WithoutOneMore(entries, h.index, i);
        if entries[i] != h.index { kept := kept + [entries[i]]; }
      }
      assert entries[..|entries|] == entries;
      subs := if kept == [] then subs - {h.query} else subs[h.query := kept];
    }

    method Unsubscribe(h: BaseSpec.SubscriberId)
      requires Valid()
      modifies this, base
      ensures Model() == Spec.Unsubscribe(old(Model()), h)
    {
      if stopping { return; }
      EraseEntries(h);
      base.Unsubscribe(h);
      DrainOutgoing();
    }

    method RequestBase(kind: BaseSpec.RequestKind, path: string, args: Option<string>) returns (id: Option<RequestId>)
      modifies this`run, base
      ensures BaseRun() == Runs.Step(old(BaseRun()), Runs.Requesting(kind, path, args))
      ensures id == BaseSpec.Request(old(base.Model()), kind, path, args).1
    {
      ghost var before := BaseRun();
      id := base.Request(kind, path, args);
      run := Runs.Step(before, Runs.Requesting(kind, path, args));
    }

    /** do_request; a request refused after shutdown is called back on the spot. */
    method Request(kind: BaseSpec.RequestKind, path: string, args: Option<string>)
      modifies this, base
      ensures Model() == Spec.Request(old(Model()), kind, path, args)
    {
      if stopping {
        fired := fired + [Refused];
        return;
      }
      var id := RequestBase(kind, path, args);
      if id.None? { return; }
      AwaitCallback(id.value);
    }

    method AwaitCallback(id: RequestId)
      modifies this`pending, this`run, this`wire, base`outgoing
      ensures Model() == Spec.DrainOutgoing(old(Model()).(pending := old(pending) + {id}))
    {
      pending := pending + {id};
      DrainOutgoing();
    }

    method ReplaceIdentity(token: AuthToken, fetcher: bool)
      modifies this`fetcher, this`consecutiveAuthErrors, base
      ensures this.fetcher == fetcher && consecutiveAuthErrors == 0
      ensures BaseRun() == Runs.Step(old(BaseRun()), Runs.SettingAuth(token))
    {
      this.fetcher := fetcher;
      consecutiveAuthErrors := 0;
      base.SetAuth(token);
    }

    /** A caller's token and fetcher replace the old ones, and past rejections no longer count. */
    method SetAuth(token: AuthToken, fetcher: bool)
      modifies this, base
      ensures Model() == Spec.SetAuth(old(Model()), token, fetcher)
    {
      if stopping { return; }
      ReplaceIdentity(token, fetcher);
      DrainOutgoing();
    }

    method ProcessEvents() returns (count: nat)
      modifies this`eventQueue, this`fired
      ensures Model() == Spec.ProcessEvents(old(Model()))
      ensures count == |old(eventQueue)|
    {
      var batch := eventQueue;
      eventQueue := [];
      fired := fired + batch;
      count := |batch|;
    }

    /** The callbacks of the requests still pending, in id order. */
    method OrphanPending() returns (orphaned: seq<Event>)
      ensures orphaned == Orphans(SortedIds(pending))
    {
      orphaned := [];
      var todo := pending;
      while todo != {}
        invariant Orphans(SortedIds(pending)) == orphaned + Orphans(SortedIds(todo))
      {
        var id := FirstId(todo);
        NextOrphan(todo, id, orphaned);
        orphaned := orphaned + [Completed(id, SHUT_DOWN)];
        todo := todo - {id};
      }
    }

    method StopAccepting() returns (orphaned: seq<Event>)
      modifies this`stopping, this`connGen, this`conn, this`socketOpen, this`pending, this`subs
      ensures stopping && connGen == old(connGen) + 1 && conn.None? && !socketOpen && pending == {} && subs == map[]
      ensures orphaned == Orphans(SortedIds(old(pending)))
    {
      stopping := true;
      connGen := connGen + 1;
      conn, socketOpen := None, false;
      orphaned := OrphanPending();
      pending, subs := {}, map[];
    }

    /** Queued callbacks run first, then every request still pending is failed. */
    method Shutdown()
      modifies this
      ensures Model() == Spec.Shutdown(old(Model()))
    {
      hide Orphans;
      if !stopping {
        var orphaned := StopAccepting();
        assert Model() == Stopped(old(Model()));
        RunRemaining(orphaned);
      }
    }

    /** The callbacks still queued, then the orphans'. */
    method RunRemaining(orphaned: seq<Event>)
      modifies this`eventQueue, this`fired
      ensures Model() == old(Model()).(eventQueue := [], fired := old(fired) + old(eventQueue) + orphaned)
    {
      var undelivered := eventQueue;
      eventQueue := [];
      fired := fired + undelivered + orphaned;
    }
  }

  // ---- The methods can always be called -------------------------------------------

  ghost predicate ChunksReady(b: Buffer) { b.total == 0 || b.received < b.total }

  ghost predicate Ready(c: State) {
    BaseSpec.TokensLive(c.base.s.idToToken, c.base.s.querySet) && ChunksReady(c.chunks)
  }

  /** In every state a run reaches, each method's precondition holds: no `.at` lookup in the base client fails. */
  lemma AlwaysReady(ops: seq<ClientRuns.Op>, decode: Decoder)
    requires ClientRuns.Conforming(ops, decode)
    ensures Ready(ClientRuns.Execute(ops, decode))
  {
    ClientRuns.SettledAlways(ops, decode);
    ClientRuns.ReachableCore(ClientRuns.Execute(ops, decode).base);
    ClientChunks.ChunksAlwaysReady(ops, decode);
  }
}
