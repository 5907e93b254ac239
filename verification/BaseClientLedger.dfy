/**
 * Bookkeeping that needs more history than the client keeps: which subscriber handles are held,
 * which queries the last restart re-sent and have not heard about since, and which journal the
 * server last issued for each query.
 */
module BaseClientLedger {
  import opened Wrappers
  import opened Ordering
  import opened Values
  import opened Protocol
  import opened BaseClientSpec
  import opened BaseClientRuns

  datatype Ledger = Ledger(
    held: set<SubscriberId>,              // handles returned by subscribe and not dropped
    asked: map<SubscriberId, (string, string)>,  // path and argument text each handle was returned for
    resent: set<QueryId>,                 // queries the last restart re-sent
    mentions: seq<StateModification>,     // modifications applied since the last restart
    accepted: seq<StateModification>,     // modifications applied, of queries live at that moment
    seen: set<Timestamp>,                 // timestamps of transitions applied and of mutations held
    connects: nat)                        // Connect messages built

  function Mentioned(mods: seq<StateModification>): set<QueryId> {
    set m | m in mods :: m.id
  }

  function LiveOnly(mods: seq<StateModification>, live: set<QueryId>): seq<StateModification> {
    if mods == [] then []
    else
      var init, last := LiveOnly(mods[..|mods| - 1], live), mods[|mods| - 1];
      if last.id in live then init + [last] else init
  }

  /** The ledger after `op` is applied to a client in state `s`. */
  function Note(l: Ledger, s: State, op: Op): Ledger {
    match op
    case Subscribing(path, args) =>
      var handle := Subscribe(s, path, args).1;
      if handle.None? then l
      else l.(held := l.held + {handle.value}, asked := l.asked[handle.value := (path, args.value)])
    case Unsubscribing(handle) => l.(held := l.held - {handle})
    case Receiving(m) =>
      if m.Transition? && m.start == s.remoteVersion then
        l.(mentions := l.mentions + m.modifications,
           accepted := l.accepted + LiveOnly(m.modifications, s.idToToken.Keys),
           seen := l.seen + {m.end.ts})
      else if m.MutationResponse? && m.id in s.ongoing && m.result.Success? && m.ts.Some? then
        l.(seen := l.seen + {m.ts.value})
      else l
    case Connecting(_) => l.(connects := l.connects + 1)
    case Restarting(_) => l.(resent := s.idToToken.Keys, mentions := [])
    case _ => l
  }

  ghost function Book(ops: seq<Op>): Ledger {
    if ops == [] then Ledger({}, map[], {}, [], [], {}, 0)
    else Note(Book(ops[..|ops| - 1]), Execute(ops[..|ops| - 1]).s, ops[|ops| - 1])
  }

  // ---- Subscribers ------------------------------------------------------

  function HandlesOf(held: set<SubscriberId>, id: QueryId): set<SubscriberId> {
    set h | h in held && h.query == id
  }

  /** A query is live exactly when someone holds a handle of it, and its count is the number of handles. */
  ghost predicate Counted(s: State, held: set<SubscriberId>) {
    && (forall h :: h in held ==> h.query in s.idToToken && h.index < s.nextSubscriptionIndex)
    && (forall t :: t in s.querySet ==> s.querySet[t].numSubscribers == |HandlesOf(held, s.querySet[t].id)|)
  }

  lemma HandlesAdd(held: set<SubscriberId>, h: SubscriberId, id: QueryId)
    requires h !in held
    ensures HandlesOf(held + {h}, id) == HandlesOf(held, id) + (if h.query == id then {h} else {})
    ensures |HandlesOf(held + {h}, id)| == |HandlesOf(held, id)| + (if h.query == id then 1 else 0)
  {
    assert HandlesOf(held + {h}, id) == HandlesOf(held, id) + (if h.query == id then {h} else {});
  }

  lemma HandlesDrop(held: set<SubscriberId>, h: SubscriberId, id: QueryId)
    requires h in held
    ensures |HandlesOf(held - {h}, id)| == |HandlesOf(held, id)| - (if h.query == id then 1 else 0)
  {
    HandlesAdd(held - {h}, h, id);
    assert held - {h} + {h} == held;
  }

  lemma AddQueryCounted(s: State, held: set<SubscriberId>, token: string, udfPath: string, argsJson: string)
    requires IndexesAgree(s) && Counted(s, held) && token !in s.querySet
    ensures Counted(AddQuery(s, token, udfPath, argsJson),
                    held + {SubscriberId(s.nextQueryId, s.nextSubscriptionIndex)})
  {
    var h := SubscriberId(s.nextQueryId, s.nextSubscriptionIndex);
    assert HandlesOf(held, s.nextQueryId) == {};
    forall t | t in AddQuery(s, token, udfPath, argsJson).querySet
      ensures var q := AddQuery(s, token, udfPath, argsJson).querySet[t];
              q.numSubscribers == |HandlesOf(held + {h}, q.id)|
    {
      HandlesAdd(held, h, if t == token then s.nextQueryId else s.querySet[t].id);
    }
  }

  lemma ShareQueryCounted(s: State, held: set<SubscriberId>, token: string)
    requires IndexesAgree(s) && Counted(s, held) && token in s.querySet
    ensures Counted(ShareQuery(s, token), held + {SubscriberId(s.querySet[token].id, s.nextSubscriptionIndex)})
  {
    var h := SubscriberId(s.querySet[token].id, s.nextSubscriptionIndex);
    forall t | t in s.querySet
      ensures var q := ShareQuery(s, token).querySet[t]; q.numSubscribers == |HandlesOf(held + {h}, q.id)|
    {
      HandlesAdd(held, h, s.querySet[t].id);
    }
  }

  lemma SubscribeCounted(s: State, held: set<SubscriberId>, path: string, args: Option<string>)
    requires IndexesAgree(s) && Counted(s, held) && args.Some?
    ensures var (s1, h) := Subscribe(s, path, args); h.Some? && Counted(s1, held + {h.value})
  {
    var udfPath := Canonicalize(path);
    var token := Token(udfPath, args.value);
    if token in s.querySet {
      ShareQueryCounted(s, held, token);
    } else {
      AddQueryCounted(s, held, token, udfPath, args.value);
    }
  }

  lemma UnsubscribeCounted(s: State, held: set<SubscriberId>, h: SubscriberId)
    requires IndexesAgree(s) && Counted(s, held) && h in held
    ensures Counted(Unsubscribe(s, h), held - {h})
  {
    var s1 := Unsubscribe(s, h);
    forall t | t in s1.querySet
      ensures s1.querySet[t].numSubscribers == |HandlesOf(held - {h}, s1.querySet[t].id)|
    {
      HandlesDrop(held, h, s1.querySet[t].id);
    }
    if s.querySet[s.idToToken[h.query]].numSubscribers == 1 {
      forall g | g in held - {h}
        ensures g.query != h.query
      {
        if g.query == h.query {
          var both := HandlesOf(held, h.query);
          assert {g, h} <= both;
          HandlesPair(both, g, h);
        }
      }
    }
  }

  lemma HandlesPair(handles: set<SubscriberId>, g: SubscriberId, h: SubscriberId)
    requires g in handles && h in handles && g != h
    ensures |handles| >= 2
  {
    assert handles == (handles - {g, h}) + {g, h};
  }

  /**
   * unsubscribe looks only at the query id, so it keeps the counts right exactly when the handle is one
   * still held, or names no live query. Dropping a handle twice would take away someone else's.
   */
  lemma UnsubscribeCountedIff(s: State, held: set<SubscriberId>, h: SubscriberId)
    requires IndexesAgree(s) && Counted(s, held)
    ensures Counted(Unsubscribe(s, h), held - {h}) <==> h in held || h.query !in s.idToToken
  {
    if h in held {
      UnsubscribeCounted(s, held, h);
    } else {
      assert held - {h} == held;
      if h.query in s.idToToken {
        var t := s.idToToken[h.query];
        var n := s.querySet[t].numSubscribers;
        assert n == |HandlesOf(held, h.query)|;
        if n == 1 {
          assert HandlesOf(held, h.query) != {};
          var g :| g in HandlesOf(held, h.query);
          assert g in held && g.query !in Unsubscribe(s, h).idToToken;
        } else {
          assert Unsubscribe(s, h).querySet[t].numSubscribers == n - 1;
        }
      }
    }
  }

  /** Each handle is dropped at most once, as the RAII subscription object does. */
  ghost predicate Disciplined(ops: seq<Op>) {
    forall k :: 0 <= k < |ops| && ops[k].Unsubscribing? ==> ops[k].handle in Book(ops[..k]).held
  }

  lemma OtherOpsCounted(r: Run, held: set<SubscriberId>, op: Op)
    requires Counted(r.s, held) && !op.Subscribing? && !op.Unsubscribing?
    ensures Counted(Step(r, op).s, held)
  {
    if op.Receiving? {
      if op.message.Transition? {
        ApplyKeepsQueries(r.s, op.message.modifications);
      } else {
        ResponseFrame(r.s, op.message);
      }
    }
  }

  lemma CountedStep(r: Run, l: Ledger, op: Op)
    requires IndexesAgree(r.s) && Counted(r.s, l.held) && (op.Unsubscribing? ==> op.handle in l.held)
    ensures Counted(Step(r, op).s, Note(l, r.s, op).held)
  {
    if op.Subscribing? {
      if op.args.Some? { SubscribeCounted(r.s, l.held, op.path, op.args); }
    } else if op.Unsubscribing? {
      UnsubscribeCounted(r.s, l.held, op.handle);
    } else {
      OtherOpsCounted(r, l.held, op);
    }
  }

  lemma LiveMeansHeld(s: State, held: set<SubscriberId>)
    requires IndexesAgree(s) && Counted(s, held)
    ensures forall id :: id in s.idToToken <==> HandlesOf(held, id) != {}
  {
    forall id | id in s.idToToken
      ensures HandlesOf(held, id) != {}
    {
      assert s.querySet[s.idToToken[id]].numSubscribers == |HandlesOf(held, id)|;
    }
    forall id | HandlesOf(held, id) != {}
      ensures id in s.idToToken
    {
      var h :| h in HandlesOf(held, id);
    }
  }

  /** With each handle dropped at most once: live queries are those with a handle, each counted correctly. */
  lemma {:induction false} SubscribersCounted(ops: seq<Op>)
    requires Disciplined(ops)
    ensures Counted(Execute(ops).s, Book(ops).held)
    ensures forall id :: id in Execute(ops).s.idToToken <==> HandlesOf(Book(ops).held, id) != {}
  {
    if ops != [] {
      var init := ops[..|ops| - 1];
      assert forall k :: 0 <= k < |init| ==> init[..k] == ops[..k];
      SubscribersCounted(init);
      CoreAlways(init);
      CountedStep(Execute(init), Book(init), ops[|ops| - 1]);
    }
    CoreAlways(ops);
    LiveMeansHeld(Execute(ops).s, Book(ops).held);
  }

  // ---- What each handle was asked for -----------------------------------

  /** Every handle held names the query of the path and argument text it was asked for. */
  ghost predicate HandlesNameTokens(s: State, l: Ledger) {
    forall h :: h in l.held ==>
      && h in l.asked && h.query in s.idToToken
      && s.idToToken[h.query] == Token(Canonicalize(l.asked[h].0), l.asked[h].1)
  }

  lemma SubscribeNames(s: State, l: Ledger, path: string, args: Option<string>)
    requires IndexesAgree(s) && HandlesNameTokens(s, l)
    ensures HandlesNameTokens(Subscribe(s, path, args).0, Note(l, s, Subscribing(path, args)))
  {
    if args.Some? {
      var token := Token(Canonicalize(path), args.value);
      if token in s.querySet { assert s.idToToken[s.querySet[token].id] == token; }
    }
  }

  lemma UnsubscribeNames(s: State, l: Ledger, handle: SubscriberId)
    requires IndexesAgree(s) && Counted(s, l.held) && handle in l.held && HandlesNameTokens(s, l)
    ensures HandlesNameTokens(Unsubscribe(s, handle), Note(l, s, Unsubscribing(handle)))
  {
    UnsubscribeCounted(s, l.held, handle);
  }

  lemma NamesStep(r: Run, l: Ledger, op: Op)
    requires IndexesAgree(r.s) && Counted(r.s, l.held) && (op.Unsubscribing? ==> op.handle in l.held)
    requires HandlesNameTokens(r.s, l)
    ensures HandlesNameTokens(Step(r, op).s, Note(l, r.s, op))
  {
    hide Receive, Subscribe, Unsubscribe, Counted, IndexesAgree, Token, Canonicalize;
    match op
    case Subscribing(path, args) => SubscribeNames(r.s, l, path, args);
    case Unsubscribing(handle) => UnsubscribeNames(r.s, l, handle);
    case Receiving(m) => ReceiveFrame(r.s, m);
    case _ =>
  }

  lemma {:induction false} NamesAlways(ops: seq<Op>)
    requires Disciplined(ops)
    ensures HandlesNameTokens(Execute(ops).s, Book(ops))
  {
    if ops != [] {
      var init := ops[..|ops| - 1];
      assert forall k :: 0 <= k < |init| ==> init[..k] == ops[..k];
      NamesAlways(init);
      SubscribersCounted(init);
      CoreAlways(init);
      NamesStep(Execute(init), Book(init), ops[|ops| - 1]);
    }
  }

  /** Any two handles held at the same time name one query exactly when they were asked for the same token. */
  lemma HeldHandlesShareIff(ops: seq<Op>, h1: SubscriberId, h2: SubscriberId)
    requires Disciplined(ops) && h1 in Book(ops).held && h2 in Book(ops).held
    ensures h1 in Book(ops).asked && h2 in Book(ops).asked
    ensures var (a1, a2) := (Book(ops).asked[h1], Book(ops).asked[h2]);
            h1.query == h2.query <==> Token(Canonicalize(a1.0), a1.1) == Token(Canonicalize(a2.0), a2.1)
  {
    NamesAlways(ops);
    CoreAlways(ops);
    var s := Execute(ops).s;
    assert s.querySet[s.idToToken[h1.query]].id == h1.query && s.querySet[s.idToToken[h2.query]].id == h2.query;
  }

  // ---- Resynchronisation after a restart --------------------------------

  /** outstanding is exactly: re-sent, still subscribed, and not mentioned by the server since. */
  ghost predicate Resyncing(s: State, l: Ledger) {
    && (forall id :: id in s.outstanding <==> id in l.resent && id in s.idToToken && id !in Mentioned(l.mentions))
    && s.remoteResults.Keys <= Mentioned(l.mentions)
    && (forall id :: id in l.resent ==> id < s.nextQueryId)
  }

  lemma {:induction false} ApplySettles(s: State, mods: seq<StateModification>)
    ensures var s1 := ApplyModifications(s, mods);
            && s1.outstanding == s.outstanding - Mentioned(mods)
            && s1.remoteResults.Keys <= s.remoteResults.Keys + Mentioned(mods)
  {
    if mods != [] {
      var init, last := mods[..|mods| - 1], mods[|mods| - 1];
      ApplySettles(s, init);
      assert mods == init + [last];
      assert Mentioned(mods) == Mentioned(init) + {last.id};
    }
  }

  lemma ReceiveResyncing(s: State, m: ServerMessage, l: Ledger)
    requires Resyncing(s, l)
    ensures Resyncing(Receive(s, m).0, Note(l, s, Receiving(m)))
  {
    if m.Transition? {
      ApplySettles(s, m.modifications);
      ApplyKeepsQueries(s, m.modifications);
      MentionedConcat(l.mentions, m.modifications);
    } else {
      ResponseFrame(s, m);
    }
  }

  lemma MentionedConcat(a: seq<StateModification>, b: seq<StateModification>)
    ensures Mentioned(a + b) == Mentioned(a) + Mentioned(b)
  {
  }

  lemma SubscribeResyncing(s: State, path: string, args: Option<string>, l: Ledger)
    requires IndexesAgree(s) && Resyncing(s, l)
    ensures Resyncing(Subscribe(s, path, args).0, Note(l, s, Subscribing(path, args)))
  {
    hide Mentioned, Token, Canonicalize;
  }

  lemma UnsubscribeResyncing(s: State, handle: SubscriberId, l: Ledger)
    requires IndexesAgree(s) && Resyncing(s, l)
    ensures Resyncing(Unsubscribe(s, handle), Note(l, s, Unsubscribing(handle)))
  {
    hide Mentioned, Token;
  }

  lemma RequestResyncing(s: State, kind: RequestKind, path: string, args: Option<string>, l: Ledger)
    requires Resyncing(s, l)
    ensures Resyncing(Request(s, kind, path, args).0, Note(l, s, Requesting(kind, path, args)))
  {
    hide Mentioned;
  }

  lemma RestartResyncing(s: State, refreshed: Option<AuthToken>, l: Ledger)
    requires IndexesAgree(s)
    ensures Resyncing(Restart(s, refreshed).0, Note(l, s, Restarting(refreshed)))
  {
    hide LostActions, UnsentActions, AuthMessages, QuerySetMessages, ResentRequests, Failures, RefreshedAuth;
  }

  lemma ResyncingStep(r: Run, l: Ledger, op: Op)
    requires IndexesAgree(r.s) && Resyncing(r.s, l)
    ensures Resyncing(Step(r, op).s, Note(l, r.s, op))
  {
    hide Receive, Subscribe, Unsubscribe, Request, Mentioned, Token, Canonicalize;
    match op
    case Subscribing(path, args) => SubscribeResyncing(r.s, path, args, l);
    case Unsubscribing(handle) => UnsubscribeResyncing(r.s, handle, l);
    case Requesting(kind, path, args) => RequestResyncing(r.s, kind, path, args, l);
    case Receiving(m) => ReceiveResyncing(r.s, m, l);
    case Restarting(refreshed) => RestartResyncing(r.s, refreshed, l);
    case _ =>
  }

  lemma {:induction false} ResyncingAlways(ops: seq<Op>)
    ensures Resyncing(Execute(ops).s, Book(ops))
  {
    if ops != [] {
      var init := ops[..|ops| - 1];
      ResyncingAlways(init);
      CoreAlways(init);
      ResyncingStep(Execute(init), Book(init), ops[|ops| - 1]);
    }
  }

  /**
   * has_synced_past_last_restart() holds exactly when every query the last restart re-sent has been
   * dropped or mentioned since; and no outstanding query has a result.
   */
  lemma SyncedIff(ops: seq<Op>)
    ensures var s, l := Execute(ops).s, Book(ops);
            && (s.outstanding == {}
                <==> forall id :: id in l.resent && id in s.idToToken ==> id in Mentioned(l.mentions))
            && s.outstanding !! s.remoteResults.Keys
  {
    ResyncingAlways(ops);
    var s, l := Execute(ops).s, Book(ops);
    if s.outstanding != {} {
      var id :| id in s.outstanding;
      assert id in l.resent && id in s.idToToken && id !in Mentioned(l.mentions);
    }
  }

  /** outstanding never grows except by a restart. */
  lemma OutstandingShrinks(r: Run, op: Op)
    requires !op.Restarting?
    ensures Step(r, op).s.outstanding <= r.s.outstanding
  {
    if op.Receiving? {
      if op.message.Transition? {
        ApplySettles(r.s, op.message.modifications);
      } else {
        ResponseFrame(r.s, op.message);
      }
    }
  }

  // ---- What Connect tells the server -------------------------------------

  /** The highest timestamp seen, over every connection. */
  ghost predicate IsHighest(max: Option<Timestamp>, seen: set<Timestamp>) {
    if max.None? then seen == {} else max.value in seen && forall ts :: ts in seen ==> ts <= max.value
  }

  lemma ObserveHighest(max: Option<Timestamp>, seen: set<Timestamp>, ts: Timestamp)
    requires IsHighest(max, seen)
    ensures IsHighest(Observe(max, ts), seen + {ts})
  {
  }

  lemma HighestStep(r: Run, l: Ledger, op: Op)
    requires IsHighest(r.s.maxObserved, l.seen)
    ensures IsHighest(Step(r, op).s.maxObserved, Note(l, r.s, op).seen)
  {
    if op.Receiving? {
      var m := op.message;
      if m.Transition? {
        ApplyKeepsQueries(r.s, m.modifications);
        ObserveHighest(r.s.maxObserved, l.seen, m.end.ts);
      } else if m.MutationResponse? && m.ts.Some? {
        ObserveHighest(r.s.maxObserved, l.seen, m.ts.value);
      }
    }
  }

  lemma ConnectsStep(r: Run, l: Ledger, op: Op)
    requires r.s.connectionCount == l.connects
    ensures Step(r, op).s.connectionCount == Note(l, r.s, op).connects
  {
    if op.Receiving? { ReceiveFrame(r.s, op.message); }
  }

  lemma {:induction false} HistoryAlways(ops: seq<Op>)
    ensures IsHighest(Execute(ops).s.maxObserved, Book(ops).seen)
    ensures Execute(ops).s.connectionCount == Book(ops).connects
  {
    if ops != [] {
      var init := ops[..|ops| - 1];
      HistoryAlways(init);
      HighestStep(Execute(init), Book(init), ops[|ops| - 1]);
      ConnectsStep(Execute(init), Book(init), ops[|ops| - 1]);
    }
  }

  /**
   * The next Connect is numbered by the Connects before it and carries the highest timestamp ever applied or
   * held, across every restart; none before the first.
   */
  lemma ConnectTellsHistory(ops: seq<Op>, reason: string)
    ensures var m := MakeConnect(Execute(ops).s, reason).1;
            && m.Connect? && m.connectionCount == Book(ops).connects && m.lastCloseReason == reason
            && IsHighest(m.maxObserved, Book(ops).seen)
  {
    HistoryAlways(ops);
  }

  // ---- Results and journals: the last word wins --------------------------

  /** The last modification of `id` in `mods`. */
  function LastMention(mods: seq<StateModification>, id: QueryId): Option<StateModification> {
    if mods == [] then None
    else if mods[|mods| - 1].id == id then Some(mods[|mods| - 1])
    else LastMention(mods[..|mods| - 1], id)
  }

  /** The journal of the last update or failure of `id` in `mods`; `before` if there is none. */
  function LastJournal(mods: seq<StateModification>, id: QueryId, before: Option<string>): Option<string> {
    if mods == [] then before
    else
      var last := mods[|mods| - 1];
      if last.id == id && !last.QueryRemoved? then last.journal else LastJournal(mods[..|mods| - 1], id, before)
  }

  /** After a transition, a query's result is what its last modification says, or what it was. */
  lemma {:induction false} LastMentionWins(s: State, mods: seq<StateModification>, id: QueryId)
    ensures var s1, last := ApplyModifications(s, mods), LastMention(mods, id);
            if last.None? then
              (id in s1.remoteResults <==> id in s.remoteResults)
              && (id in s.remoteResults ==> s1.remoteResults[id] == s.remoteResults[id])
            else if last.value.QueryRemoved? then id !in s1.remoteResults
            else id in s1.remoteResults && s1.remoteResults[id] == ResultOf(last.value)
  {
    if mods != [] {
      LastMentionWins(s, mods[..|mods| - 1], id);
    }
  }

  /** What a query's result is, given its last modification since results were last cleared. */
  ghost predicate ResultFollows(results: map<QueryId, FunctionResult>, id: QueryId, last: Option<StateModification>) {
    if last.None? || last.value.QueryRemoved? then id !in results
    else id in results && results[id] == ResultOf(last.value)
  }

  /** Live, or not yet handed out: not a query that was dropped. */
  predicate Current(s: State, id: QueryId) { id in s.idToToken || id >= s.nextQueryId }

  ghost predicate Mirrored(s: State, mentions: seq<StateModification>) {
    forall id :: Current(s, id) ==> ResultFollows(s.remoteResults, id, LastMention(mentions, id))
  }

  lemma {:induction false} LastMentionConcat(a: seq<StateModification>, b: seq<StateModification>, id: QueryId)
    ensures LastMention(a + b, id) == if LastMention(b, id).Some? then LastMention(b, id) else LastMention(a, id)
  {
    if b == [] {
      assert a + b == a;
    } else {
      assert (a + b)[..|a + b| - 1] == a + b[..|b| - 1];
      LastMentionConcat(a, b[..|b| - 1], id);
    }
  }

  lemma TransitionMirrored(s: State, m: ServerMessage, mentions: seq<StateModification>)
    requires Mirrored(s, mentions) && m.Transition? && m.start == s.remoteVersion
    ensures Mirrored(Receive(s, m).0, mentions + m.modifications)
  {
    var s1 := Receive(s, m).0;
    ApplyKeepsQueries(s, m.modifications);
    forall id | Current(s1, id)
      ensures ResultFollows(s1.remoteResults, id, LastMention(mentions + m.modifications, id))
    {
      assert Current(s, id);
      LastMentionWins(s, m.modifications, id);
      LastMentionConcat(mentions, m.modifications, id);
    }
  }

  lemma UnsubscribeMirrored(s: State, handle: SubscriberId, mentions: seq<StateModification>)
    requires Mirrored(s, mentions) && IndexesAgree(s)
    ensures Mirrored(Unsubscribe(s, handle), mentions)
  {
    var s1 := Unsubscribe(s, handle);
    forall id | Current(s1, id)
      ensures ResultFollows(s1.remoteResults, id, LastMention(mentions, id))
    {
      assert Current(s, id);
    }
  }

  lemma SubscribeMirrored(s: State, path: string, args: Option<string>, mentions: seq<StateModification>)
    requires Mirrored(s, mentions)
    ensures Mirrored(Subscribe(s, path, args).0, mentions)
  {
    var s1 := Subscribe(s, path, args).0;
    assert forall id :: Current(s1, id) ==> Current(s, id);
  }

  lemma MirroredStep(r: Run, l: Ledger, op: Op)
    requires IndexesAgree(r.s) && Mirrored(r.s, l.mentions)
    ensures Mirrored(Step(r, op).s, Note(l, r.s, op).mentions)
  {
    if op.Subscribing? {
      SubscribeMirrored(r.s, op.path, op.args, l.mentions);
    } else if op.Unsubscribing? {
      UnsubscribeMirrored(r.s, op.handle, l.mentions);
    } else if op.Receiving? {
      if op.message.Transition? && op.message.start == r.s.remoteVersion {
        TransitionMirrored(r.s, op.message, l.mentions);
      } else if !op.message.Transition? {
        ResponseFrame(r.s, op.message);
      }
    }
  }

  lemma {:induction false} MirroredAlways(ops: seq<Op>)
    ensures Mirrored(Execute(ops).s, Book(ops).mentions)
  {
    if ops != [] {
      var init := ops[..|ops| - 1];
      MirroredAlways(init);
      CoreAlways(init);
      MirroredStep(Execute(init), Book(init), ops[|ops| - 1]);
    }
  }

  lemma ResultSays(m: StateModification)
    requires !m.QueryRemoved?
    ensures ResultOf(m) == match m
                           case QueryUpdated(_, value, _) => Success(value)
                           case QueryFailed(_, message, None, _) => PlainError(message)
                           case QueryFailed(_, message, Some(data), _) => AppError(message, data)
  {
  }

  /**
   * In every run, a live query's result is what the server last said of it since the last restart: nothing
   * if it said nothing or removed it.
   */
  lemma LatestResultIsLastWord(ops: seq<Op>, id: QueryId)
    requires id in Execute(ops).s.idToToken
    ensures var results, last := Execute(ops).s.remoteResults, LastMention(Book(ops).mentions, id);
            if last.None? || last.value.QueryRemoved? then id !in results
            else
              && id in results
              && results[id] == match last.value
                                case QueryUpdated(_, value, _) => Success(value)
                                case QueryFailed(_, message, None, _) => PlainError(message)
                                case QueryFailed(_, message, Some(data), _) => AppError(message, data)
  {
    hide Execute, Book, ResultOf, LastMention;
    MirroredAlways(ops);
    assert Current(Execute(ops).s, id);
    var last := LastMention(Book(ops).mentions, id);
    if last.Some? && !last.value.QueryRemoved? { ResultSays(last.value); }
  }

  function JournalOf(s: State, id: QueryId): Option<string>
    requires id in s.idToToken && s.idToToken[id] in s.querySet
  {
    s.querySet[s.idToToken[id]].journal
  }

  /** Each live query keeps the journal of the last update or failure accepted for it. */
  ghost predicate Journaled(s: State, accepted: seq<StateModification>) {
    && (forall m :: m in accepted ==> m.id < s.nextQueryId)
    && (forall id :: id in s.idToToken && s.idToToken[id] in s.querySet ==>
          JournalOf(s, id) == LastJournal(accepted, id, None))
  }

  lemma {:induction false} UnmentionedJournal(mods: seq<StateModification>, id: QueryId)
    requires forall m :: m in mods ==> m.id != id
    ensures LastJournal(mods, id, None) == None
  {
    if mods != [] { UnmentionedJournal(mods[..|mods| - 1], id); }
  }

  lemma LastJournalNext(mods: seq<StateModification>, m: StateModification, id: QueryId)
    ensures LastJournal(mods + [m], id, None)
            == if m.id == id && !m.QueryRemoved? then m.journal else LastJournal(mods, id, None)
  {
    assert (mods + [m])[..|mods|] == mods;
  }

  lemma JournaledApplyOne(s: State, m: StateModification, accepted: seq<StateModification>)
    requires IndexesAgree(s) && Journaled(s, accepted)
    ensures Journaled(ApplyModification(s, m), if m.id in s.idToToken then accepted + [m] else accepted)
  {
    var s1 := ApplyModification(s, m);
    forall id | id in s1.idToToken && s1.idToToken[id] in s1.querySet
      ensures JournalOf(s1, id) == LastJournal(if m.id in s.idToToken then accepted + [m] else accepted, id, None)
    {
      LastJournalNext(accepted, m, id);
      assert m.id in s.idToToken && m.id != id ==> s.idToToken[m.id] != s.idToToken[id];
    }
  }

  lemma {:induction false} JournaledApply(s: State, mods: seq<StateModification>, accepted: seq<StateModification>)
    requires IndexesAgree(s) && Journaled(s, accepted)
    ensures Journaled(ApplyModifications(s, mods), accepted + LiveOnly(mods, s.idToToken.Keys))
  {
    if mods == [] {
      assert accepted + [] == accepted;
    } else {
      var init, last := mods[..|mods| - 1], mods[|mods| - 1];
      var live := s.idToToken.Keys;
      JournaledApply(s, init, accepted);
      ApplyModificationsKeepsIndexes(s, init);
      ApplyKeepsQueries(s, init);
      JournaledApplyOne(ApplyModifications(s, init), last, accepted + LiveOnly(init, live));
      assert accepted + LiveOnly(init, live) + [last] == accepted + (LiveOnly(init, live) + [last]);
    }
  }

  lemma ReceiveJournaled(s: State, m: ServerMessage, l: Ledger)
    requires IndexesAgree(s) && Journaled(s, l.accepted)
    ensures Journaled(Receive(s, m).0, Note(l, s, Receiving(m)).accepted)
  {
    if m.Transition? {
      if m.start == s.remoteVersion { JournaledApply(s, m.modifications, l.accepted); }
    } else {
      ResponseFrame(s, m);
    }
  }

  lemma SubscribeJournaled(s: State, path: string, args: Option<string>, accepted: seq<StateModification>)
    requires IndexesAgree(s) && Journaled(s, accepted)
    ensures Journaled(Subscribe(s, path, args).0, accepted)
  {
    UnmentionedJournal(accepted, s.nextQueryId);
  }

  lemma UnsubscribeJournaled(s: State, handle: SubscriberId, accepted: seq<StateModification>)
    requires IndexesAgree(s) && Journaled(s, accepted)
    ensures Journaled(Unsubscribe(s, handle), accepted)
  {
  }

  lemma JournaledStep(r: Run, l: Ledger, op: Op)
    requires IndexesAgree(r.s) && Journaled(r.s, l.accepted)
    ensures Journaled(Step(r, op).s, Note(l, r.s, op).accepted)
  {
    if op.Receiving? {
      ReceiveJournaled(r.s, op.message, l);
    } else if op.Subscribing? {
      SubscribeJournaled(r.s, op.path, op.args, l.accepted);
    } else if op.Unsubscribing? {
      UnsubscribeJournaled(r.s, op.handle, l.accepted);
    }
  }

  lemma {:induction false} JournaledAlways(ops: seq<Op>)
    ensures Journaled(Execute(ops).s, Book(ops).accepted)
  {
    if ops != [] {
      var init := ops[..|ops| - 1];
      JournaledAlways(init);
      CoreAlways(init);
      JournaledStep(Execute(init), Book(init), ops[|ops| - 1]);
    }
  }

  lemma OnlyQueriesModify(s: State, refreshed: Option<AuthToken>, m: ClientMessage)
    requires RequestsWellFormed(s) && m in Restart(s, refreshed).0.outgoing && m.ModifyQuerySet?
    ensures m in QuerySetMessages(s.querySet)
  {
    hide QuerySetMessages, ResentRequests, LostActions, UnsentActions;
    ResentInOrder(Restart(s, refreshed).0.ongoing, s.nextRequestId);
  }

  lemma AddsCarryJournals(s: State, m: ClientMessage, add: QueryModification)
    requires IndexesAgree(s) && m in QuerySetMessages(s.querySet) && add in m.modifications
    ensures add.Add? && add.id in s.idToToken && s.idToToken[add.id] in s.querySet
    ensures add.journal == JournalOf(s, add.id)
  {
    var tokens := SortedStrings(s.querySet.Keys);
    var k :| 0 <= k < |tokens| && Adds(s.querySet, tokens)[k] == add;
    assert tokens[k] in tokens;
  }

  /** Every query a restart re-sends carries the journal of the last update or failure accepted for it. */
  lemma ResentWithLatestJournal(ops: seq<Op>, refreshed: Option<AuthToken>, m: ClientMessage, add: QueryModification)
    requires m in Restart(Execute(ops).s, refreshed).0.outgoing && m.ModifyQuerySet? && add in m.modifications
    ensures add.Add? && add.id in Execute(ops).s.idToToken
    ensures add.journal == LastJournal(Book(ops).accepted, add.id, None)
  {
    hide Replicated, Carried, RequestsWellFormed, IndexesAgree, Execute, Book, Restart, LastJournal;
    JournaledAlways(ops);
    CoreAlways(ops);
    var s := Execute(ops).s;
    OnlyQueriesModify(s, refreshed, m);
    AddsCarryJournals(s, m, add);
  }
}
