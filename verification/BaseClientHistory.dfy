/**
 * What a run of the base client comes to, read off its operations: which requests are in flight, what each is
 * reported with, what its message says, which identity is presented and which version has been applied.
 */
module BaseClientHistory {
  import opened Wrappers
  import opened Ordering
  import opened Values
  import opened Protocol
  import opened BaseClientSpec
  import opened SyncSession
  import opened BaseClientRuns
  import Ledger = BaseClientLedger

  // ---- What a restart keeps -------------------------------------------------

  /** An action no server can have seen: its message is still queued. */
  ghost predicate Unsent(s: State, id: RequestId) {
    exists m :: m in s.outgoing && m.ActionRequest? && m.id == id
  }

  /** Sending a mutation again is harmless; an action may be sent only once. */
  ghost predicate MayBeSentAgain(s: State, id: RequestId)
    requires id in s.ongoing
  {
    s.ongoing[id].kind.MutationKind? || Unsent(s, id)
  }

  /**
   * A restart keeps, unchanged and queued again, exactly the mutations and the actions never sent; it fails
   * exactly the other requests in flight, in id order.
   */
  lemma RestartKeepsIff(s: State, refreshed: Option<AuthToken>)
    ensures var (s1, failed) := Restart(s, refreshed);
            && (forall id :: id in s1.ongoing <==> id in s.ongoing && MayBeSentAgain(s, id))
            && (forall id :: id in s1.ongoing ==>
                  s1.ongoing[id] == s.ongoing[id] && s.ongoing[id].message in s1.outgoing)
            && (forall id, result :: (id, result) in failed <==>
                  && id in s.ongoing && !MayBeSentAgain(s, id)
                  && result == PlainError("Connection lost while action was in flight"))
            && (forall i, j :: 0 <= i < j < |failed| ==> failed[i].0 < failed[j].0)
  {
    var (s1, failed) := Restart(s, refreshed);
    var lost := LostActions(s.ongoing, UnsentActions(s.outgoing));
    assert forall id :: id in lost <==> id in s.ongoing && !MayBeSentAgain(s, id);
    var ids := SortedIds(lost);
    assert failed == Failures(ids);
    forall id, result
      ensures (id, result) in failed <==> id in lost && result == IN_FLIGHT_ACTION_LOST
    {
      if id in lost && result == IN_FLIGHT_ACTION_LOST {
        var k :| 0 <= k < |ids| && ids[k] == id;
        assert failed[k] == (id, result);
      }
    }
    forall id | id in s1.ongoing
      ensures s.ongoing[id].message in s1.outgoing
    {
      ResentHolds(s1.ongoing, id);
    }
  }

  lemma ResentHolds(ongoing: map<RequestId, PendingRequest>, id: RequestId)
    requires id in ongoing
    ensures ongoing[id].message in ResentRequests(ongoing)
  {
    var ids := SortedIds(ongoing.Keys);
    var k :| 0 <= k < |ids| && ids[k] == id;
    assert ResentRequests(ongoing)[k] == ongoing[id].message;
  }

  // ---- What one message does ------------------------------------------------

  /** Requests one message completes are reported in id order. */
  lemma ReportsAscend(s: State, m: ServerMessage)
    ensures var done := Receive(s, m).1.completed; forall i, j :: 0 <= i < j < |done| ==> done[i].0 < done[j].0
  {
  }

  /** Which messages cost the connection, and the reason given. */
  lemma ReconnectsIff(s: State, m: ServerMessage)
    ensures var r := Receive(s, m).1;
            && r.reconnectReason
               == (match m
                   case Transition(start, _, _) =>
                     if start == s.remoteVersion then None else Some("StartVersionMismatch")
                   case AuthError(error, _) => Some("AuthError: " + error)
                   case FatalError(error) => Some("FatalError: " + error)
                   case TransitionChunk(_, _, _, _) => Some("ProtocolError: unassembled TransitionChunk")
                   case _ => None)
            && (r.authError <==> m.AuthError?)
            && (m.AuthError? ==> r.authUpdateAttempted == m.updateAttempted)
  {
  }

  /** The last subscriber out takes with it everything kept of its query, and nothing else. */
  lemma LastUnsubscribeForgets(s: State, handle: SubscriberId)
    requires IndexesAgree(s) && handle.query in s.idToToken
    requires s.querySet[s.idToToken[handle.query]].numSubscribers == 1
    ensures var (s1, id, token) := (Unsubscribe(s, handle), handle.query, s.idToToken[handle.query]);
            && s1.querySet == s.querySet - {token} && s1.idToToken == s.idToToken - {id}
            && s1.remoteResults == s.remoteResults - {id} && s1.outstanding == s.outstanding - {id}
  {
  }

  /** A new query is announced without a journal, as the last message queued. */
  lemma NewQueryIsAnnounced(s: State, path: string, args: string)
    requires Canonicalize(path) + "|" + args !in s.querySet
    ensures var s1 := Subscribe(s, path, Some(args)).0;
            s1.outgoing == s.outgoing + [ModifyQuerySet(s.querySetVersion, s.querySetVersion + 1,
                                                        [Add(s.nextQueryId, Canonicalize(path), args, None)])]
  {
  }

  // ---- The history ----------------------------------------------------------

  datatype History = History(
    asked: nat,                               // calls of mutation() and action()
    calls: map<RequestId, Op>,                // those that returned an id
    answers: map<RequestId, ServerMessage>,   // the last answer to each request while it was in flight
    lost: set<RequestId>,                     // actions in flight and already sent when a connection was lost
    subscribed: set<(string, string)>,        // paths and argument texts of subscribe()
    presented: AuthToken,                     // the last token given by the user or a fetcher
    applied: StateVersion)                    // end of the last transition applied since the last restart

  predicate Answers(m: ServerMessage) { m.MutationResponse? || m.ActionResponse? }

  /** The actions a restart in state `s` gives up. */
  ghost function Abandoned(s: State): set<RequestId> {
    set id | id in s.ongoing && !MayBeSentAgain(s, id)
  }

  ghost function Record(h: History, s: State, op: Op): History {
    match op
    case Subscribing(path, args) => if args.None? then h else h.(subscribed := h.subscribed + {(path, args.value)})
    case Requesting(_, _, args) =>
      h.(asked := h.asked + 1, calls := if args.None? then h.calls else h.calls[h.asked := op])
    case SettingAuth(token) => h.(presented := token)
    case Receiving(m) =>
      if Answers(m) && m.id in s.ongoing then h.(answers := h.answers[m.id := m])
      else if m.Transition? && m.start == h.applied then h.(applied := m.end)
      else h
    case Restarting(refreshed) =>
      h.(lost := h.lost + Abandoned(s),
         presented := if refreshed.Some? then refreshed.value else h.presented,
         applied := StateVersion(0, 0, 0))
    case _ => h
  }

  const BLANK := History(0, map[], map[], {}, {}, NoToken, StateVersion(0, 0, 0))

  ghost function Recorded(ops: seq<Op>): History {
    if ops == [] then BLANK
    else Record(Recorded(ops[..|ops| - 1]), Execute(ops[..|ops| - 1]).s, ops[|ops| - 1])
  }

  // ---- Answers and reports ----------------------------------------------------

  /** A success that waits for a timestamp is held as the server sent it. */
  ghost predicate HeldAs(held: Option<Held>, m: ServerMessage) {
    && m.MutationResponse? && m.result.Success? && m.ts.Some?
    && held == Some(Held(m.ts.value, m.result))
  }

  ghost predicate HeldExplained(h: History, ongoing: map<RequestId, PendingRequest>) {
    forall id :: id in ongoing ==>
      && id !in h.lost
      && (if id in h.answers then HeldAs(ongoing[id].held, h.answers[id]) else ongoing[id].held.None?)
  }

  ghost predicate ReportsExplained(h: History, reported: seq<Completion>) {
    forall k :: 0 <= k < |reported| ==> ExplainedReport(h, reported[k].0, reported[k].1)
  }

  ghost predicate Explained(r: Run, h: History) {
    && h.answers.Keys <= r.returned && h.lost <= r.returned
    && HeldExplained(h, r.s.ongoing) && ReportsExplained(h, r.reported)
  }

  /** A lost action is reported as such, and any other request with the result of its last answer. */
  ghost predicate ExplainedReport(h: History, id: RequestId, result: FunctionResult) {
    if id in h.lost then result == PlainError("Connection lost while action was in flight")
    else id in h.answers && Answers(h.answers[id]) && h.answers[id].result == result
  }

  lemma NotInFlight(r: Run, k: nat)
    requires Conserved(r) && k < |r.reported|
    ensures r.reported[k].0 in r.returned && r.reported[k].0 !in r.s.ongoing
  {
    assert ReportedIds(r)[k] == r.reported[k].0;
  }

  /** Old reports stay explained: what is recorded later concerns requests in flight. */
  lemma OldReportsExplained(r: Run, h: History, h1: History)
    requires ReportsExplained(h, r.reported) && Conserved(r)
    requires forall id :: id in r.returned && id !in r.s.ongoing ==>
               && (id in h1.lost <==> id in h.lost) && (id in h1.answers <==> id in h.answers)
               && (id in h.answers ==> h1.answers[id] == h.answers[id])
    ensures ReportsExplained(h1, r.reported)
  {
    hide Conserved;
    forall k | 0 <= k < |r.reported|
      ensures ExplainedReport(h1, r.reported[k].0, r.reported[k].1)
    {
      NotInFlight(r, k);
      assert ExplainedReport(h, r.reported[k].0, r.reported[k].1);
    }
  }

  lemma FlushedAre(ongoing: map<RequestId, PendingRequest>, watermark: Timestamp, k: nat)
    requires k < |Flushed(ongoing, watermark)|
    ensures var (id, result) := Flushed(ongoing, watermark)[k];
            id in ongoing && ongoing[id].held.Some? && result == ongoing[id].held.value.result
  {
    FlushGated(ongoing, watermark, k);
  }

  lemma FlushExplained(r: Run, h: History, m: ServerMessage, k: nat)
    requires Explained(r, h) && m.Transition? && m.start == r.s.remoteVersion
    requires k < |Receive(r.s, m).1.completed|
    ensures var (id, result) := Receive(r.s, m).1.completed[k]; ExplainedReport(h, id, result)
  {
    hide ApplyModifications;
    FlushedAre(r.s.ongoing, m.end.ts, k);
  }

  lemma HoldExplained(r: Run, h: History, m: ServerMessage, k: nat)
    requires Explained(r, h) && m.MutationResponse? && m.id in r.s.ongoing && m.result.Success? && m.ts.Some?
    requires k < |Receive(r.s, m).1.completed|
    ensures var (id, result) := Receive(r.s, m).1.completed[k];
            ExplainedReport(h.(answers := h.answers[m.id := m]), id, result)
  {
    var held := r.s.ongoing[m.id := r.s.ongoing[m.id].(held := Some(Held(m.ts.value, m.result)))];
    FlushedAre(held, r.s.remoteVersion.ts, k);
  }

  lemma DirectExplained(r: Run, h: History, m: ServerMessage, k: nat)
    requires Explained(r, h) && Answers(m) && !(m.MutationResponse? && m.result.Success? && m.ts.Some?)
    requires k < |Receive(r.s, m).1.completed|
    ensures var (id, result) := Receive(r.s, m).1.completed[k];
            m.id in r.s.ongoing && ExplainedReport(h.(answers := h.answers[m.id := m]), id, result)
  {
  }

  lemma NewReportsExplained(r: Run, h: History, m: ServerMessage, k: nat)
    requires Explained(r, h) && k < |Receive(r.s, m).1.completed|
    ensures var (id, result) := Receive(r.s, m).1.completed[k];
            ExplainedReport(Record(h, r.s, Receiving(m)), id, result)
  {
    hide Explained, ExplainedReport;
    var (id, result) := Receive(r.s, m).1.completed[k];
    ReportsNeedAnAnswer(r.s, m);
    if m.Transition? {
      FlushExplained(r, h, m, k);
      SameExplanation(h, Record(h, r.s, Receiving(m)), id, result);
    } else if m.MutationResponse? && m.result.Success? && m.ts.Some? {
      HoldExplained(r, h, m, k);
    } else {
      DirectExplained(r, h, m, k);
    }
  }

  lemma ReportsNeedAnAnswer(s: State, m: ServerMessage)
    ensures Receive(s, m).1.completed != [] ==>
              (m.Transition? && m.start == s.remoteVersion) || (Answers(m) && m.id in s.ongoing)
  {
  }

  lemma ReceivedReports(r: Run, m: ServerMessage)
    ensures var r1 := Step(r, Receiving(m));
            && r1.s == Receive(r.s, m).0 && r1.returned == r.returned
            && r1.reported == r.reported + Receive(r.s, m).1.completed
  {
  }

  lemma AllExplained(h: History, a: seq<Completion>, b: seq<Completion>)
    requires ReportsExplained(h, a) && forall k :: 0 <= k < |b| ==> ExplainedReport(h, b[k].0, b[k].1)
    ensures ReportsExplained(h, a + b)
  {
    hide ExplainedReport;
  }

  /** Only answers to requests in flight are recorded of a message. */
  lemma RecordedAnswer(h: History, s: State, m: ServerMessage)
    ensures var h1 := Record(h, s, Receiving(m));
            && h1.lost == h.lost
            && h1.answers == if Answers(m) && m.id in s.ongoing then h.answers[m.id := m] else h.answers
  {
  }

  lemma InFlightIsReturned(r: Run, id: RequestId)
    requires Conserved(r) && id in r.s.ongoing
    ensures id in r.returned
  {
  }

  lemma ReceiveExplained(r: Run, h: History, m: ServerMessage)
    requires Explained(r, h) && Conserved(r)
    ensures Explained(Step(r, Receiving(m)), Record(h, r.s, Receiving(m)))
  {
    hide Step, Receive, Record, Conserved, ReportsExplained, HeldExplained, ExplainedReport;
    var h1 := Record(h, r.s, Receiving(m));
    var done := Receive(r.s, m).1.completed;
    ReceivedReports(r, m);
    ReceiveHolds(r, h, m);
    RecordedAnswer(h, r.s, m);
    if Answers(m) && m.id in r.s.ongoing { InFlightIsReturned(r, m.id); }
    OldReportsExplained(r, h, h1);
    forall k | 0 <= k < |done|
      ensures ExplainedReport(h1, done[k].0, done[k].1)
    {
      NewReportsExplained(r, h, m, k);
    }
    AllExplained(h1, r.reported, done);
  }

  /** What is held after an answer to a request in flight. */
  lemma AnswerHolds(s: State, h: History, m: ServerMessage)
    requires HeldExplained(h, s.ongoing) && Answers(m) && m.id in s.ongoing
    ensures HeldExplained(h.(answers := h.answers[m.id := m]), Receive(s, m).0.ongoing)
  {
    hide Flushed;
  }

  lemma OthersHold(s: State, m: ServerMessage)
    requires !m.Transition? && !(Answers(m) && m.id in s.ongoing)
    ensures Receive(s, m).0.ongoing == s.ongoing
  {
  }

  lemma ReceiveHolds(r: Run, h: History, m: ServerMessage)
    requires Explained(r, h)
    ensures HeldExplained(Record(h, r.s, Receiving(m)), Receive(r.s, m).0.ongoing)
  {
    hide Receive, ReportsExplained, HeldAs;
    if m.Transition? {
      TransitionKeepsHeld(r.s, m);
    } else if Answers(m) && m.id in r.s.ongoing {
      AnswerHolds(r.s, h, m);
    } else {
      OthersHold(r.s, m);
    }
  }

  lemma TransitionKeepsHeld(s: State, m: ServerMessage)
    requires m.Transition?
    ensures var s1 := Receive(s, m).0;
            forall id :: id in s1.ongoing ==> id in s.ongoing && s1.ongoing[id] == s.ongoing[id]
  {
    if m.start == s.remoteVersion { TransitionFrame(s, m); }
  }

  lemma RestartedReports(r: Run, refreshed: Option<AuthToken>)
    ensures var r1 := Step(r, Restarting(refreshed));
            && r1.s == Restart(r.s, refreshed).0 && r1.returned == r.returned
            && r1.reported == r.reported + Restart(r.s, refreshed).1
  {
  }

  lemma RestartExplained(r: Run, h: History, refreshed: Option<AuthToken>)
    requires Explained(r, h) && Conserved(r)
    ensures Explained(Step(r, Restarting(refreshed)), Record(h, r.s, Restarting(refreshed)))
  {
    hide Step, Restart, Conserved, ReportsExplained, HeldAs, MayBeSentAgain;
    var h1 := Record(h, r.s, Restarting(refreshed));
    var failed := Restart(r.s, refreshed).1;
    RestartKeepsIff(r.s, refreshed);
    RestartedReports(r, refreshed);
    forall id | id in r.s.ongoing
      ensures id in r.returned
    {
      InFlightIsReturned(r, id);
    }
    OldReportsExplained(r, h, h1);
    forall k | 0 <= k < |failed|
      ensures ExplainedReport(h1, failed[k].0, failed[k].1)
    {
      assert (failed[k].0, failed[k].1) in failed;
    }
    AllExplained(h1, r.reported, failed);
  }

  lemma ExplainedStep(r: Run, h: History, op: Op)
    requires Explained(r, h) && Conserved(r) && RequestsWellFormed(r.s)
    ensures Explained(Step(r, op), Record(h, r.s, op))
  {
    hide Step, Record, Explained;
    match op
    case Receiving(m) => ReceiveExplained(r, h, m);
    case Restarting(refreshed) => RestartExplained(r, h, refreshed);
    case Requesting(kind, path, args) => RequestExplained(r, h, kind, path, args);
    case Subscribing(path, args) => LocalExplained(r, h, op);
    case Unsubscribing(_) => LocalExplained(r, h, op);
    case _ => LocalExplained(r, h, op);
  }

  lemma LocalExplained(r: Run, h: History, op: Op)
    requires Explained(r, h) && !op.Receiving? && !op.Restarting? && !op.Requesting?
    ensures Explained(Step(r, op), Record(h, r.s, op))
  {
    hide ReportsExplained, HeldExplained, Canonicalize, Token;
    SameExplanations(h, Record(h, r.s, op), r);
  }

  lemma SameExplanation(h: History, h1: History, id: RequestId, result: FunctionResult)
    requires h1.lost == h.lost && h1.answers == h.answers
    ensures ExplainedReport(h1, id, result) == ExplainedReport(h, id, result)
  {
  }

  lemma SameExplanations(h: History, h1: History, r: Run)
    requires h1.lost == h.lost && h1.answers == h.answers
    ensures HeldExplained(h1, r.s.ongoing) == HeldExplained(h, r.s.ongoing)
    ensures ReportsExplained(h1, r.reported) == ReportsExplained(h, r.reported)
  {
    hide ExplainedReport;
    forall id, result
      ensures ExplainedReport(h1, id, result) == ExplainedReport(h, id, result)
    {
      SameExplanation(h, h1, id, result);
    }
  }

  lemma RequestExplained(r: Run, h: History, kind: RequestKind, path: string, args: Option<string>)
    requires Explained(r, h) && Conserved(r) && RequestsWellFormed(r.s)
    ensures Explained(Step(r, Requesting(kind, path, args)), Record(h, r.s, Requesting(kind, path, args)))
  {
    hide ReportsExplained, Canonicalize, HeldAs;
    SameExplanations(h, Record(h, r.s, Requesting(kind, path, args)), r);
  }

  lemma {:induction false} ExplainedAlways(ops: seq<Op>)
    ensures Explained(Execute(ops), Recorded(ops))
  {
    if ops != [] {
      var init := ops[..|ops| - 1];
      ExplainedAlways(init);
      ConservedAlways(init);
      CoreAlways(init);
      ExplainedStep(Execute(init), Recorded(init), ops[|ops| - 1]);
    }
  }

  // ---- What each request says -------------------------------------------------

  /** `m` is the message of the call numbered `id`: its kind, canonical path and argument text. */
  predicate Carries(calls: map<RequestId, Op>, m: ClientMessage) {
    m.IsRequest() ==>
      && m.id in calls && calls[m.id].Requesting? && calls[m.id].args.Some?
      && (m.ActionRequest? <==> calls[m.id].kind.ActionKind?)
      && m.udfPath == Canonicalize(calls[m.id].path) && m.argsJson == calls[m.id].args.value
  }

  ghost predicate AllCarry(calls: map<RequestId, Op>, messages: seq<ClientMessage>) {
    forall m :: m in messages ==> Carries(calls, m)
  }

  ghost predicate Asked(r: Run, h: History) {
    && r.s.nextRequestId == h.asked && r.returned == h.calls.Keys
    && (forall id :: id in h.calls ==> id < h.asked)
    && (forall id :: id in r.s.ongoing ==>
          && r.s.ongoing[id].message.IsRequest() && r.s.ongoing[id].message.id == id
          && Carries(h.calls, r.s.ongoing[id].message)
          && r.s.ongoing[id].kind == h.calls[id].kind)
    && AllCarry(h.calls, r.s.outgoing) && AllCarry(h.calls, r.everSent)
  }

  lemma OneMoreCall(h: History, op: Op, m: ClientMessage)
    requires Carries(h.calls, m) && forall id :: id in h.calls ==> id < h.asked
    ensures Carries(h.calls[h.asked := op], m)
  {
    hide Canonicalize;
  }

  lemma OwnMessage(h: History, op: Op)
    requires op.Requesting? && op.args.Some?
    ensures Carries(h.calls[h.asked := op], RequestMessage(op.kind, h.asked, op.path, op.args.value))
  {
    hide Canonicalize;
  }

  lemma RequestAsked(r: Run, h: History, kind: RequestKind, path: string, args: Option<string>)
    requires Asked(r, h)
    ensures Asked(Step(r, Requesting(kind, path, args)), Record(h, r.s, Requesting(kind, path, args)))
  {
    hide Carries, Canonicalize;
    var op := Requesting(kind, path, args);
    var h1 := Record(h, r.s, op);
    forall m | Carries(h.calls, m)
      ensures Carries(h1.calls, m)
    {
      OneMoreCall(h, op, m);
    }
    if args.Some? { OwnMessage(h, op); }
  }

  lemma RestartFrame(s: State, refreshed: Option<AuthToken>)
    ensures var s1 := Restart(s, refreshed).0;
            && s1.nextRequestId == s.nextRequestId
            && forall m :: m in s1.outgoing && m.IsRequest() ==> m in ResentRequests(s1.ongoing)
  {
    hide ResentRequests, LostActions, UnsentActions, Failures, Adds;
  }

  lemma RestartAsked(r: Run, h: History, refreshed: Option<AuthToken>)
    requires Asked(r, h) && Conserved(r)
    ensures Asked(Step(r, Restarting(refreshed)), Record(h, r.s, Restarting(refreshed)))
  {
    hide Carries, ResentRequests, AuthMessages, QuerySetMessages, LostActions, UnsentActions, Failures, MayBeSentAgain;
    var s1 := Restart(r.s, refreshed).0;
    RestartKeepsIff(r.s, refreshed);
    RestartFrame(r.s, refreshed);
    hide Restart;
    forall m | m in s1.outgoing
      ensures Carries(h.calls, m)
    {
      if m in ResentRequests(s1.ongoing) { ResentAre(s1.ongoing, m); } else { NoRequest(h.calls, m); }
    }
  }

  lemma NoRequest(calls: map<RequestId, Op>, m: ClientMessage)
    requires !m.IsRequest()
    ensures Carries(calls, m)
  {
  }

  lemma ResentAre(ongoing: map<RequestId, PendingRequest>, m: ClientMessage)
    requires m in ResentRequests(ongoing)
    ensures exists id :: id in ongoing && ongoing[id].message == m
  {
    var ids := SortedIds(ongoing.Keys);
    var k :| 0 <= k < |ids| && ResentRequests(ongoing)[k] == m;
    assert ids[k] in ids && ongoing[ids[k]].message == m;
  }

  lemma AskedStep(r: Run, h: History, op: Op)
    requires Asked(r, h) && Conserved(r)
    ensures Asked(Step(r, op), Record(h, r.s, op))
  {
    hide Step, Record, Asked;
    match op
    case Requesting(kind, path, args) => RequestAsked(r, h, kind, path, args);
    case Restarting(refreshed) => RestartAsked(r, h, refreshed);
    case Receiving(m) => ReceiveAsked(r, h, m);
    case Popping => PopAsked(r, h);
    case _ => LocalAsked(r, h, op);
  }

  lemma ReceiveAsked(r: Run, h: History, m: ServerMessage)
    requires Asked(r, h)
    ensures Asked(Step(r, Receiving(m)), Record(h, r.s, Receiving(m)))
  {
    hide Receive, Carries;
    ReceiveFrame(r.s, m);
  }

  lemma PopAsked(r: Run, h: History)
    requires Asked(r, h)
    ensures Asked(Step(r, Popping), Record(h, r.s, Popping))
  {
    hide Carries;
  }

  lemma LocalAsked(r: Run, h: History, op: Op)
    requires Asked(r, h) && (op.Subscribing? || op.Unsubscribing? || op.SettingAuth? || op.Connecting?)
    ensures Asked(Step(r, op), Record(h, r.s, op))
  {
    hide Canonicalize, Token;
  }

  lemma {:induction false} AskedAlways(ops: seq<Op>)
    ensures Asked(Execute(ops), Recorded(ops))
  {
    if ops != [] {
      var init := ops[..|ops| - 1];
      AskedAlways(init);
      ConservedAlways(init);
      AskedStep(Execute(init), Recorded(init), ops[|ops| - 1]);
    }
  }

  // ---- What each query was asked as ---------------------------------------------

  ghost predicate QueriesAsked(s: State, subscribed: set<(string, string)>) {
    forall t :: t in s.querySet ==>
      exists path :: (path, s.querySet[t].argsJson) in subscribed && Canonicalize(path) == s.querySet[t].udfPath
  }

  lemma QueriesAskedStep(r: Run, h: History, op: Op)
    requires QueriesAsked(r.s, h.subscribed)
    ensures QueriesAsked(Step(r, op).s, Record(h, r.s, op).subscribed)
  {
    hide Receive, Canonicalize, Token;
    match op
    case Subscribing(path, args) =>
      if args.Some? { assert (path, args.value) in Record(h, r.s, op).subscribed; }
    case Receiving(m) => ReceiveKeepsQueries(r.s, m);
    case _ =>
  }

  lemma ReceiveKeepsQueries(s: State, m: ServerMessage)
    ensures var s1 := Receive(s, m).0;
            && s1.querySet.Keys == s.querySet.Keys
            && (forall t :: t in s.querySet ==>
                  s1.querySet[t].udfPath == s.querySet[t].udfPath && s1.querySet[t].argsJson == s.querySet[t].argsJson)
  {
    if m.Transition? { ApplyKeepsQueries(s, m.modifications); } else { ResponseFrame(s, m); }
  }

  lemma {:induction false} HandlesAsked(ops: seq<Op>, handle: SubscriberId)
    ensures var asked := Ledger.Book(ops).asked;
            handle in asked ==> asked[handle] in Recorded(ops).subscribed
  {
    if ops != [] { HandlesAsked(ops[..|ops| - 1], handle); }
  }

  lemma {:induction false} QueriesAskedAlways(ops: seq<Op>)
    ensures QueriesAsked(Execute(ops).s, Recorded(ops).subscribed)
  {
    if ops != [] {
      var init := ops[..|ops| - 1];
      QueriesAskedAlways(init);
      QueriesAskedStep(Execute(init), Recorded(init), ops[|ops| - 1]);
    }
  }

  // ---- Identity and version -----------------------------------------------------

  ghost predicate Presents(s: State, token: AuthToken) {
    s.auth == if token.NoToken? then None else Some(token)
  }

  ghost predicate Follows(s: State, h: History) {
    Presents(s, h.presented) && s.remoteVersion == h.applied
  }

  lemma FollowsStep(r: Run, h: History, op: Op)
    requires Follows(r.s, h)
    ensures Follows(Step(r, op).s, Record(h, r.s, op))
  {
    hide Canonicalize, Token, MayBeSentAgain;
    match op
    case Receiving(m) =>
      if m.Transition? {
        if m.start == r.s.remoteVersion { TransitionFrame(r.s, m); }
      } else {
        ResponseFrame(r.s, m);
      }
    case _ =>
  }

  lemma {:induction false} FollowsAlways(ops: seq<Op>)
    ensures Follows(Execute(ops).s, Recorded(ops))
  {
    if ops != [] {
      var init := ops[..|ops| - 1];
      FollowsAlways(init);
      FollowsStep(Execute(init), Recorded(init), ops[|ops| - 1]);
    }
  }

  // ---- Theorems -------------------------------------------------------------------

  /** Requests are numbered by the calls before them, and every message of one says what its caller asked for. */
  lemma RequestsSayWhatWasAsked(ops: seq<Op>, m: ClientMessage)
    requires var r := Execute(ops); m.IsRequest() && (m in r.s.outgoing || m in r.everSent)
    ensures var calls := Recorded(ops).calls;
            && m.id in calls && calls[m.id].Requesting? && calls[m.id].args.Some?
            && m == (if calls[m.id].kind.ActionKind?
                     then ActionRequest(m.id, Canonicalize(calls[m.id].path), calls[m.id].args.value)
                     else MutationRequest(m.id, Canonicalize(calls[m.id].path), calls[m.id].args.value))
  {
    AskedAlways(ops);
  }

  /**
   * A request is in flight until it is answered or lost: unanswered, or its success waits for results newer than
   * those applied. Only an action is ever lost.
   */
  lemma InFlightUntilAnswered(ops: seq<Op>, id: RequestId)
    requires id in Recorded(ops).calls
    ensures var (s, h) := (Execute(ops).s, Recorded(ops));
            && (id !in h.answers && id !in h.lost ==> id in s.ongoing)
            && (id in s.ongoing ==> id !in h.lost)
            && (id in s.ongoing && id in h.answers ==>
                  var m := h.answers[id];
                  m.MutationResponse? && m.result.Success? && m.ts.Some? && m.ts.value > h.applied.ts)
            && (id in h.lost ==> h.calls[id].Requesting? && h.calls[id].kind.ActionKind?)
  {
    ExplainedAlways(ops);
    AskedAlways(ops);
    ConservedAlways(ops);
    HeldAheadAlways(ops);
    FollowsAlways(ops);
    LostAreActions(ops, id);
    var r := Execute(ops);
    if id !in r.s.ongoing {
      var k :| 0 <= k < |ReportedIds(r)| && ReportedIds(r)[k] == id;
      assert ExplainedReport(Recorded(ops), r.reported[k].0, r.reported[k].1);
    }
  }

  lemma {:induction false} LostAreActions(ops: seq<Op>, id: RequestId)
    ensures var h := Recorded(ops);
            id in h.lost ==> id in h.calls && h.calls[id].Requesting? && h.calls[id].kind.ActionKind?
  {
    hide Step;
    if ops != [] {
      var init := ops[..|ops| - 1];
      LostAreActions(init, id);
      AskedAlways(init);
    }
  }

  /**
   * Whatever arrives, a request is reported with the result of the last answer that came while it was in flight;
   * an action lost with its connection is reported as lost.
   */
  lemma ReportsAreAnswers(ops: seq<Op>, id: RequestId, result: FunctionResult)
    requires (id, result) in Execute(ops).reported
    ensures var h := Recorded(ops);
            if id in h.lost then result == PlainError("Connection lost while action was in flight")
            else id in h.answers && Answers(h.answers[id]) && h.answers[id].result == result
  {
    ExplainedAlways(ops);
    var r := Execute(ops);
    var k :| 0 <= k < |r.reported| && r.reported[k] == (id, result);
    assert ExplainedReport(Recorded(ops), r.reported[k].0, r.reported[k].1);
  }

  /** The identity kept, and replayed by the server, is the last one given; the version is the last one applied. */
  lemma LastTokenIsPresented(ops: seq<Op>)
    ensures var (r, token) := (Execute(ops), Recorded(ops).presented);
            && r.s.auth == (if token.NoToken? then None else Some(token))
            && Replay(r.sent + r.s.outgoing).Some?
            && Replay(r.sent + r.s.outgoing).value.auth == (if token.NoToken? then None else Some(token))
            && r.s.remoteVersion == Recorded(ops).applied
  {
    FollowsAlways(ops);
    ServerReplica(ops);
  }
}
