/**
 * The server's side of one connection, as the sync protocol defines it: which client messages
 * it accepts after Connect, and the query set and identity they leave it with. Independent of
 * the client: it refuses a message whose version numbers do not chain, an Add of a query it
 * already has, a Remove of one it does not have, and request ids that do not increase.
 */
module SyncSession {
  import opened Wrappers
  import opened Protocol

  datatype Query = Query(udfPath: string, argsJson: string)

  datatype Session = Session(
    querySet: nat, identity: nat, queries: map<QueryId, Query>, auth: Option<AuthToken>, nextRequest: RequestId)

  const FRESH := Session(0, 0, map[], None, 0)

  function Modify(queries: map<QueryId, Query>, mod: QueryModification): Option<map<QueryId, Query>> {
    match mod
    case Add(id, udfPath, argsJson, _) =>
      if id in queries then None else Some(queries[id := Query(udfPath, argsJson)])
    case Remove(id) =>
      if id in queries then Some(queries - {id}) else None
  }

  function ModifyAll(queries: map<QueryId, Query>, mods: seq<QueryModification>): Option<map<QueryId, Query>> {
    if mods == [] then Some(queries)
    else
      var before := ModifyAll(queries, mods[..|mods| - 1]);
      if before.None? then None else Modify(before.value, mods[|mods| - 1])
  }

  function Accept(session: Session, m: ClientMessage): Option<Session> {
    match m
    case Connect(_, _, _) => None
    case Authenticate(base, token) =>
      if base != session.identity then None
      else Some(session.(identity := base + 1, auth := if token.NoToken? then None else Some(token)))
    case ModifyQuerySet(base, new_, mods) =>
      var queries := ModifyAll(session.queries, mods);
      if base != session.querySet || new_ != base + 1 || queries.None? then None
      else Some(session.(querySet := new_, queries := queries.value))
    case MutationRequest(id, _, _) =>
      if id < session.nextRequest then None else Some(session.(nextRequest := id + 1))
    case ActionRequest(id, _, _) =>
      if id < session.nextRequest then None else Some(session.(nextRequest := id + 1))
  }

  /** What a session started by Connect becomes after `messages`; None if the server refuses one of them. */
  function Replay(messages: seq<ClientMessage>): Option<Session> {
    if messages == [] then Some(FRESH)
    else
      var before := Replay(messages[..|messages| - 1]);
      if before.None? then None else Accept(before.value, messages[|messages| - 1])
  }

  lemma ReplayNext(messages: seq<ClientMessage>, m: ClientMessage)
    ensures Replay(messages + [m])
            == var before := Replay(messages); if before.None? then None else Accept(before.value, m)
  {
    var all := messages + [m];
    assert all[..|all| - 1] == messages;
  }

  /** A stream the server accepts is accepted up to every point. */
  lemma {:induction false} ReplayPrefix(messages: seq<ClientMessage>, k: nat)
    requires k <= |messages| && Replay(messages).Some?
    ensures Replay(messages[..k]).Some?
    ensures Replay(messages[..k]).value.nextRequest <= Replay(messages).value.nextRequest
  {
    if k == |messages| {
      assert messages[..k] == messages;
    } else {
      var init := messages[..|messages| - 1];
      ReplayPrefix(init, k);
      assert init[..k] == messages[..k];
    }
  }

  /** An accepted request is numbered no lower than the next id before it, which it moves just past itself. */
  lemma RequestTaken(messages: seq<ClientMessage>, i: nat)
    requires Replay(messages).Some? && i < |messages| && messages[i].IsRequest()
    ensures Replay(messages[..i]).Some? && messages[i].id >= Replay(messages[..i]).value.nextRequest
    ensures Replay(messages[..i + 1]).Some? && Replay(messages[..i + 1]).value.nextRequest == messages[i].id + 1
  {
    ReplayPrefix(messages, i);
    ReplayPrefix(messages, i + 1);
    assert messages[..i + 1] == messages[..i] + [messages[i]];
    ReplayNext(messages[..i], messages[i]);
  }

  /** Request ids strictly increase along an accepted stream, so no request appears in it twice. */
  lemma RequestIdsIncrease(messages: seq<ClientMessage>, i: nat, j: nat)
    requires Replay(messages).Some? && i < j < |messages|
    requires messages[i].IsRequest() && messages[j].IsRequest()
    ensures messages[i].id < messages[j].id
  {
    hide Replay, Accept;
    RequestTaken(messages, i);
    RequestTaken(messages, j);
    ReplayPrefix(messages[..j], i + 1);
    assert messages[..j][..i + 1] == messages[..i + 1];
  }

  /** Every request of an accepted stream is numbered below the next id the server will take. */
  lemma RequestBelowNext(messages: seq<ClientMessage>, i: nat)
    requires Replay(messages).Some? && i < |messages| && messages[i].IsRequest()
    ensures messages[i].id < Replay(messages).value.nextRequest
  {
    hide Replay, Accept;
    RequestTaken(messages, i);
    ReplayPrefix(messages, i + 1);
  }

  predicate IsRequestStream(messages: seq<ClientMessage>) {
    && (forall i :: 0 <= i < |messages| ==> messages[i].IsRequest())
    && (forall i, j :: 0 <= i < j < |messages| ==> messages[i].id < messages[j].id)
  }

  /** Requests with increasing, unused ids are accepted and change nothing else. */
  lemma {:induction false} ReplayRequests(messages: seq<ClientMessage>, requests: seq<ClientMessage>)
    requires Replay(messages).Some? && IsRequestStream(requests)
    requires forall i :: 0 <= i < |requests| ==> requests[i].id >= Replay(messages).value.nextRequest
    ensures Replay(messages + requests).Some?
    ensures var next := Replay(messages + requests).value.nextRequest;
            && Replay(messages + requests).value == Replay(messages).value.(nextRequest := next)
            && next == if requests == [] then Replay(messages).value.nextRequest else requests[|requests| - 1].id + 1
  {
    if requests == [] {
      assert messages + requests == messages;
    } else {
      var init, last := requests[..|requests| - 1], requests[|requests| - 1];
      ReplayRequests(messages, init);
      ReplayNext(messages + init, last);
      assert messages + requests == (messages + init) + [last];
    }
  }
}
