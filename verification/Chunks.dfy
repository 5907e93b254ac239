/** The transition_chunk_assembler (src/protocol.cpp), and what it does to a stream of server messages. */
module Chunks {
  import opened Decimals
  import opened Wrappers
  import opened Protocol

  /** decode_server_message: the message a frame's text denotes, or why it is malformed. */
  type Decoder = string -> Result<ServerMessage, string>

  /** Part of a split Transition received so far; a total of 0 is idle. */
  datatype Buffer = Buffer(data: string, received: nat, total: nat, id: string)

  const IDLE := Buffer("", 0, 0, "")

  datatype Fed = Partial | Assembled(transition: ServerMessage) | Rejected(reason: string)

  function Finish(full: string, decode: Decoder): Fed {
    match decode(full)
    case Err(reason) => Rejected(reason)
    case Ok(m) =>
      if m.Transition? then Assembled(m)
      else Rejected("TransitionChunk: assembled message is not a Transition")
  }

  function OutOfOrder(part: nat, expected: nat): string {
    "TransitionChunk: part " + Decimal(part) + " received out of order (expected " + Decimal(expected) + ")"
  }

  /** Whatever is assembled or rejected leaves nothing behind. */
  function Feed(s: Buffer, c: ServerMessage, decode: Decoder): (r: (Buffer, Fed))
    requires c.TransitionChunk?
    ensures !r.1.Partial? ==> r.0 == IDLE
    ensures r.1.Partial? ==> r.0.received == c.partNumber + 1 < c.totalParts == r.0.total
  {
    if c.totalParts == 0 || c.partNumber >= c.totalParts
       || (s.total != 0 && (s.total != c.totalParts || s.id != c.transitionId)) then
      (IDLE, Rejected("TransitionChunk: inconsistent chunk parameters"))
    else if c.partNumber != s.received then
      (IDLE, Rejected(OutOfOrder(c.partNumber, s.received)))
    else
      var data, received := s.data + c.chunk, s.received + 1;
      if received < c.totalParts then (Buffer(data, received, c.totalParts, c.transitionId), Partial)
      else (IDLE, Finish(data, decode))
  }

  class Assembler {
    var data: string
    var receivedParts: nat
    var totalParts: nat
    var transitionId: string

    ghost function Model(): Buffer
      reads this
    {
      Buffer(data, receivedParts, totalParts, transitionId)
    }

    constructor ()
      ensures Model() == IDLE
    {
      data, receivedParts, totalParts, transitionId := "", 0, 0, "";
    }

    method Abandon()
      modifies this
      ensures Model() == IDLE
    {
      data, receivedParts, totalParts, transitionId := "", 0, 0, "";
    }

    method FeedChunk(c: ServerMessage, decode: Decoder) returns (out: Fed)
      requires c.TransitionChunk?
      requires totalParts == 0 || receivedParts < totalParts
      modifies this
      ensures (Model(), out) == Feed(old(Model()), c, decode)
    {
      if c.totalParts == 0 || c.partNumber >= c.totalParts
         || (totalParts != 0 && (totalParts != c.totalParts || transitionId != c.transitionId)) {
        Abandon();
        return Rejected("TransitionChunk: inconsistent chunk parameters");
      }
      if c.partNumber != receivedParts {
        var reason := OutOfOrder(c.partNumber, receivedParts);
        Abandon();
        return Rejected(reason);
      }
      if totalParts == 0 { totalParts, transitionId := c.totalParts, c.transitionId; }
      data := data + c.chunk;
      receivedParts := receivedParts + 1;
      if receivedParts < totalParts { return Partial; }
      var full := data;
      Abandon();
      match decode(full) {
        case Err(reason) => out := Rejected(reason);
        case Ok(m) =>
          out := if m.Transition? then Assembled(m)
                 else Rejected("TransitionChunk: assembled message is not a Transition");
      }
    }
  }

  // ---- Streams, handled as ws_message does --------------------------------

  /** Chunks are fed, pings ignored, and any other message discards a partial buffer. */
  function Handle(s: Buffer, m: ServerMessage, decode: Decoder): (Buffer, Option<Fed>) {
    if m.TransitionChunk? then var (s1, fed) := Feed(s, m, decode); (s1, Some(fed))
    else if m.Ping? then (s, None)
    else (IDLE, None)
  }

  function After(stream: seq<ServerMessage>, decode: Decoder): Buffer {
    if stream == [] then IDLE
    else Handle(After(stream[..|stream| - 1], decode), stream[|stream| - 1], decode).0
  }

  function WithoutPings(stream: seq<ServerMessage>): seq<ServerMessage> {
    if stream == [] then []
    else
      var init, last := WithoutPings(stream[..|stream| - 1]), stream[|stream| - 1];
      if last.Ping? then init else init + [last]
  }

  function Concat(parts: seq<string>): string {
    if parts == [] then "" else Concat(parts[..|parts| - 1]) + parts[|parts| - 1]
  }

  /** `messages` are parts 0, 1, 2, ... of the split `id` into `total`, carrying `parts`. */
  ghost predicate ArePartsOf(messages: seq<ServerMessage>, parts: seq<string>, total: nat, id: string) {
    && |messages| == |parts|
    && (forall k :: 0 <= k < |parts| ==> messages[k] == TransitionChunk(parts[k], k, total, id))
  }

  lemma {:induction false} PartsAccumulate(messages: seq<ServerMessage>, parts: seq<string>, total: nat, id: string,
                                           decode: Decoder)
    requires ArePartsOf(messages, parts, total, id) && |parts| < total
    ensures After(messages, decode) == if parts == [] then IDLE else Buffer(Concat(parts), |parts|, total, id)
  {
    if parts != [] {
      PartsAccumulate(messages[..|parts| - 1], parts[..|parts| - 1], total, id, decode);
    }
  }

  lemma {:induction false} PingsAreIgnored(stream: seq<ServerMessage>, decode: Decoder)
    ensures After(stream, decode) == After(WithoutPings(stream), decode)
  {
    if stream != [] {
      var init, last := stream[..|stream| - 1], stream[|stream| - 1];
      PingsAreIgnored(init, decode);
      if !last.Ping? {
        assert WithoutPings(stream)[..|WithoutPings(stream)| - 1] == WithoutPings(init);
      }
    }
  }

  /** What comes after an idle moment is handled as if nothing had come before it. */
  lemma {:induction false} IdleForgets(before: seq<ServerMessage>, stream: seq<ServerMessage>, decode: Decoder)
    requires After(before, decode) == IDLE
    ensures After(before + stream, decode) == After(stream, decode)
  {
    if stream == [] {
      assert before + stream == before;
    } else {
      var init := stream[..|stream| - 1];
      assert (before + stream)[..|before + stream| - 1] == before + init;
      IdleForgets(before, init, decode);
    }
  }

  /**
   * Once idle after any stream, a text cut into any number of parts, sent in order with pings in between: every
   * part but the last yields nothing, and the last yields the decode of the whole text and leaves the
   * assembler idle.
   */
  lemma CutTextIsReassembled(before: seq<ServerMessage>, stream: seq<ServerMessage>, parts: seq<string>, id: string,
                             decode: Decoder)
    requires After(before, decode) == IDLE
    requires stream != [] && !stream[|stream| - 1].Ping? && |parts| >= 1
    requires |WithoutPings(stream)| <= |parts|
    requires ArePartsOf(WithoutPings(stream), parts[..|WithoutPings(stream)|], |parts|, id)
    ensures var s := After(before + stream[..|stream| - 1], decode);
            var (after, fed) := Handle(s, stream[|stream| - 1], decode);
            if |WithoutPings(stream)| < |parts| then fed == Some(Partial)
            else fed == Some(Finish(Concat(parts), decode)) && after == IDLE
  {
    var init, last := stream[..|stream| - 1], stream[|stream| - 1];
    var n := |WithoutPings(init)|;
    IdleForgets(before, init, decode);
    PingsAreIgnored(init, decode);
    assert WithoutPings(stream) == WithoutPings(init) + [last];
    assert parts[..n + 1][..n] == parts[..n];
    assert forall k :: 0 <= k < n ==> WithoutPings(init)[k] == WithoutPings(stream)[k];
    PartsAccumulate(WithoutPings(init), parts[..n], |parts|, id, decode);
    assert last == WithoutPings(stream)[n];
    assert Concat(parts[..n + 1]) == Concat(parts[..n]) + parts[n];
    if n + 1 == |parts| { assert parts[..n + 1] == parts; }
  }

  /** `s` is idle, or holds exactly the last `received` of `messages`: parts 0 onwards of one split. */
  ghost predicate Accounted(s: Buffer, messages: seq<ServerMessage>, parts: seq<string>) {
    if s.total == 0 then s == IDLE && parts == []
    else
      && s.received == |parts| && 0 < |parts| < s.total && |parts| <= |messages|
      && s.data == Concat(parts)
      && ArePartsOf(messages[|messages| - |parts|..], parts, s.total, s.id)
  }

  lemma FeedAccounted(s: Buffer, messages: seq<ServerMessage>, parts: seq<string>, c: ServerMessage, decode: Decoder)
    requires Accounted(s, messages, parts) && c.TransitionChunk? && Feed(s, c, decode).1.Partial?
    ensures Accounted(Feed(s, c, decode).0, messages + [c], parts + [c.chunk])
  {
    OneMorePart(messages, c, parts, c.totalParts, c.transitionId);
    assert (parts + [c.chunk])[..|parts|] == parts;
  }

  lemma {:induction false} BufferIsAccounted(stream: seq<ServerMessage>, decode: Decoder) returns (parts: seq<string>)
    ensures Accounted(After(stream, decode), WithoutPings(stream), parts)
  {
    parts := [];
    if stream != [] {
      var init, last := stream[..|stream| - 1], stream[|stream| - 1];
      var held := BufferIsAccounted(init, decode);
      if last.Ping? {
        parts := held;
      } else if last.TransitionChunk? && Feed(After(init, decode), last, decode).1.Partial? {
        parts := held + [last.chunk];
        FeedAccounted(After(init, decode), WithoutPings(init), held, last, decode);
      }
    }
  }

  lemma OneMorePart(messages: seq<ServerMessage>, c: ServerMessage, parts: seq<string>, total: nat, id: string)
    requires c.TransitionChunk? && c == TransitionChunk(c.chunk, |parts|, total, id) && |parts| <= |messages|
    requires ArePartsOf(messages[|messages| - |parts|..], parts, total, id)
    ensures var more, all := parts + [c.chunk], messages + [c];
            ArePartsOf(all[|all| - |more|..], more, total, id)
  {
    var more, all := parts + [c.chunk], messages + [c];
    var tail := all[|all| - |more|..];
    assert tail == messages[|messages| - |parts|..] + [c];
    forall k | 0 <= k < |more|
      ensures tail[k] == TransitionChunk(more[k], k, total, id)
    {
      if k < |parts| { assert tail[k] == messages[|messages| - |parts|..][k]; }
    }
  }

  /**
   * Conversely, when an assembled Transition comes out, the last messages other than pings were exactly
   * all the parts of one split, in order, and the Transition is the decode of their texts joined.
   */
  lemma AssembledMeansAllParts(stream: seq<ServerMessage>, m: ServerMessage, decode: Decoder)
    returns (parts: seq<string>)
    requires m.TransitionChunk? && Feed(After(stream, decode), m, decode).1.Assembled?
    ensures |parts| == m.totalParts && |parts| >= 1
    ensures var messages := WithoutPings(stream + [m]);
            |parts| <= |messages| && ArePartsOf(messages[|messages| - |parts|..], parts, m.totalParts, m.transitionId)
    ensures decode(Concat(parts)) == Ok(Feed(After(stream, decode), m, decode).1.transition)
  {
    var s := After(stream, decode);
    var held := BufferIsAccounted(stream, decode);
    parts := held + [m.chunk];
    assert (stream + [m])[..|stream|] == stream;
    OneMorePart(WithoutPings(stream), m, held, m.totalParts, m.transitionId);
    assert parts[..|held|] == held;
  }
}
