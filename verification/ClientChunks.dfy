/** The chunk assembler inside the client: what is buffered follows the messages read since the last disconnect. */
module ClientChunks {
  import opened Wrappers
  import opened Protocol
  import opened Chunks
  import opened ClientSpec
  import opened ClientRuns
  import Spec = BaseClientSpec
  import Runs = BaseClientRuns

  /** The message a frame of the current generation is read as. */
  function Read(c: State, op: Op, decode: Decoder): seq<ServerMessage> {
    if !op.FrameArrived? || c.stopping || op.gen != c.connGen || decode(op.text).Err? then []
    else [decode(op.text).value]
  }

  /** begin_disconnect is what moves on to a new generation, but for a new attempt to connect and shutdown. */
  ghost predicate Disconnects(c: State, op: Op, decode: Decoder) {
    !op.ConnectBegun? && !op.ShutDown? && Step(c, op, decode).connGen != c.connGen
  }

  /** Every message read since the last disconnect. */
  ghost function Heard(ops: seq<Op>, decode: Decoder): seq<ServerMessage> {
    if ops == [] then []
    else
      var init, op := ops[..|ops| - 1], ops[|ops| - 1];
      var c := Execute(init, decode);
      if Disconnects(c, op, decode) then [] else Heard(init, decode) + Read(c, op, decode)
  }

  lemma AfterNext(stream: seq<ServerMessage>, m: ServerMessage, decode: Decoder)
    ensures After(stream + [m], decode) == Handle(After(stream, decode), m, decode).0
  {
    assert (stream + [m])[..|stream|] == stream;
  }

  /** `c1` is disconnected, or has the chunks of `c`. */
  ghost predicate ChunksKept(c: State, c1: State) {
    if c1.connGen == c.connGen then c1.chunks == c.chunks else c1.chunks == IDLE
  }

  lemma DisconnectKeepsChunks(c: State, reason: string, fetched: Option<AuthToken>)
    ensures ChunksKept(c, Disconnect(c, reason, fetched)) && Disconnect(c, reason, fetched).connGen != c.connGen
  {
  }

  lemma RejectKeepsChunks(c: State, r: Spec.ReceiveResult, fetched: Option<AuthToken>)
    requires r.reconnectReason.Some?
    ensures ChunksKept(c, Reject(c, r, fetched))
  {
    var reason := r.reconnectReason.value;
    var c1 := if r.authError then AfterAuthError(c, reason, r.authUpdateAttempted) else c;
    assert c1.connGen == c.connGen;
    DisconnectKeepsChunks(c1, reason, fetched);
  }

  lemma DeliverKeepsChunks(c: State, m: ServerMessage, fetched: Option<AuthToken>)
    ensures ChunksKept(c, Deliver(c, m, fetched))
  {
    var r := Spec.Receive(c.base.s, m).1;
    var c1 := c.(base := Runs.Step(c.base, Runs.Receiving(m)));
    if r.reconnectReason.Some? {
      RejectKeepsChunks(c1, r, fetched);
    } else {
      assert ChunksKept(c, Absorb(c1, r));
    }
  }

  lemma FrameFollows(c: State, op: Op, decode: Decoder, heard: seq<ServerMessage>)
    requires c.chunks == After(heard, decode) && op.FrameArrived? && !c.stopping && op.gen == c.connGen
    ensures Step(c, op, decode).chunks
            == if Disconnects(c, op, decode) then IDLE else After(heard + Read(c, op, decode), decode)
  {
    match decode(op.text)
    case Err(why) =>
      MalformedStep(c, op, decode);
      DisconnectKeepsChunks(c, "ProtocolError: " + why, op.fetched);
    case Ok(m) =>
      AfterNext(heard, m, decode);
      if m.TransitionChunk? {
        var (chunks, fed) := Feed(c.chunks, m, decode);
        var c1 := c.(chunks := chunks);
        ChunkStep(c, op, decode, m);
        match fed
        case Partial =>
        case Rejected(why) => DisconnectKeepsChunks(c1, "ProtocolError: " + why, op.fetched);
        case Assembled(t) => DeliverKeepsChunks(c1, t, op.fetched);
      } else {
        WholeMessageStep(c, op, decode, m);
        DeliverKeepsChunks(if m.Ping? then c else c.(chunks := IDLE), m, op.fetched);
      }
  }

  lemma ConnectEndKeepsChunks(c: State, failure: Option<string>, fetched: Option<AuthToken>)
    ensures ChunksKept(c, FinishConnect(c, failure, fetched))
  {
    hide Disconnect, Runs.Step, Spec.MakeConnect;
    if failure.Some? { DisconnectKeepsChunks(c.(connecting := None), ConnectFailed(failure.value), fetched); }
  }

  lemma InactivityKeepsChunks(c: State, fetched: Option<AuthToken>)
    ensures ChunksKept(c, Inactive(c, fetched))
  {
    hide Disconnect;
    DisconnectKeepsChunks(c, "InactiveServer", fetched);
  }

  lemma OtherStepsKeepChunks(c: State, op: Op, decode: Decoder)
    requires !op.FrameArrived? || c.stopping || op.gen != c.connGen
    ensures Step(c, op, decode).chunks == if Disconnects(c, op, decode) then IDLE else c.chunks
  {
    hide Disconnect, FinishConnect, Inactive, Deliver, Feed, Runs.Step, Spec.Subscribe, Spec.Request, Spec.MakeConnect,
      AddSub, RemoveSub, Orphans;
    match op
    case SocketClosed(_, reason, fetched) => DisconnectKeepsChunks(c, reason, fetched);
    case ConnectEnded(failure, fetched) => ConnectEndKeepsChunks(c, failure, fetched);
    case InactivityFound(fetched) => InactivityKeepsChunks(c, fetched);
    case _ =>
  }

  /**
   * In every run of the client, what is buffered is what handling the messages read since the last
   * disconnect leaves; so the theorems about streams hold of what each connection delivers.
   */
  lemma {:induction false} ChunksFollowStream(ops: seq<Op>, decode: Decoder)
    ensures Execute(ops, decode).chunks == After(Heard(ops, decode), decode)
  {
    if ops != [] {
      var init, op := ops[..|ops| - 1], ops[|ops| - 1];
      var c, heard := Execute(init, decode), Heard(init, decode);
      ChunksFollowStream(init, decode);
      if op.FrameArrived? && !c.stopping && op.gen == c.connGen {
        FrameFollows(c, op, decode, heard);
      } else {
        OtherStepsKeepChunks(c, op, decode);
        assert heard + [] == heard;
      }
    }
  }

  /** A partial buffer is never complete: the assembler can always be fed. */
  lemma ChunksAlwaysReady(ops: seq<Op>, decode: Decoder)
    ensures var s := Execute(ops, decode).chunks; s.total == 0 || s.received < s.total
  {
    ChunksFollowStream(ops, decode);
    var parts := BufferIsAccounted(Heard(ops, decode), decode);
  }
}
