/**
 * Query identity (src/base_client.cpp, query_token): which subscriptions share one query on the wire.
 * The token joins the canonical path and the printed arguments with '|', and either may contain a '|'.
 */
module QueryTokens {
  import opened Wrappers
  import opened Values
  import opened Protocol
  import opened BaseClientSpec
  import Codec = JsonCodec
  import Ledger = BaseClientLedger
  import Runs = BaseClientRuns
  import History = BaseClientHistory
  import SyncSession
  import opened JsonText

  /** serialize_args: the arguments as a one-element JSON array; None where encoding throws. */
  ghost function SerializedArgs(args: ValueObject, show: Printer): Option<string> {
    if !Codec.Encodable(Object(args)) then None
    else Some("[" + Dump(Codec.Dom(Object(args)), show) + "]")
  }

  lemma SerializedArgsScan(args: ValueObject, show: Printer)
    requires Faithful(show) && SerializedArgs(args, show).Some?
    ensures Scan(Outside, SerializedArgs(args, show).value) == Some(Outside)
  {
    DumpScans(Codec.Dom(Object(args)), show);
    ScanBracketed('[', Dump(Codec.Dom(Object(args)), show), ']');
  }

  /** A '|' in the middle of a balanced text stands inside a string. */
  lemma BarIsInside(before: string, after: string)
    requires Scan(Outside, before + ("|" + after)) == Some(Outside)
    ensures Scan(Inside, after) == Some(Outside)
  {
    ScanConcat(Outside, before, "|" + after);
    assert ("|" + after)[1..] == after;
  }

  /** A token cannot be split in two ways into a path and a balanced text. */
  lemma ShorterPathImpossible(p1: string, a1: string, p2: string, a2: string)
    requires Token(p1, a1) == Token(p2, a2)
    requires Scan(Outside, a1) == Some(Outside) && Scan(Outside, a2) == Some(Outside)
    ensures |p1| >= |p2|
  {
    if |p1| < |p2| {
      var token := Token(p1, a1);
      var between := p2[|p1| + 1..];
      assert token[|p1| + 1..] == a1 && token[|p1| + 1..] == between + ("|" + a2);
      BarIsInside(between, a2);
      OppositeScans(Outside, Inside, a2);
    }
  }

  /** The token determines the path and the argument text, whatever characters the path holds. */
  lemma TokenDeterminesParts(p1: string, a1: string, p2: string, a2: string)
    requires Token(p1, a1) == Token(p2, a2)
    requires Scan(Outside, a1) == Some(Outside) && Scan(Outside, a2) == Some(Outside)
    ensures p1 == p2 && a1 == a2
  {
    ShorterPathImpossible(p1, a1, p2, a2);
    ShorterPathImpossible(p2, a2, p1, a1);
    var token := Token(p1, a1);
    assert token[..|p1|] == p1 && token[..|p2|] == p2;
    assert token[|p1| + 1..] == a1 && token[|p2| + 1..] == a2;
  }

  lemma {:induction false} DomIsFinite(v: Value)
    requires Codec.Encodable(v)
    ensures Finite(Codec.Dom(v))
    decreases v
  {
    match v
    case Array(items) =>
      forall i | 0 <= i < |items|
        ensures Finite(Codec.Dom(items[i]))
      {
        DomIsFinite(items[i]);
      }
    case Object(fields) =>
      forall name | name in fields
        ensures Finite(Codec.Dom(fields[name]))
      {
        DomIsFinite(fields[name]);
      }
    case _ =>
  }

  /** Argument objects print alike exactly when they are the same up to NaN payloads. */
  lemma SameArgsIff(a: ValueObject, b: ValueObject, show: Printer)
    requires Faithful(show) && SerializedArgs(a, show).Some? && SerializedArgs(b, show).Some?
    ensures SerializedArgs(a, show) == SerializedArgs(b, show)
            <==> Codec.Canonical(Object(a)) == Codec.Canonical(Object(b))
  {
    var x, y := Codec.Dom(Object(a)), Codec.Dom(Object(b));
    Codec.EncodedAlikeIff(Object(a), Object(b));
    if SerializedArgs(a, show) == SerializedArgs(b, show) {
      DomIsFinite(Object(a));
      DomIsFinite(Object(b));
      Unwrapped(Dump(x, show), Dump(y, show));
      DumpInjective(x, y, show);
    }
  }

  lemma Unwrapped(x: string, y: string)
    requires "[" + x + "]" == "[" + y + "]"
    ensures x == y
  {
    assert ("[" + x + "]")[1..|x| + 1] == x && ("[" + y + "]")[1..|y| + 1] == y;
  }

  /**
   * Two subscriptions have the same token exactly when their canonical paths are equal and their
   * arguments are the same up to NaN payloads.
   */
  lemma SameTokenIff(p1: string, a1: ValueObject, p2: string, a2: ValueObject, show: Printer)
    requires Faithful(show) && SerializedArgs(a1, show).Some? && SerializedArgs(a2, show).Some?
    ensures Token(Canonicalize(p1), SerializedArgs(a1, show).value)
            == Token(Canonicalize(p2), SerializedArgs(a2, show).value)
            <==> Canonicalize(p1) == Canonicalize(p2) && Codec.Canonical(Object(a1)) == Codec.Canonical(Object(a2))
  {
    var x, y := SerializedArgs(a1, show).value, SerializedArgs(a2, show).value;
    SameArgsIff(a1, a2, show);
    if Token(Canonicalize(p1), x) == Token(Canonicalize(p2), y) {
      SerializedArgsScan(a1, show);
      SerializedArgsScan(a2, show);
      TokenDeterminesParts(Canonicalize(p1), x, Canonicalize(p2), y);
    }
  }

  /**
   * In every run, any two handles held at the same time name one query exactly when they were asked for the
   * same function with the same arguments, up to NaN payloads.
   */
  lemma SubscribersShareIff(ops: seq<Runs.Op>, h1: SubscriberId, h2: SubscriberId, a1: ValueObject, a2: ValueObject,
                            show: Printer)
    requires Ledger.Disciplined(ops) && Faithful(show)
    requires var l := Ledger.Book(ops);
             && h1 in l.held && h1 in l.asked && SerializedArgs(a1, show) == Some(l.asked[h1].1)
             && h2 in l.held && h2 in l.asked && SerializedArgs(a2, show) == Some(l.asked[h2].1)
    ensures var asked := Ledger.Book(ops).asked;
            h1.query == h2.query
            <==> Canonicalize(asked[h1].0) == Canonicalize(asked[h2].0)
                 && Codec.Canonical(Object(a1)) == Codec.Canonical(Object(a2))
  {
    var asked := Ledger.Book(ops).asked;
    Ledger.HeldHandlesShareIff(ops, h1, h2);
    SameTokenIff(asked[h1].0, a1, asked[h2].0, a2, show);
  }

  /** Every argument text subscribed with is what some arguments serialize to. */
  ghost predicate AllSerialized(subscribed: set<(string, string)>, show: Printer) {
    forall asked :: asked in subscribed ==> exists args :: SerializedArgs(args, show) == Some(asked.1)
  }

  /**
   * In every run, a server that has replayed the connection evaluates, for each handle held, exactly the
   * function and the arguments that handle was asked for.
   */
  lemma HeldHandleIsServed(ops: seq<Runs.Op>, handle: SubscriberId, show: Printer)
    requires Ledger.Disciplined(ops) && Faithful(show) && AllSerialized(History.Recorded(ops).subscribed, show)
    requires handle in Ledger.Book(ops).held
    ensures var (r, asked) := (Runs.Execute(ops), Ledger.Book(ops).asked);
            && handle in asked && SyncSession.Replay(r.sent + r.s.outgoing).Some?
            && var queries := SyncSession.Replay(r.sent + r.s.outgoing).value.queries;
            && handle.query in queries
            && queries[handle.query] == SyncSession.Query(Canonicalize(asked[handle].0), asked[handle].1)
  {
    hide Scan, SyncSession.Replay, Faithful;
    Ledger.NamesAlways(ops);
    Runs.CoreAlways(ops);
    Runs.ServerReplica(ops);
    History.HandlesAsked(ops, handle);
    History.QueriesAskedAlways(ops);
    var s := Runs.Execute(ops).s;
    var (path, text) := Ledger.Book(ops).asked[handle];
    var q := s.querySet[s.idToToken[handle.query]];
    var other :| (other, q.argsJson) in History.Recorded(ops).subscribed && Canonicalize(other) == q.udfPath;
    SerializedScans(History.Recorded(ops).subscribed, (path, text), show);
    SerializedScans(History.Recorded(ops).subscribed, (other, q.argsJson), show);
    TokenDeterminesParts(Canonicalize(path), text, q.udfPath, q.argsJson);
  }

  lemma SerializedScans(subscribed: set<(string, string)>, asked: (string, string), show: Printer)
    requires Faithful(show) && AllSerialized(subscribed, show) && asked in subscribed
    ensures Scan(Outside, asked.1) == Some(Outside)
  {
    var args :| SerializedArgs(args, show) == Some(asked.1);
    SerializedArgsScan(args, show);
  }
}
