/** Messages of the sync protocol (include/convex/protocol.h, src/protocol.cpp). */
module Protocol {
  import opened Wrappers
  import opened Values

  type QueryId = nat
  type RequestId = nat
  type Timestamp = nat

  datatype AuthToken =
    | NoToken
    | User(jwt: string)
    | Admin(deployKey: string, actingAs: Option<ValueObject>)

  datatype QueryModification =
    | Add(id: QueryId, udfPath: string, argsJson: string, journal: Option<string>)
    | Remove(id: QueryId)

  datatype ClientMessage =
    | Connect(connectionCount: nat, lastCloseReason: string, maxObserved: Option<Timestamp>)
    | Authenticate(baseVersion: nat, token: AuthToken)
    | ModifyQuerySet(base: nat, new_: nat, modifications: seq<QueryModification>)
    | MutationRequest(id: RequestId, udfPath: string, argsJson: string)
    | ActionRequest(id: RequestId, udfPath: string, argsJson: string)
  {
    predicate IsRequest() { MutationRequest? || ActionRequest? }
  }

  datatype StateVersion = StateVersion(querySet: nat, identity: nat, ts: Timestamp)

  datatype StateModification =
    | QueryUpdated(id: QueryId, result: Value, journal: Option<string>)
    | QueryFailed(id: QueryId, message: string, data: Option<Value>, journal: Option<string>)
    | QueryRemoved(id: QueryId)

  datatype ServerMessage =
    | Transition(start: StateVersion, end: StateVersion, modifications: seq<StateModification>)
    | MutationResponse(id: RequestId, result: FunctionResult, ts: Option<Timestamp>)
    | ActionResponse(id: RequestId, result: FunctionResult)
    | AuthError(error: string, updateAttempted: bool)
    | FatalError(error: string)
    | Ping
    | TransitionChunk(chunk: string, partNumber: nat, totalParts: nat, transitionId: string)

  // ---- Function paths -------------------------------------------------

  /** Position of the first ':' in `path`, or |path| when there is none. */
  function FirstColon(path: string): (k: nat)
    ensures k <= |path|
  {
    if path == [] || path[0] == ':' then 0 else 1 + FirstColon(path[1..])
  }

  lemma {:induction false} NoColonBefore(path: string)
    ensures ':' !in path[..FirstColon(path)]
  {
    if path != [] && path[0] != ':' {
      NoColonBefore(path[1..]);
      var k := FirstColon(path);
      assert path[..k] == [path[0]] + path[1..][..k - 1];
    }
  }

  predicate EndsWithJs(s: string) { |s| >= 3 && s[|s| - 3..] == ".js" }

  /** The module part, as written. */
  function ModulePart(path: string): string { path[..FirstColon(path)] }

  function StripJs(s: string): string { if EndsWithJs(s) then s[..|s| - 3] else s }

  function FunctionPart(path: string): string {
    if FirstColon(path) == |path| then "default" else path[FirstColon(path) + 1..]
  }

  /** canonicalize_udf_path. */
  function Canonicalize(path: string): string {
    StripJs(ModulePart(path)) + ":" + FunctionPart(path)
  }

  lemma {:induction false} FirstColonAfter(m: string, rest: string)
    requires ':' !in m
    ensures FirstColon(m + ":" + rest) == |m|
  {
    var p := m + ":" + rest;
    if m != [] {
      assert m[0] in m && forall c :: c in m[1..] ==> c in m;
      assert p[1..] == m[1..] + ":" + rest;
      FirstColonAfter(m[1..], rest);
    }
  }

  /**
   * Every path is a module part without a colon, alone or followed by a colon and a function part. One ".js" is taken
   * off the module part, and a missing function part is "default".
   */
  lemma CanonicalForm(m: string, f: string)
    requires ':' !in m
    ensures Canonicalize(m + ".js" + ":" + f) == m + ":" + f
    ensures Canonicalize(m + ".js") == m + ":default"
    ensures (forall b :: m != b + ".js") ==>
              Canonicalize(m + ":" + f) == m + ":" + f && Canonicalize(m) == m + ":default"
  {
    hide Canonicalize, EndsWithJs, StripJs;
    StrippedForm(m + ".js", f);
    StrippedForm(m, f);
    JsStripped(m);
    if forall b :: m != b + ".js" { NothingStripped(m); }
  }

  lemma JsStripped(m: string)
    ensures StripJs(m + ".js") == m
  {
    assert (m + ".js")[..|m|] == m && (m + ".js")[|m|..] == ".js";
  }

  lemma NothingStripped(m: string)
    requires forall b :: m != b + ".js"
    ensures StripJs(m) == m
  {
    if EndsWithJs(m) { assert m == m[..|m| - 3] + ".js"; }
  }

  lemma StrippedForm(m: string, f: string)
    requires ':' !in m
    ensures Canonicalize(m + ":" + f) == StripJs(m) + ":" + f
    ensures Canonicalize(m) == StripJs(m) + ":default"
  {
    FirstColonAfter(m, f);
    assert (m + ":" + f)[..|m|] == m && (m + ":" + f)[|m| + 1..] == f;
    NoColonAtAll(m);
    assert m[..|m|] == m;
  }

  lemma {:induction false} NoColonAtAll(m: string)
    requires ':' !in m
    ensures FirstColon(m) == |m|
  {
    if m != [] {
      assert m[0] in m && forall c :: c in m[1..] ==> c in m;
      NoColonAtAll(m[1..]);
    }
  }

  lemma CanonicalParts(path: string)
    ensures ModulePart(Canonicalize(path)) == StripJs(ModulePart(path))
    ensures FunctionPart(Canonicalize(path)) == FunctionPart(path)
  {
    var m, f := StripJs(ModulePart(path)), FunctionPart(path);
    NoColonBefore(path);
    FirstColonAfter(m, f);
    var c := Canonicalize(path);
    assert c[..|m|] == m && c[|m| + 1..] == f;
  }

  /** Canonicalizing twice changes nothing, except for a module part written with a double ".js". */
  lemma CanonicalizeIdempotentIff(path: string)
    ensures Canonicalize(Canonicalize(path)) == Canonicalize(path)
            <==> !(EndsWithJs(ModulePart(path)) && EndsWithJs(StripJs(ModulePart(path))))
  {
    CanonicalParts(path);
    var c := Canonicalize(path);
    CanonicalParts(c);
    if Canonicalize(c) == c {
      assert ModulePart(Canonicalize(c)) == ModulePart(c);
    }
  }

  /** The exception: "a.js.js:f" becomes "a.js:f", and that becomes "a:f". */
  lemma DoubleJsStripsTwice(m: string, f: string)
    requires ':' !in m && EndsWithJs(m) && EndsWithJs(StripJs(m))
    ensures Canonicalize(m + ":" + f) == StripJs(m) + ":" + f
    ensures Canonicalize(Canonicalize(m + ":" + f)) == StripJs(StripJs(m)) + ":" + f
  {
    FirstColonAfter(m, f);
    assert ModulePart(m + ":" + f) == m && FunctionPart(m + ":" + f) == f;
    CanonicalParts(m + ":" + f);
  }
}
