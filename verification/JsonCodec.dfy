/** Values, and the JSON DOM that carries them on the wire (src/json_codec.cpp). */
module JsonCodec {
  import opened Wrappers
  import opened Ordering
  import opened Values
  import Base64

  /** A parsed JSON document; a number is held as the double it is read as. */
  datatype Json =
    | JNull
    | JBool(b: bool)
    | JNumber(bits: Bits64)
    | JString(text: string)
    | JArray(items: seq<Json>)
    | JObject(fields: map<string, Json>)

  // ---- 64 bits as eight little-endian bytes --------------------------------------

  function Bytes(n: nat, count: nat): (b: seq<Byte>)
    ensures |b| == count
  {
    if count == 0 then [] else [n % 256] + Bytes(n / 256, count - 1)
  }

  function Number(b: seq<Byte>): nat {
    if b == [] then 0 else b[0] + 256 * Number(b[1..])
  }

  function Limit(count: nat): nat {
    if count == 0 then 1 else 256 * Limit(count - 1)
  }

  lemma {:induction false} NumberOfBytes(n: nat, count: nat)
    requires n < Limit(count)
    ensures Number(Bytes(n, count)) == n
  {
    if count > 0 {
      NumberOfBytes(n / 256, count - 1);
      assert Bytes(n, count)[1..] == Bytes(n / 256, count - 1);
    }
  }

  lemma LowByte(low: Byte, high: nat)
    ensures (low + 256 * high) % 256 == low && (low + 256 * high) / 256 == high
  {
  }

  lemma {:induction false} BytesOfNumber(b: seq<Byte>)
    ensures Number(b) < Limit(|b|) && Bytes(Number(b), |b|) == b
  {
    if b != [] {
      BytesOfNumber(b[1..]);
      LowByte(b[0], Number(b[1..]));
      assert b == [b[0]] + b[1..];
    }
  }

  lemma EightBytes()
    ensures Limit(8) == 0x1_0000_0000_0000_0000
  {
    assert Limit(2) == 0x1_0000;
    assert Limit(4) == 0x1_0000_0000;
    assert Limit(6) == 0x1_0000_0000_0000;
  }

  /** to_le_bytes, then base64_encode. */
  function Packed(bits: Bits64): string { Base64.Encoded(Bytes(bits, 8)) }

  /** decode_b64, then from_le_bytes; None where they throw. */
  function Unpacked(text: string): (bits: Option<Bits64>) {
    var b := Base64.Decoded(text);
    if b.None? || |b.value| != 8 then None
    else
      BytesOfNumber(b.value);
      EightBytes();
      Some(Number(b.value))
  }

  lemma UnpackedPacked(bits: Bits64)
    ensures Unpacked(Packed(bits)) == Some(bits)
  {
    Base64.DecodeAfterEncode(Bytes(bits, 8));
    EightBytes();
    NumberOfBytes(bits, 8);
  }

  lemma PackedUnpacked(text: string)
    requires Unpacked(text).Some?
    ensures Packed(Unpacked(text).value) == text <==> Base64.Tidy(text)
  {
    BytesOfNumber(Base64.Decoded(text).value);
    Base64.EncodeAfterDecodeIff(text);
  }

  /** The two's complement pattern of a signed integer. */
  function Pattern(n: Int64): Bits64 { if n < 0 then n + 0x1_0000_0000_0000_0000 else n }

  function Signed(bits: Bits64): Int64 {
    if bits < 0x8000_0000_0000_0000 then bits else bits - 0x1_0000_0000_0000_0000
  }

  lemma SignedPattern(n: Int64, bits: Bits64)
    ensures Signed(Pattern(n)) == n && Pattern(Signed(bits)) == bits
  {
  }

  // ---- Doubles, by their bits ------------------------------------------------------

  const NEGATIVE_ZERO: Bits64 := 0x8000_0000_0000_0000
  const CANONICAL_NAN: Bits64 := 0x7FF8_0000_0000_0000

  predicate IsFinite(bits: Bits64) { bits / 0x10_0000_0000_0000 % 2048 != 2047 }

  predicate IsNaN(bits: Bits64) { !IsFinite(bits) && bits % 0x10_0000_0000_0000 != 0 }

  /** is_special_float: what a bare JSON number cannot carry. */
  predicate IsSpecial(bits: Bits64) { !IsFinite(bits) || bits == NEGATIVE_ZERO }

  function Quieted(bits: Bits64): Bits64 { if IsNaN(bits) then CANONICAL_NAN else bits }

  lemma QuietedFacts(bits: Bits64)
    ensures IsSpecial(Quieted(bits)) == IsSpecial(bits) && Quieted(Quieted(bits)) == Quieted(bits)
    ensures IsNaN(Quieted(bits)) == IsNaN(bits)
  {
  }

  // ---- Encoding ----------------------------------------------------------------------

  predicate ValidFieldName(name: string) {
    && name != "" && |name| <= 1024 && name[0] != '$'
    && forall k :: 0 <= k < |name| ==> 32 <= name[k] as int <= 126
  }

  /** validate_field_name; false where it throws. */
  method ValidateFieldName(name: string) returns (ok: bool)
    ensures ok == ValidFieldName(name)
  {
    if name == "" { return false; }
    if |name| > 1024 { return false; }
    if name[0] == '$' { return false; }
    for i := 0 to |name|
      invariant forall k :: 0 <= k < i ==> 32 <= name[k] as int <= 126
    {
      var u := name[i] as int;
      if u < 32 || u > 126 { return false; }
    }
    ok := true;
  }

  /** Every field name, at every depth, is one the wire allows. */
  predicate Encodable(v: Value) {
    match v
    case Array(items) => forall i :: 0 <= i < |items| ==> Encodable(items[i])
    case Object(fields) => forall name :: name in fields ==> ValidFieldName(name) && Encodable(fields[name])
    case _ => true
  }

  function Wrapped(key: string, payload: string): Json { JObject(map[key := JString(payload)]) }

  function Dom(v: Value): Json
    requires Encodable(v)
  {
    match v
    case Null => JNull
    case Boolean(b) => JBool(b)
    case Integer(n) => Wrapped("$integer", Packed(Pattern(n)))
    case Float(bits) => if IsSpecial(bits) then Wrapped("$float", Packed(Quieted(bits))) else JNumber(bits)
    case Text(text) => JString(text)
    case Binary(data) => Wrapped("$bytes", Base64.Encoded(data))
    case Array(items) => JArray(seq(|items|, i requires 0 <= i < |items| => Dom(items[i])))
    case Object(fields) => JObject(map name | name in fields :: Dom(fields[name]))
  }

  /** value_to_json; None where it throws codec_error. */
  method ValueToJson(v: Value) returns (j: Option<Json>)
    ensures j == if Encodable(v) then Some(Dom(v)) else None
    decreases v
  {
    match v
    case Null => j := Some(JNull);
    case Boolean(b) => j := Some(JBool(b));
    case Integer(n) =>
      var payload := Base64.Encode(Bytes(Pattern(n), 8));
      j := Some(Wrapped("$integer", payload));
    case Float(bits) =>
      if IsSpecial(bits) {
        var payload := Base64.Encode(Bytes(Quieted(bits), 8));
        j := Some(Wrapped("$float", payload));
      } else {
        j := Some(JNumber(bits));
      }
    case Text(text) => j := Some(JString(text));
    case Binary(data) =>
      var payload := Base64.Encode(data);
      j := Some(Wrapped("$bytes", payload));
    case Array(items) =>
      var out: seq<Json> := [];
      for i := 0 to |items|
        invariant |out| == i
        invariant forall k :: 0 <= k < i ==> Encodable(items[k]) && out[k] == Dom(items[k])
      {
        var item := ValueToJson(items[i]);
        if item.None? { return None; }
        out := out + [item.value];
      }
      assert out == Dom(v).items;
      j := Some(JArray(out));
    case Object(fields) =>
      var out: map<string, Json> := map[];
      var todo := fields.Keys;
      while todo != {}
        invariant todo <= fields.Keys && out.Keys == fields.Keys - todo
        invariant forall name :: name in out ==>
                    ValidFieldName(name) && Encodable(fields[name]) && out[name] == Dom(fields[name])
        decreases |todo|
      {
        var name := FirstString(todo);
        var ok := ValidateFieldName(name);
        if !ok { return None; }
        var field := ValueToJson(fields[name]);
        if field.None? { return None; }
        out := out[name := field.value];
        todo := todo - {name};
      }
      assert out == Dom(v).fields;
      j := Some(JObject(out));
  }

  // ---- Decoding ----------------------------------------------------------------------

  function DecodeInteger(payload: Json): Option<Value> {
    if !payload.JString? || Unpacked(payload.text).None? then None
    else Some(Integer(Signed(Unpacked(payload.text).value)))
  }

  /** Only what a bare number cannot carry may come wrapped. */
  function DecodeFloat(payload: Json): Option<Value> {
    if !payload.JString? || Unpacked(payload.text).None? then None
    else if !IsSpecial(Unpacked(payload.text).value) then None
    else Some(Float(Unpacked(payload.text).value))
  }

  function DecodeBytes(payload: Json): Option<Value> {
    if !payload.JString? || Base64.Decoded(payload.text).None? then None
    else Some(Binary(Base64.Decoded(payload.text).value))
  }

  /** `key` is the only field. */
  predicate Sole(fields: map<string, Json>, key: string) { fields.Keys == {key} }

  predicate Retired(fields: map<string, Json>) { Sole(fields, "$set") || Sole(fields, "$map") }

  predicate IsPlain(fields: map<string, Json>) {
    !Sole(fields, "$integer") && !Sole(fields, "$float") && !Sole(fields, "$bytes") && !Retired(fields)
  }

  /** What json_to_value makes of a document; None where it throws codec_error. */
  function Decoded(j: Json): Option<Value> {
    match j
    case JNull => Some(Null)
    case JBool(b) => Some(Boolean(b))
    case JNumber(bits) => Some(Float(bits))
    case JString(text) => Some(Text(text))
    case JArray(items) =>
      if forall i :: 0 <= i < |items| ==> Decoded(items[i]).Some? then
        Some(Array(seq(|items|, i requires 0 <= i < |items| => Decoded(items[i]).value)))
      else None
    case JObject(fields) =>
      if Sole(fields, "$integer") then DecodeInteger(fields["$integer"])
      else if Sole(fields, "$float") then DecodeFloat(fields["$float"])
      else if Sole(fields, "$bytes") then DecodeBytes(fields["$bytes"])
      else if Retired(fields) then None
      else if forall name :: name in fields ==> Decoded(fields[name]).Some? then
        Some(Object(map name | name in fields :: Decoded(fields[name]).value))
      else None
  }

  /** json_to_value. */
  method JsonToValue(j: Json) returns (v: Option<Value>)
    requires InBytes(j)
    ensures v == Decoded(j)
    decreases j, 2
  {
    match j
    case JNull => v := Some(Null);
    case JBool(b) => v := Some(Boolean(b));
    case JNumber(bits) => v := Some(Float(bits));
    case JString(text) => v := Some(Text(text));
    case JArray(items) => v := DecodeItems(j, items);
    case JObject(fields) => v := DecodeObject(j, fields);
  }

  /** A lone reserved name wraps something else; any other object is a plain one. */
  method DecodeObject(ghost j: Json, fields: map<string, Json>) returns (v: Option<Value>)
    requires j == JObject(fields) && InBytes(j)
    ensures v == Decoded(j)
    decreases j, 1
  {
    if |fields| == 1 {
      var key := FirstString(fields.Keys);
      OnlyKey(fields, key);
      if key == "$integer" || key == "$float" || key == "$bytes" {
        assert Sole(fields, key);
        if !fields[key].JString? { return None; }
        assert fields[key] == JString(fields[key].text);
        v := Unwrap(key, fields[key].text);
        return;
      }
      if key == "$set" || key == "$map" {
        assert Sole(fields, key);
        return None;
      }
    } else {
      SeveralKeys(fields);
    }
    assert IsPlain(fields);
    v := DecodeFields(j, fields);
  }

  lemma OnlyKey(fields: map<string, Json>, key: string)
    requires |fields| == 1 && key in fields
    ensures fields.Keys == {key}
    ensures forall other :: Sole(fields, other) <==> other == key
  {
    assert |fields.Keys| == 1;
    assert |fields.Keys - {key}| == 0;
    assert fields.Keys == {key};
    forall other: string
      ensures Sole(fields, other) <==> other == key
    {
      assert other in {other};
    }
  }

  lemma SeveralKeys(fields: map<string, Json>)
    requires |fields| != 1
    ensures forall key :: !Sole(fields, key)
  {
    assert |fields.Keys| == |fields|;
    forall key: string
      ensures !Sole(fields, key)
    {
      assert |{key}| == 1;
    }
  }

  method Unwrap(key: string, text: string) returns (v: Option<Value>)
    requires Base64.InBytes(text)
    requires key == "$integer" || key == "$float" || key == "$bytes"
    ensures v == if key == "$integer" then DecodeInteger(JString(text))
                 else if key == "$float" then DecodeFloat(JString(text))
                 else DecodeBytes(JString(text))
  {
    var bytes := Base64.Decode(text);
    if bytes.None? { return None; }
    if key == "$bytes" { return Some(Binary(bytes.value)); }
    if |bytes.value| != 8 { return None; }
    BytesOfNumber(bytes.value);
    EightBytes();
    var bits: Bits64 := Number(bytes.value);
    if key == "$integer" {
      v := Some(Integer(Signed(bits)));
    } else {
      v := if !IsSpecial(bits) then None else Some(Float(bits));
    }
  }

  method DecodeItems(ghost j: Json, items: seq<Json>) returns (v: Option<Value>)
    requires j == JArray(items) && InBytes(j)
    ensures v == Decoded(j)
    decreases j, 0
  {
    var out: seq<Value> := [];
    for i := 0 to |items|
      invariant |out| == i
      invariant forall k :: 0 <= k < i ==> Decoded(items[k]) == Some(out[k])
    {
      var item := JsonToValue(items[i]);
      if item.None? { return None; }
      out := out + [item.value];
    }
    assert out == Decoded(j).value.items;
    v := Some(Array(out));
  }

  method DecodeFields(ghost j: Json, fields: map<string, Json>) returns (v: Option<Value>)
    requires j == JObject(fields) && InBytes(j) && IsPlain(fields)
    ensures v == Decoded(j)
    decreases j, 0
  {
    var out: map<string, Value> := map[];
    var todo := fields.Keys;
    while todo != {}
      invariant todo <= fields.Keys && out.Keys == fields.Keys - todo
      invariant forall name :: name in out ==> Decoded(fields[name]) == Some(out[name])
      decreases |todo|
    {
      var name := FirstString(todo);
      var field := JsonToValue(fields[name]);
      if field.None? { return None; }
      out := out[name := field.value];
      todo := todo - {name};
    }
    assert out == Decoded(j).value.fields;
    v := Some(Object(out));
  }

  /** Every string of the document holds bytes, as a std::string does. */
  ghost predicate InBytes(j: Json) {
    match j
    case JString(text) => Base64.InBytes(text)
    case JArray(items) => forall i :: 0 <= i < |items| ==> InBytes(items[i])
    case JObject(fields) => forall name :: name in fields ==> InBytes(fields[name])
    case _ => true
  }

  // ---- Round trip ----------------------------------------------------------------------

  /** The value with every NaN made the canonical one. */
  function Canonical(v: Value): Value {
    match v
    case Float(bits) => Float(Quieted(bits))
    case Array(items) => Array(seq(|items|, i requires 0 <= i < |items| => Canonical(items[i])))
    case Object(fields) => Object(map name | name in fields :: Canonical(fields[name]))
    case _ => v
  }

  lemma PlainNames(fields: map<string, Json>)
    requires forall name :: name in fields ==> ValidFieldName(name)
    ensures IsPlain(fields)
  {
    assert !ValidFieldName("$integer") && !ValidFieldName("$float") && !ValidFieldName("$bytes");
    assert !ValidFieldName("$set") && !ValidFieldName("$map");
    assert "$integer" in {"$integer"} && "$float" in {"$float"} && "$bytes" in {"$bytes"};
    assert "$set" in {"$set"} && "$map" in {"$map"};
  }

  ghost predicate RoundTrips(v: Value) { Encodable(v) && Decoded(Dom(v)) == Some(Canonical(v)) }

  lemma ArrayRoundTrips(items: seq<Value>)
    requires forall i :: 0 <= i < |items| ==> RoundTrips(items[i])
    ensures RoundTrips(Array(items))
  {
    var v := Array(items);
    assert Dom(v).JArray? && forall i :: 0 <= i < |items| ==> Dom(v).items[i] == Dom(items[i]);
    assert Decoded(Dom(v)).value.items == Canonical(v).items;
  }

  lemma ObjectRoundTrips(fields: map<string, Value>)
    requires forall name :: name in fields ==> ValidFieldName(name) && RoundTrips(fields[name])
    ensures RoundTrips(Object(fields))
  {
    var v := Object(fields);
    PlainNames(Dom(v).fields);
    assert Dom(v).JObject? && forall name :: name in fields ==> Dom(v).fields[name] == Dom(fields[name]);
    assert Decoded(Dom(v)).value.fields == Canonical(v).fields;
  }

  lemma IntegerRoundTrips(n: Int64)
    ensures RoundTrips(Integer(n))
  {
    UnpackedPacked(Pattern(n));
    SignedPattern(n, 0);
    OnlyKey(Wrapped("$integer", Packed(Pattern(n))).fields, "$integer");
  }

  lemma FloatRoundTrips(bits: Bits64)
    ensures RoundTrips(Float(bits))
  {
    QuietedFacts(bits);
    if IsSpecial(bits) { WrappedFloatDecodes(Quieted(bits)); }
  }

  lemma WrappedFloatDecodes(bits: Bits64)
    requires IsSpecial(bits)
    ensures Decoded(Wrapped("$float", Packed(bits))) == Some(Float(bits))
  {
    UnpackedPacked(bits);
    OnlyKey(Wrapped("$float", Packed(bits)).fields, "$float");
  }

  lemma BinaryRoundTrips(data: seq<Byte>)
    ensures RoundTrips(Binary(data))
  {
    Base64.DecodeAfterEncode(data);
    OnlyKey(Wrapped("$bytes", Base64.Encoded(data)).fields, "$bytes");
  }

  /** Whatever can be encoded decodes to itself, up to the payload of NaNs. */
  lemma {:induction false} DecodeAfterEncode(v: Value)
    requires Encodable(v)
    ensures Decoded(Dom(v)) == Some(Canonical(v))
    decreases v
  {
    match v
    case Integer(n) => IntegerRoundTrips(n);
    case Float(bits) => FloatRoundTrips(bits);
    case Binary(data) => BinaryRoundTrips(data);
    case Array(items) =>
      forall i | 0 <= i < |items|
        ensures RoundTrips(items[i])
      {
        DecodeAfterEncode(items[i]);
      }
      ArrayRoundTrips(items);
    case Object(fields) =>
      forall name | name in fields
        ensures RoundTrips(fields[name])
      {
        DecodeAfterEncode(fields[name]);
      }
      ObjectRoundTrips(fields);
    case _ =>
  }

  /** NaN payloads are all that encoding forgets. */
  lemma {:induction false} DomOfCanonical(v: Value)
    requires Encodable(v)
    ensures Encodable(Canonical(v)) && Dom(Canonical(v)) == Dom(v)
    decreases v
  {
    match v
    case Float(bits) => QuietedFacts(bits);
    case Array(items) =>
      forall i | 0 <= i < |items|
        ensures Encodable(Canonical(items[i])) && Dom(Canonical(items[i])) == Dom(items[i])
      {
        DomOfCanonical(items[i]);
      }
      assert Dom(Canonical(v)).items == Dom(v).items;
    case Object(fields) =>
      forall name | name in fields
        ensures Encodable(Canonical(fields[name])) && Dom(Canonical(fields[name])) == Dom(fields[name])
      {
        DomOfCanonical(fields[name]);
      }
      assert Dom(Canonical(v)).fields == Dom(v).fields;
    case _ =>
  }

  /** Two values are encoded alike exactly when they are the same up to NaN payloads. */
  lemma EncodedAlikeIff(v: Value, w: Value)
    requires Encodable(v) && Encodable(w)
    ensures Dom(v) == Dom(w) <==> Canonical(v) == Canonical(w)
  {
    DecodeAfterEncode(v);
    DecodeAfterEncode(w);
    DomOfCanonical(v);
    DomOfCanonical(w);
  }

  // ---- What decodes without loss ---------------------------------------------------

  /** A document as an encoder writes it: tidy base64, no needless wrapping, allowed field names only. */
  ghost predicate Strict(j: Json) {
    match j
    case JNumber(bits) => !IsSpecial(bits)
    case JArray(items) => forall i :: 0 <= i < |items| ==> Strict(items[i])
    case JObject(fields) =>
      if Sole(fields, "$integer") then
        DecodeInteger(fields["$integer"]).Some? && Base64.Tidy(fields["$integer"].text)
      else if Sole(fields, "$float") then
        && DecodeFloat(fields["$float"]).Some? && Base64.Tidy(fields["$float"].text)
        && Quieted(DecodeFloat(fields["$float"]).value.bits) == DecodeFloat(fields["$float"]).value.bits
      else if Sole(fields, "$bytes") then
        DecodeBytes(fields["$bytes"]).Some? && Base64.Tidy(fields["$bytes"].text)
      else forall name :: name in fields ==> ValidFieldName(name) && Strict(fields[name])
    case _ => true
  }

  /** Re-encoding gives the document back exactly when it is strict. */
  ghost predicate Lossless(j: Json) {
    var v := Decoded(j);
    v.Some? && Encodable(v.value) && Dom(v.value) == j
  }

  lemma SoleIsWrapped(fields: map<string, Json>, key: string, text: string)
    requires Sole(fields, key) && fields[key].JString?
    ensures Wrapped(key, text) == JObject(fields) <==> text == fields[key].text
  {
    if text == fields[key].text { assert Wrapped(key, text).fields == fields; }
    if Wrapped(key, text) == JObject(fields) { assert Wrapped(key, text).fields[key] == JString(text); }
  }

  lemma IntegerLossless(fields: map<string, Json>)
    requires Sole(fields, "$integer")
    ensures Lossless(JObject(fields)) <==> Strict(JObject(fields))
  {
    var payload := fields["$integer"];
    if DecodeInteger(payload).Some? {
      var bits := Unpacked(payload.text).value;
      PackedUnpacked(payload.text);
      SignedPattern(0, bits);
      SoleIsWrapped(fields, "$integer", Packed(bits));
    }
  }

  lemma FloatLossless(fields: map<string, Json>)
    requires Sole(fields, "$float")
    ensures Lossless(JObject(fields)) <==> Strict(JObject(fields))
  {
    OnlyKey(fields, "$float");
    var payload := fields["$float"];
    if DecodeFloat(payload).Some? {
      var bits := Unpacked(payload.text).value;
      QuietedFacts(bits);
      assert Dom(Float(bits)) == Wrapped("$float", Packed(Quieted(bits)));
      SoleIsWrapped(fields, "$float", Packed(Quieted(bits)));
      QuietPayload(payload.text, bits);
    }
  }

  lemma QuietPayload(text: string, bits: Bits64)
    requires Unpacked(text) == Some(bits)
    ensures Packed(Quieted(bits)) == text <==> Base64.Tidy(text) && Quieted(bits) == bits
  {
    PackedUnpacked(text);
    UnpackedPacked(Quieted(bits));
  }

  lemma BytesLossless(fields: map<string, Json>)
    requires Sole(fields, "$bytes")
    ensures Lossless(JObject(fields)) <==> Strict(JObject(fields))
  {
    hide Base64.Decoded, Base64.Encoded, ValidFieldName;
    OnlyKey(fields, "$bytes");
    var payload := fields["$bytes"];
    if DecodeBytes(payload).Some? {
      Base64.EncodeAfterDecodeIff(payload.text);
      SoleIsWrapped(fields, "$bytes", Base64.Encoded(Base64.Decoded(payload.text).value));
    }
  }

  lemma LosslessFieldsMakeObject(fields: map<string, Json>)
    requires forall name :: name in fields ==> ValidFieldName(name) && Lossless(fields[name])
    ensures Lossless(JObject(fields))
  {
    PlainNames(fields);
    assert Dom(Decoded(JObject(fields)).value).fields == fields;
  }

  lemma FieldOfLosslessObject(fields: map<string, Json>, name: string)
    requires !Sole(fields, "$integer") && !Sole(fields, "$float") && !Sole(fields, "$bytes")
    requires Lossless(JObject(fields)) && name in fields
    ensures ValidFieldName(name) && Lossless(fields[name])
  {
    var v := Decoded(JObject(fields)).value;
    assert v.fields[name] == Decoded(fields[name]).value;
    assert Dom(v).fields[name] == fields[name];
  }

  lemma PlainLossless(fields: map<string, Json>)
    requires !Sole(fields, "$integer") && !Sole(fields, "$float") && !Sole(fields, "$bytes")
    ensures Lossless(JObject(fields))
            <==> forall name :: name in fields ==> ValidFieldName(name) && Lossless(fields[name])
  {
    hide Lossless, ValidFieldName, Sole;
    if forall name :: name in fields ==> ValidFieldName(name) && Lossless(fields[name]) {
      LosslessFieldsMakeObject(fields);
    }
    if Lossless(JObject(fields)) {
      forall name | name in fields
        ensures ValidFieldName(name) && Lossless(fields[name])
      {
        FieldOfLosslessObject(fields, name);
      }
    }
  }

  lemma ArrayLossless(items: seq<Json>)
    ensures Lossless(JArray(items)) <==> forall i :: 0 <= i < |items| ==> Lossless(items[i])
  {
    if forall i :: 0 <= i < |items| ==> Lossless(items[i]) {
      assert Dom(Decoded(JArray(items)).value).items == items;
    }
    if Lossless(JArray(items)) {
      var v := Decoded(JArray(items)).value;
      forall i | 0 <= i < |items|
        ensures Lossless(items[i])
      {
        assert v.items[i] == Decoded(items[i]).value;
        assert Dom(v).items[i] == items[i];
      }
    }
  }

  lemma {:induction false} LosslessIff(j: Json)
    ensures Lossless(j) <==> Strict(j)
    decreases j
  {
    match j
    case JArray(items) =>
      ArrayLossless(items);
      forall i | 0 <= i < |items|
        ensures Lossless(items[i]) <==> Strict(items[i])
      {
        LosslessIff(items[i]);
      }
    case JObject(fields) =>
      if Sole(fields, "$integer") {
        IntegerLossless(fields);
      } else if Sole(fields, "$float") {
        FloatLossless(fields);
      } else if Sole(fields, "$bytes") {
        BytesLossless(fields);
      } else {
        PlainLossless(fields);
        forall name | name in fields
          ensures Lossless(fields[name]) <==> Strict(fields[name])
        {
          LosslessIff(fields[name]);
        }
      }
    case _ =>
  }
}
