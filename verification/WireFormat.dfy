/**
 * What stands on the wire for a value, bit by bit: base64 as 24-bit groups (section 4 of RFC 4648), 64-bit numbers as
 * little-endian bytes, and the JSON shape of every value.
 */
module WireFormat {
  import opened Wrappers
  import opened Values
  import Base64
  import opened JsonCodec

  // ---- Base64 -----------------------------------------------------------------

  /** The value of a symbol in table 1 of RFC 4648; padding and anything else counts as zero. */
  function ValueOf(c: char): nat {
    var code := c as int;
    if 65 <= code <= 90 then code - 65
    else if 97 <= code <= 122 then code - 97 + 26
    else if 48 <= code <= 57 then code - 48 + 52
    else if code == 43 then 62
    else if code == 47 then 63
    else 0
  }

  predicate IsSymbol(c: char) {
    var code := c as int; 65 <= code <= 90 || 97 <= code <= 122 || 48 <= code <= 57 || code == 43 || code == 47
  }

  lemma SymbolsValued(d: Base64.Sextet)
    ensures IsSymbol(Base64.Symbol(d)) && ValueOf(Base64.Symbol(d)) == d
  {
  }

  lemma WorthIsValue(c: char)
    ensures Base64.Worth(c) == ValueOf(c)
  {
  }

  function ByteAt(data: seq<Byte>, i: nat): nat { if i < |data| then data[i] else 0 }

  /** Three bytes as one number, those past the end counting as zero. */
  function BytesGroup(data: seq<Byte>, g: nat): nat {
    ByteAt(data, 3 * g) * 0x1_0000 + ByteAt(data, 3 * g + 1) * 0x100 + ByteAt(data, 3 * g + 2)
  }

  function SextetWeight(j: nat): nat {
    if j == 0 then 0x4_0000 else if j == 1 then 0x1000 else if j == 2 then 64 else 1
  }

  function ByteWeight(j: nat): nat { if j == 0 then 0x1_0000 else if j == 1 then 0x100 else 1 }

  lemma SymbolsSpell(b0: Byte, b1: Byte, b2: Byte, j: nat)
    requires j < 4
    ensures var (c, n) := (Base64.Symbols(b0, b1, b2)[j], b0 * 0x1_0000 + b1 * 0x100 + b2);
            IsSymbol(c) && ValueOf(c) == n / SextetWeight(j) % 64
  {
    hide IsSymbol, ValueOf, Base64.Symbol, Base64.Sextet0, Base64.Sextet1, Base64.Sextet2, Base64.Sextet3;
    Base64.DigitsOfJoined(b0, b1, b2);
    SymbolsValued(Base64.Sextet0(b0));
    SymbolsValued(Base64.Sextet1(b0, b1));
    SymbolsValued(Base64.Sextet2(b1, b2));
    SymbolsValued(Base64.Sextet3(b2));
  }

  lemma EncodedNext(data: seq<Byte>)
    requires |data| >= 3
    ensures |Base64.Symbols(data[0], data[1], data[2])| == 4
    ensures Base64.Encoded(data) == Base64.Symbols(data[0], data[1], data[2]) + Base64.Encoded(data[3..])
  {
    hide Base64.Sextet0, Base64.Sextet1, Base64.Sextet2, Base64.Sextet3, Base64.Symbol;
  }

  /** The first group of an encoding. */
  lemma FirstGroup(data: seq<Byte>, j: nat)
    requires data != [] && j < 4
    ensures |Base64.Encoded(data)| >= 4
    ensures var c := Base64.Encoded(data)[j];
            if j > |data| then c == '=' else IsSymbol(c) && ValueOf(c) == BytesGroup(data, 0) / SextetWeight(j) % 64
  {
    hide IsSymbol, ValueOf, SextetWeight, Base64.Encoded, Base64.Symbols;
    FirstSymbols(data, j);
    SymbolsSpell(data[0], ByteAt(data, 1), ByteAt(data, 2), j);
  }

  lemma FirstSymbols(data: seq<Byte>, j: nat)
    requires data != [] && j < 4
    ensures |Base64.Encoded(data)| >= 4
    ensures ByteAt(data, 1) < 256 && ByteAt(data, 2) < 256
    ensures Base64.Encoded(data)[j]
            == if j > |data| then '=' else Base64.Symbols(data[0], ByteAt(data, 1), ByteAt(data, 2))[j]
  {
    hide Base64.Sextet0, Base64.Sextet1, Base64.Sextet2, Base64.Sextet3, Base64.Symbol;
    var four := Base64.Symbols(data[0], ByteAt(data, 1), ByteAt(data, 2));
    assert Base64.Encoded(data)[..4]
           == if |data| == 1 then four[..2] + "==" else if |data| == 2 then four[..3] + "=" else four;
  }

  /**
   * Every group of three bytes is written as four symbols, six bits each, high bits first; a last group that is short
   * of bytes is filled up with padding.
   */
  lemma {:induction false} EncodesGroups(data: seq<Byte>, g: nat, j: nat)
    requires 3 * g < |data| && j < 4
    ensures |Base64.Encoded(data)| == (|data| + 2) / 3 * 4
    ensures var c := Base64.Encoded(data)[4 * g + j];
            if 3 * g + j > |data| then c == '='
            else IsSymbol(c) && ValueOf(c) == BytesGroup(data, g) / SextetWeight(j) % 64
    decreases |data|
  {
    hide IsSymbol, ValueOf, SextetWeight, Base64.Symbols, Base64.Encoded;
    EncodedLength(data);
    if g == 0 {
      FirstGroup(data, j);
    } else {
      EncodesGroups(data[3..], g - 1, j);
      assert BytesGroup(data[3..], g - 1) == BytesGroup(data, g);
      EncodedNext(data);
    }
  }

  lemma ShortLength(data: seq<Byte>)
    requires |data| < 3
    ensures |Base64.Encoded(data)| == (if data == [] then 0 else 4)
  {
    hide Base64.Sextet0, Base64.Sextet1, Base64.Sextet2, Base64.Sextet3, Base64.Symbol;
  }

  lemma {:induction false} EncodedLength(data: seq<Byte>)
    ensures |Base64.Encoded(data)| == (|data| + 2) / 3 * 4
    decreases |data|
  {
    hide *;
    if |data| < 3 {
      ShortLength(data);
    } else {
      EncodedLength(data[3..]);
      EncodedNext(data);
    }
  }

  /** Four characters as one number. */
  function TextGroup(text: string, g: nat): nat
    requires 4 * g + 4 <= |text|
  {
    ((ValueOf(text[4 * g]) * 64 + ValueOf(text[4 * g + 1])) * 64 + ValueOf(text[4 * g + 2])) * 64
    + ValueOf(text[4 * g + 3])
  }

  /** How many bytes the last group falls short of, by its padding. */
  function Short(text: string): nat
    requires |text| >= 4
  {
    if text[|text| - 1] != '=' then 0 else if text[|text| - 2] != '=' then 1 else 2
  }

  lemma GroupRead(group: string, last: bool)
    requires |group| == 4 && Base64.Group(group, last).Some?
    ensures var b := Base64.Group(group, last).value;
            && |b| == 3 - Short(group) && (!last ==> |b| == 3)
            && forall j :: 0 <= j < |b| ==> b[j] == TextGroup(group, 0) / ByteWeight(j) % 0x100
  {
    hide ValueOf, Base64.Digit;
    Base64.SpelledIs(group);
    WorthIsValue(group[0]);
    WorthIsValue(group[1]);
    WorthIsValue(group[2]);
    WorthIsValue(group[3]);
  }

  /** Every group of four characters stands for the three bytes of its number, less the ones padded away at the end. */
  lemma {:induction false} DecodesGroups(text: string, g: nat, j: nat)
    requires Base64.Decoded(text).Some? && 4 * g < |text| && j < 3
    ensures 4 * g + 4 <= |text|
    ensures |Base64.Decoded(text).value| == |text| / 4 * 3 - Short(text)
    ensures var b := Base64.Decoded(text).value;
            3 * g + j < |b| ==> b[3 * g + j] == TextGroup(text, g) / ByteWeight(j) % 0x100
    decreases |text|
  {
    hide ValueOf, ByteWeight, Base64.Group;
    var first, rest := Base64.Group(text[..4], |text| == 4), Base64.Groups(text[4..]);
    GroupRead(text[..4], |text| == 4);
    if |text| > 4 {
      if g > 0 {
        DecodesGroups(text[4..], g - 1, j);
        assert TextGroup(text[4..], g - 1) == TextGroup(text, g);
      } else {
        DecodesGroups(text[4..], 0, j);
      }
    }
  }

  // ---- 64-bit numbers -----------------------------------------------------------

  function Power(base: nat, e: nat): nat { if e == 0 then 1 else base * Power(base, e - 1) }

  lemma {:induction false} PowerPositive(e: nat)
    ensures Power(256, e) >= 1
  {
    if e > 0 { PowerPositive(e - 1); }
  }

  lemma QuotientIs(n: nat, d: nat, q: nat, r: nat)
    requires n == q * d + r && r < d
    ensures n / d == q
  {
    var q1, r1 := n / d, n % d;
    assert n == d * q1 + r1;
    if q1 < q { Larger(q1 + 1, q, d); }
    if q < q1 { Larger(q + 1, q1, d); }
  }

  lemma Larger(a: nat, b: nat, d: nat)
    requires a <= b
    ensures a * d <= b * d && d * a == a * d && d * b == b * d
  {
  }

  /** Dividing twice is dividing by the product. */
  lemma DivideTwice(n: nat, d: nat)
    requires d >= 1
    ensures n / 256 / d == n / (256 * d)
  {
    var low, high := n % 256, n / 256;
    var q, r := high / d, high % d;
    assert n == 256 * high + low && high == q * d + r;
    assert 256 * r + low < 256 * d;
    assert n == q * (256 * d) + (256 * r + low) by { assert 256 * (q * d) == q * (256 * d); }
    QuotientIs(n, 256 * d, q, 256 * r + low);
  }

  lemma {:induction false} BytesAre(n: nat, count: nat, k: nat)
    requires k < count
    ensures Power(256, k) >= 1 && Bytes(n, count)[k] == n / Power(256, k) % 256
  {
    PowerPositive(k);
    if k == 0 {
      assert n / 1 == n;
    } else {
      BytesAre(n / 256, count - 1, k - 1);
      PowerPositive(k - 1);
      DivideTwice(n, Power(256, k - 1));
      assert Bytes(n, count)[k] == Bytes(n / 256, count - 1)[k - 1];
    }
  }

  /** The first byte counts ones, the next 256s, and so on. */
  function Sum(b: seq<Byte>, n: nat): nat
    requires n <= |b|
  {
    if n == 0 then 0 else Sum(b, n - 1) + b[n - 1] * Power(256, n - 1)
  }

  lemma {:induction false} SumShift(b: seq<Byte>, n: nat)
    requires 1 <= n <= |b|
    ensures Sum(b, n) == b[0] + 256 * Sum(b[1..], n - 1)
  {
    if n == 1 {
      assert Sum(b, 0) == 0 && Power(256, 0) == 1;
    } else {
      SumShift(b, n - 1);
      var p, x := Power(256, n - 2), b[n - 1];
      assert b[1..][n - 2] == x;
      assert x * (256 * p) == 256 * (x * p);
    }
  }

  lemma {:induction false} NumberIsSum(b: seq<Byte>)
    ensures Number(b) == Sum(b, |b|)
  {
    if b != [] {
      NumberIsSum(b[1..]);
      SumShift(b, |b|);
    }
  }

  /** Base64 of eight bytes, the lowest first, that together are `bits`. */
  ghost predicate Carries(text: string, bits: Bits64) {
    && Base64.Decoded(text).Some? && |Base64.Decoded(text).value| == 8
    && (forall k :: 0 <= k < 8 ==> Power(256, k) >= 1
                                   && Base64.Decoded(text).value[k] == bits / Power(256, k) % 256)
  }

  lemma PackedCarries(bits: Bits64)
    ensures Carries(Packed(bits), bits)
  {
    Base64.DecodeAfterEncode(Bytes(bits, 8));
    forall k | 0 <= k < 8
      ensures Power(256, k) >= 1 && Bytes(bits, 8)[k] == bits / Power(256, k) % 256
    {
      BytesAre(bits, 8, k);
    }
  }

  lemma UnpackedIsSum(text: string)
    ensures Unpacked(text).Some? <==> Base64.Decoded(text).Some? && |Base64.Decoded(text).value| == 8
    ensures Unpacked(text).Some? ==> Unpacked(text).value == Sum(Base64.Decoded(text).value, 8)
  {
    if Unpacked(text).Some? { NumberIsSum(Base64.Decoded(text).value); }
  }

  // ---- Values -------------------------------------------------------------------

  /** An object whose only field is `key`, holding a string. */
  ghost predicate IsWrapper(j: Json, key: string) {
    j.JObject? && j.fields.Keys == {key} && j.fields[key].JString?
  }

  /** An integer is wrapped as "$integer": its two's complement, lowest byte first, in base64. */
  lemma IntegerOnWire(n: Int64)
    ensures IsWrapper(Dom(Integer(n)), "$integer")
    ensures Carries(Dom(Integer(n)).fields["$integer"].text, if n < 0 then n + 0x1_0000_0000_0000_0000 else n)
  {
    PackedCarries(Pattern(n));
  }

  /** The exponent of a double has all bits set: an infinity or a NaN; a NaN has some fraction bit set. */
  predicate InfiniteOrNaN(bits: Bits64) { bits / 0x10_0000_0000_0000 % 0x800 == 0x7FF }

  /**
   * A finite double other than -0.0 is a bare number; any other is wrapped as "$float" by its bits, every NaN as the
   * canonical one.
   */
  lemma FloatOnWire(bits: Bits64)
    ensures if !InfiniteOrNaN(bits) && bits != 0x8000_0000_0000_0000 then Dom(Float(bits)) == JNumber(bits)
            else
              && IsWrapper(Dom(Float(bits)), "$float")
              && Carries(Dom(Float(bits)).fields["$float"].text,
                         if InfiniteOrNaN(bits) && bits % 0x10_0000_0000_0000 != 0 then 0x7FF8_0000_0000_0000 else bits)
  {
    PackedCarries(Quieted(bits));
  }

  /** Every other value stands as itself, byte strings wrapped as "$bytes" in base64. */
  lemma OthersOnWire(v: Value)
    requires Encodable(v)
    ensures match v
            case Null => Dom(v) == JNull
            case Boolean(b) => Dom(v) == JBool(b)
            case Text(text) => Dom(v) == JString(text)
            case Binary(data) =>
              IsWrapper(Dom(v), "$bytes") && Base64.Decoded(Dom(v).fields["$bytes"].text) == Some(data)
            case Array(items) =>
              && Dom(v).JArray? && |Dom(v).items| == |items|
              && (forall i :: 0 <= i < |items| ==> Encodable(items[i]) && Dom(v).items[i] == Dom(items[i]))
            case Object(fields) =>
              && Dom(v).JObject? && Dom(v).fields.Keys == fields.Keys
              && (forall name :: name in fields ==> Encodable(fields[name]) && Dom(v).fields[name] == Dom(fields[name]))
            case _ => true
  {
    if v.Binary? { Base64.DecodeAfterEncode(v.data); }
  }

  /** A value can be written exactly if every field name in it, at every depth, is allowed. */
  ghost predicate NamesAllowed(v: Value) {
    match v
    case Array(items) => forall i :: 0 <= i < |items| ==> NamesAllowed(items[i])
    case Object(fields) =>
      forall name :: name in fields ==>
        && 1 <= |name| <= 1024 && name[0] as int != 36
        && (forall k :: 0 <= k < |name| ==> 0x20 <= name[k] as int <= 0x7E)
        && NamesAllowed(fields[name])
    case _ => true
  }

  lemma {:induction false} EncodableIff(v: Value)
    ensures Encodable(v) <==> NamesAllowed(v)
    decreases v
  {
    match v
    case Array(items) =>
      forall i | 0 <= i < |items|
        ensures Encodable(items[i]) <==> NamesAllowed(items[i])
      {
        EncodableIff(items[i]);
      }
    case Object(fields) =>
      forall name | name in fields
        ensures Encodable(fields[name]) <==> NamesAllowed(fields[name])
      {
        EncodableIff(fields[name]);
      }
    case _ =>
  }

  /** A lone "$integer" is read as eight bytes, lowest first, in two's complement; anything else there is refused. */
  lemma IntegerFromWire(payload: Json)
    ensures var v := Decoded(JObject(map["$integer" := payload]));
            if payload.JString? && Base64.Decoded(payload.text).Some? && |Base64.Decoded(payload.text).value| == 8 then
              var n := Sum(Base64.Decoded(payload.text).value, 8);
              v.Some? && v.value.Integer?
              && v.value.n == (if n < 0x8000_0000_0000_0000 then n else n - 0x1_0000_0000_0000_0000)
            else v.None?
  {
    assert Sole(map["$integer" := payload], "$integer");
    if payload.JString? { UnpackedIsSum(payload.text); }
  }

  /** A lone "$float" is read as the bits of a double, and refused if a bare number would have done. */
  lemma FloatFromWire(payload: Json)
    ensures var v := Decoded(JObject(map["$float" := payload]));
            if payload.JString? && Base64.Decoded(payload.text).Some? && |Base64.Decoded(payload.text).value| == 8 then
              var bits := Sum(Base64.Decoded(payload.text).value, 8);
              bits < 0x1_0000_0000_0000_0000
              && v == if InfiniteOrNaN(bits) || bits == 0x8000_0000_0000_0000 then Some(Float(bits)) else None
            else v.None?
  {
    var fields := map["$float" := payload];
    assert Sole(fields, "$float") && !Sole(fields, "$integer") by { assert "$float" in fields.Keys; }
    if payload.JString? {
      UnpackedIsSum(payload.text);
      if Unpacked(payload.text).Some? { assert Unpacked(payload.text).value < 0x1_0000_0000_0000_0000; }
    }
  }
}
