/** Base64 with the standard alphabet and padding (src/detail/base64.cpp; section 4 of RFC 4648). */
module Base64 {
  import opened Wrappers
  import opened Values

  const ALPHABET := "ABCDEFGHIJKLM" + "NOPQRSTUVWXYZ" + "abcdefghijklm" + "nopqrstuvwxyz" + "0123456789" + "+/"

  type Sextet = n: nat | n < 64

  /** Table 1 of RFC 4648. */
  function Symbol(d: Sextet): (c: char)
    ensures c != '='
  {
    if d < 26 then 'A' + d as char
    else if d < 52 then 'a' + (d - 26) as char
    else if d < 62 then '0' + (d - 52) as char
    else if d == 62 then '+'
    else '/'
  }

  /** The value of a digit; None for any character that is not one. */
  function Digit(c: char): Option<Sextet> {
    if 'A' <= c <= 'Z' then Some(c as int - 'A' as int)
    else if 'a' <= c <= 'z' then Some(c as int - 'a' as int + 26)
    else if '0' <= c <= '9' then Some(c as int - '0' as int + 52)
    else if c == '+' then Some(62)
    else if c == '/' then Some(63)
    else None
  }

  lemma DigitsAndSymbols(d: Sextet, c: char)
    ensures Digit(Symbol(d)) == Some(d)
    ensures Digit(c) == Some(d) <==> c == Symbol(d)
  {
  }

  /** The alphabet the code spells out is the standard one. */
  lemma AlphabetIsStandard(d: Sextet)
    ensures |ALPHABET| == 64 && ALPHABET[d] == Symbol(d)
  {
    if d < 13 {
      assert "ABCDEFGHIJKLM"[d] == 'A' + d as char;
    } else if d < 26 {
      assert "NOPQRSTUVWXYZ"[d - 13] == 'N' + (d - 13) as char;
    } else if d < 39 {
      assert "abcdefghijklm"[d - 26] == 'a' + (d - 26) as char;
    } else if d < 52 {
      assert "nopqrstuvwxyz"[d - 39] == 'n' + (d - 39) as char;
    } else if d < 62 {
      assert "0123456789"[d - 52] == '0' + (d - 52) as char;
    }
  }

  // ---- The same 24 bits, as three bytes and as four sextets -----------------------

  function Sextet0(b0: Byte): Sextet { b0 / 4 }
  function Sextet1(b0: Byte, b1: Byte): Sextet { b0 % 4 * 16 + b1 / 16 }
  function Sextet2(b1: Byte, b2: Byte): Sextet { b1 % 16 * 4 + b2 / 64 }
  function Sextet3(b2: Byte): Sextet { b2 % 64 }

  function Byte0(d0: Sextet, d1: Sextet): Byte { d0 * 4 + d1 / 16 }
  function Byte1(d1: Sextet, d2: Sextet): Byte { d1 % 16 * 16 + d2 / 4 }
  function Byte2(d2: Sextet, d3: Sextet): Byte { d2 % 4 * 64 + d3 }

  lemma Split4(q: nat, r: nat)
    requires r < 4
    ensures (q * 4 + r) / 4 == q && (q * 4 + r) % 4 == r
  {
  }

  lemma Split16(q: nat, r: nat)
    requires r < 16
    ensures (q * 16 + r) / 16 == q && (q * 16 + r) % 16 == r
  {
  }

  lemma Split64(q: nat, r: nat)
    requires r < 64
    ensures (q * 64 + r) / 64 == q && (q * 64 + r) % 64 == r
  {
  }

  lemma Split256(q: nat, r: nat)
    requires r < 0x100
    ensures (q * 0x100 + r) / 0x100 == q && (q * 0x100 + r) % 0x100 == r
  {
  }

  lemma FirstBack(b0: Byte, b1: Byte)
    ensures Byte0(Sextet0(b0), Sextet1(b0, b1)) == b0
  {
    Split16(b0 % 4, b1 / 16);
  }

  lemma SecondBack(b0: Byte, b1: Byte, b2: Byte)
    ensures Byte1(Sextet1(b0, b1), Sextet2(b1, b2)) == b1
  {
    Split16(b0 % 4, b1 / 16);
    Split4(b1 % 16, b2 / 64);
  }

  lemma ThirdBack(b1: Byte, b2: Byte)
    ensures Byte2(Sextet2(b1, b2), Sextet3(b2)) == b2
  {
    Split4(b1 % 16, b2 / 64);
  }

  lemma BytesBack(b0: Byte, b1: Byte, b2: Byte)
    ensures Byte0(Sextet0(b0), Sextet1(b0, b1)) == b0
    ensures Byte1(Sextet1(b0, b1), Sextet2(b1, b2)) == b1
    ensures Byte2(Sextet2(b1, b2), Sextet3(b2)) == b2
  {
    FirstBack(b0, b1);
    SecondBack(b0, b1, b2);
    ThirdBack(b1, b2);
  }

  lemma SplitBytes(d0: Sextet, d1: Sextet, d2: Sextet, d3: Sextet)
    ensures Byte0(d0, d1) / 4 == d0 && Byte0(d0, d1) % 4 == d1 / 16
    ensures Byte1(d1, d2) / 16 == d1 % 16 && Byte1(d1, d2) % 16 == d2 / 4
    ensures Byte2(d2, d3) / 64 == d2 % 4 && Byte2(d2, d3) % 64 == d3
  {
    Split4(d0, d1 / 16);
    Split16(d1 % 16, d2 / 4);
    Split64(d2 % 4, d3);
  }

  lemma SextetsBack(d0: Sextet, d1: Sextet, d2: Sextet, d3: Sextet)
    ensures Sextet0(Byte0(d0, d1)) == d0
    ensures Sextet1(Byte0(d0, d1), Byte1(d1, d2)) == d1
    ensures Sextet2(Byte1(d1, d2), Byte2(d2, d3)) == d2
    ensures Sextet3(Byte2(d2, d3)) == d3
  {
    SplitBytes(d0, d1, d2, d3);
  }

  function Joined(b0: Byte, b1: Byte, b2: Byte): nat { b0 * 0x1_0000 + b1 * 0x100 + b2 }

  function Spelt(d0: Sextet, d1: Sextet, d2: Sextet, d3: Sextet): nat { ((d0 * 64 + d1) * 64 + d2) * 64 + d3 }

  lemma Regrouped(b0: Byte, b1: Byte, b2: Byte)
    ensures Joined(b0, b1, b2) == Spelt(Sextet0(b0), Sextet1(b0, b1), Sextet2(b1, b2), Sextet3(b2))
  {
  }

  lemma RegroupedBack(d0: Sextet, d1: Sextet, d2: Sextet, d3: Sextet)
    ensures Spelt(d0, d1, d2, d3) == Joined(Byte0(d0, d1), Byte1(d1, d2), Byte2(d2, d3))
  {
  }

  lemma FirstByte(b0: Byte, b1: Byte, b2: Byte)
    ensures Joined(b0, b1, b2) / 0x1_0000 == b0
  {
    var low := b1 * 0x100 + b2;
    assert Joined(b0, b1, b2) == 0x1_0000 * b0 + low && low < 0x1_0000;
  }

  lemma SecondByte(b0: Byte, b1: Byte, b2: Byte)
    ensures Joined(b0, b1, b2) / 0x100 % 0x100 == b1
  {
    assert Joined(b0, b1, b2) == (b0 * 0x100 + b1) * 0x100 + b2;
    Split256(b0 * 0x100 + b1, b2);
    Split256(b0, b1);
  }

  lemma ThirdByte(b0: Byte, b1: Byte, b2: Byte)
    ensures Joined(b0, b1, b2) % 0x100 == b2
  {
    assert Joined(b0, b1, b2) == (b0 * 0x100 + b1) * 0x100 + b2;
    Split256(b0 * 0x100 + b1, b2);
  }

  lemma BytesOfJoined(b0: Byte, b1: Byte, b2: Byte)
    ensures var n := Joined(b0, b1, b2);
            n / 0x1_0000 % 0x100 == b0 && n / 0x100 % 0x100 == b1 && n % 0x100 == b2
  {
    FirstByte(b0, b1, b2);
    SecondByte(b0, b1, b2);
    ThirdByte(b0, b1, b2);
  }

  lemma FirstDigit(d0: Sextet, d1: Sextet, d2: Sextet, d3: Sextet)
    ensures Spelt(d0, d1, d2, d3) / 0x4_0000 == d0
  {
    var low := (d1 * 64 + d2) * 64 + d3;
    assert Spelt(d0, d1, d2, d3) == 0x4_0000 * d0 + low && low < 0x4_0000;
  }

  lemma SecondDigit(d0: Sextet, d1: Sextet, d2: Sextet, d3: Sextet)
    ensures Spelt(d0, d1, d2, d3) / 0x1000 % 64 == d1
  {
    var low := d2 * 64 + d3;
    assert Spelt(d0, d1, d2, d3) == 0x1000 * (d0 * 64 + d1) + low && low < 0x1000;
    Split64(d0, d1);
  }

  lemma LastDigits(d0: Sextet, d1: Sextet, d2: Sextet, d3: Sextet)
    ensures Spelt(d0, d1, d2, d3) / 64 % 64 == d2 && Spelt(d0, d1, d2, d3) % 64 == d3
  {
    Split64((d0 * 64 + d1) * 64 + d2, d3);
    Split64(d0 * 64 + d1, d2);
  }

  lemma DigitsOfSpelt(d0: Sextet, d1: Sextet, d2: Sextet, d3: Sextet)
    ensures var n := Spelt(d0, d1, d2, d3);
            n / 0x4_0000 % 64 == d0 && n / 0x1000 % 64 == d1 && n / 64 % 64 == d2 && n % 64 == d3
  {
    FirstDigit(d0, d1, d2, d3);
    SecondDigit(d0, d1, d2, d3);
    LastDigits(d0, d1, d2, d3);
  }

  lemma DigitsOfJoined(b0: Byte, b1: Byte, b2: Byte)
    ensures var n := Joined(b0, b1, b2);
            && n / 0x4_0000 % 64 == Sextet0(b0) && n / 0x1000 % 64 == Sextet1(b0, b1)
            && n / 64 % 64 == Sextet2(b1, b2) && n % 64 == Sextet3(b2)
  {
    Regrouped(b0, b1, b2);
    DigitsOfSpelt(Sextet0(b0), Sextet1(b0, b1), Sextet2(b1, b2), Sextet3(b2));
  }

  // ---- Encoding ---------------------------------------------------------------

  /** The four symbols of three bytes. */
  function Symbols(b0: Byte, b1: Byte, b2: Byte): string {
    [Symbol(Sextet0(b0)), Symbol(Sextet1(b0, b1)), Symbol(Sextet2(b1, b2)), Symbol(Sextet3(b2))]
  }

  function Encoded(data: seq<Byte>): string {
    if data == [] then ""
    else if |data| == 1 then Symbols(data[0], 0, 0)[..2] + "=="
    else if |data| == 2 then Symbols(data[0], data[1], 0)[..3] + "="
    else Symbols(data[0], data[1], data[2]) + Encoded(data[3..])
  }

  /** The sextets of a 24-bit group, by shifting and masking. */
  method Split(b0: Byte, b1: Byte, b2: Byte) returns (d0: Sextet, d1: Sextet, d2: Sextet, d3: Sextet)
    ensures d0 == Sextet0(b0) && d1 == Sextet1(b0, b1) && d2 == Sextet2(b1, b2) && d3 == Sextet3(b2)
  {
    var n := b0 * 0x1_0000 + b1 * 0x100 + b2;
    DigitsOfJoined(b0, b1, b2);
    d0, d1, d2, d3 := n / 0x4_0000 % 64, n / 0x1000 % 64, n / 64 % 64, n % 64;
  }

  method SymbolsOf(b0: Byte, b1: Byte, b2: Byte) returns (out: string)
    ensures out == Symbols(b0, b1, b2)
  {
    hide Byte0, Byte1, Byte2, Sextet0, Sextet1, Sextet2, Sextet3;
    var d0, d1, d2, d3 := Split(b0, b1, b2);
    out := [At(d0), At(d1), At(d2), At(d3)];
  }

  function At(d: Sextet): (c: char)
    ensures c == Symbol(d)
  {
    AlphabetIsStandard(d);
    ALPHABET[d]
  }

  method Encode(data: seq<Byte>) returns (out: string)
    ensures out == Encoded(data)
  {
    hide Byte0, Byte1, Byte2, Sextet0, Sextet1, Sextet2, Sextet3;
    out := "";
    var i := 0;
    while i + 3 <= |data|
      invariant 0 <= i <= |data|
      invariant Encoded(data) == out + Encoded(data[i..])
    {
      var four := SymbolsOf(data[i], data[i + 1], data[i + 2]);
      EncodeOneMore(data, i, out);
      out := out + four;
      i := i + 3;
    }
    var last := EncodeTail(data[i..]);
    out := out + last;
  }

  /** The one or two bytes left over, padded. */
  method EncodeTail(rest: seq<Byte>) returns (out: string)
    requires |rest| < 3
    ensures out == Encoded(rest)
  {
    hide Byte0, Byte1, Byte2, Sextet0, Sextet1, Sextet2, Sextet3;
    out := "";
    if |rest| == 1 {
      var four := SymbolsOf(rest[0], 0, 0);
      out := four[..2] + "==";
    } else if |rest| == 2 {
      var four := SymbolsOf(rest[0], rest[1], 0);
      out := four[..3] + "=";
    }
  }

  lemma EncodeOneMore(data: seq<Byte>, i: nat, out: string)
    requires i + 3 <= |data|
    ensures out + Encoded(data[i..])
            == (out + Symbols(data[i], data[i + 1], data[i + 2])) + Encoded(data[i + 3..])
  {
    hide Byte0, Byte1, Byte2, Sextet0, Sextet1, Sextet2, Sextet3;
    assert data[i..][3..] == data[i + 3..];
  }

  // ---- Decoding ---------------------------------------------------------------

  /** May this character stand at position `j` of a group? Padding only in the last, and "?=x" never. */
  predicate Allowed(group: string, j: nat, last: bool)
    requires |group| == 4 && j < 4
  {
    if group[j] == '=' then last && !(j == 2 && group[3] != '=') else Digit(group[j]).Some?
  }

  predicate AllAllowed(group: string, last: bool)
    requires |group| == 4
  {
    Allowed(group, 0, last) && Allowed(group, 1, last) && Allowed(group, 2, last) && Allowed(group, 3, last)
  }

  function Worth(c: char): Sextet {
    if Digit(c).Some? then Digit(c).value else 0
  }

  /** The number the first `k` characters spell, padding counting as zero. */
  function Spelled(group: string, k: nat): nat
    requires k <= |group|
  {
    if k == 0 then 0 else Spelled(group, k - 1) * 64 + Worth(group[k - 1])
  }

  /** One past the last character of a group that is not padding. */
  function Used(group: string): nat
    requires |group| == 4
  {
    if group[3] != '=' then 4 else if group[2] != '=' then 3 else if group[1] != '=' then 2
    else if group[0] != '=' then 1 else 0
  }

  function BytesOf(n: nat, used: nat): seq<Byte> {
    [n / 0x1_0000 % 0x100] + (if used >= 3 then [n / 0x100 % 0x100] else []) + (if used == 4 then [n % 0x100] else [])
  }

  function Group(group: string, last: bool): Option<seq<Byte>>
    requires |group| == 4
  {
    if AllAllowed(group, last) then Some(BytesOf(Spelled(group, 4), Used(group))) else None
  }

  function Groups(text: string): Option<seq<Byte>>
    requires |text| % 4 == 0
  {
    if text == "" then Some([])
    else
      var first, rest := Group(text[..4], |text| == 4), Groups(text[4..]);
      if first.Some? && rest.Some? then Some(first.value + rest.value) else None
  }

  /** None where the source throws invalid_argument. */
  function Decoded(text: string): Option<seq<Byte>> {
    if |text| % 4 != 0 then None else Groups(text)
  }

  /** What the reverse table holds for a byte. */
  function Reverse(k: Byte): int { if Digit(k as char).Some? then Digit(k as char).value else -1 }

  ghost predicate IsReverseTable(table: array<int>)
    reads table
  {
    table.Length == 256 && forall k: Byte :: table[k] == Reverse(k)
  }

  /** A std::string holds bytes. */
  ghost predicate InBytes(text: string) { forall k :: 0 <= k < |text| ==> text[k] as int < 256 }

  /** The reverse table: -1 everywhere, then each symbol's value. */
  method MakeReverseTable() returns (table: array<int>)
    ensures fresh(table) && IsReverseTable(table)
  {
    table := new int[256];
    for k := 0 to 256
      invariant forall j :: 0 <= j < k ==> table[j] == -1
    {
      table[k] := -1;
    }
    for i := 0 to 64
      invariant forall k :: 0 <= k < 256 ==> table[k] == if Reverse(k) < i then Reverse(k) else -1
    {
      AlphabetIsStandard(i);
      OnlySymbolReverses(i);
      table[ALPHABET[i] as int] := i;
    }
  }

  lemma OnlySymbolReverses(i: Sextet)
    ensures Symbol(i) as int < 256
    ensures forall k: Byte :: Reverse(k) == i <==> k as char == Symbol(i)
  {
  }

  method DecodeGroup(table: array<int>, text: string, i: nat) returns (bytes: Option<seq<Byte>>)
    requires IsReverseTable(table) && i + 4 <= |text| && InBytes(text)
    ensures bytes == Group(text[i..i + 4], i + 4 == |text|)
  {
    ghost var group, last := text[i..i + 4], i + 4 == |text|;
    var n, valid := 0, 0;
    for j := 0 to 4
      invariant n == Spelled(group, j)
      invariant valid == if j == 4 then Used(group) else if j > 0 && group[j - 1] != '=' then j
                         else if j > 1 && group[j - 2] != '=' then j - 1
                         else if j > 2 && group[j - 3] != '=' then j - 2 else 0
      invariant forall k :: 0 <= k < j ==> Allowed(group, k, last)
    {
      var c := text[i + j];
      assert c == group[j];
      if c == '=' {
        if i + 4 != |text| || (j == 2 && text[i + 3] != '=') {
          assert !Allowed(group, j, last);
          return None;
        }
        n := n * 64;
        continue;
      }
      var code: Byte := c as int;
      var d := table[code];
      assert d == Reverse(code) && code as char == c;
      if d < 0 {
        assert !Allowed(group, j, last);
        return None;
      }
      n := n * 64 + d;
      valid := j + 1;
    }
    var out: seq<Byte> := [n / 0x1_0000 % 0x100];
    if valid >= 3 { out := out + [n / 0x100 % 0x100]; }
    if valid == 4 { out := out + [n % 0x100]; }
    assert AllAllowed(group, last) && out == BytesOf(n, valid);
    bytes := Some(out);
  }

  method Decode(text: string) returns (out: Option<seq<Byte>>)
    requires InBytes(text)
    ensures out == Decoded(text)
  {
    hide Group, Groups, Prepend, IsReverseTable;
    if |text| % 4 != 0 { return None; }
    var table := MakeReverseTable();
    var bytes: seq<Byte> := [];
    var i := 0;
    DecodeStart(text);
    while i < |text|
      invariant 0 <= i <= |text| && i % 4 == 0 && IsReverseTable(table)
      invariant Groups(text) == Prepend(bytes, Groups(text[i..]))
    {
      DecodeOneMore(text, i, bytes);
      var more := DecodeGroup(table, text, i);
      if more.None? { return None; }
      bytes := bytes + more.value;
      i := i + 4;
    }
    DecodeEnd(text, bytes);
    out := Some(bytes);
  }

  lemma DecodeStart(text: string)
    requires |text| % 4 == 0
    ensures Prepend([], Groups(text[0..])) == Groups(text)
  {
    assert text[0..] == text;
    if Groups(text).Some? { assert [] + Groups(text).value == Groups(text).value; }
  }

  lemma DecodeEnd(text: string, bytes: seq<Byte>)
    requires |text| % 4 == 0
    ensures Prepend(bytes, Groups(text[|text|..])) == Some(bytes)
  {
    assert text[|text|..] == "" && bytes + [] == bytes;
  }

  function Prepend(bytes: seq<Byte>, rest: Option<seq<Byte>>): Option<seq<Byte>> {
    if rest.None? then None else Some(bytes + rest.value)
  }

  lemma DecodeOneMore(text: string, i: nat, bytes: seq<Byte>)
    requires |text| % 4 == 0 && i % 4 == 0 && i + 4 <= |text|
    ensures var first := Group(text[i..i + 4], i + 4 == |text|);
            Prepend(bytes, Groups(text[i..]))
            == if first.None? then None else Prepend(bytes + first.value, Groups(text[i + 4..]))
  {
    var tail := text[i..];
    assert tail[..4] == text[i..i + 4] && tail[4..] == text[i + 4..];
    var first, rest := Group(tail[..4], |tail| == 4), Groups(tail[4..]);
    if first.Some? && rest.Some? {
      assert bytes + (first.value + rest.value) == (bytes + first.value) + rest.value;
    }
  }

  lemma SpelledIs(group: string)
    requires |group| == 4
    ensures Spelled(group, 4) == Spelt(Worth(group[0]), Worth(group[1]), Worth(group[2]), Worth(group[3]))
  {
    assert Spelled(group, 1) == Worth(group[0]);
    assert Spelled(group, 2) == Worth(group[0]) * 64 + Worth(group[1]);
    assert Spelled(group, 3) == (Worth(group[0]) * 64 + Worth(group[1])) * 64 + Worth(group[2]);
  }

  /** The bytes a group stands for, in terms of its digits. */
  lemma GroupBytes(group: string, last: bool)
    requires |group| == 4 && AllAllowed(group, last)
    ensures var d0, d1, d2, d3 := Worth(group[0]), Worth(group[1]), Worth(group[2]), Worth(group[3]);
            Group(group, last) == Some([Byte0(d0, d1)]
                                       + (if Used(group) >= 3 then [Byte1(d1, d2)] else [])
                                       + (if Used(group) == 4 then [Byte2(d2, d3)] else []))
  {
    hide Byte0, Byte1, Byte2, Sextet0, Sextet1, Sextet2, Sextet3;
    var d0, d1, d2, d3 := Worth(group[0]), Worth(group[1]), Worth(group[2]), Worth(group[3]);
    SpelledIs(group);
    RegroupedBack(d0, d1, d2, d3);
    BytesOfJoined(Byte0(d0, d1), Byte1(d1, d2), Byte2(d2, d3));
  }

  // ---- Round trip ----------------------------------------------------------------

  lemma SymbolWorth(d: Sextet)
    ensures Worth(Symbol(d)) == d && Digit(Symbol(d)).Some?
  {
    DigitsAndSymbols(d, '=');
  }

  lemma GroupOfSymbols(d0: Sextet, d1: Sextet, d2: Sextet, d3: Sextet, last: bool)
    ensures Group([Symbol(d0), Symbol(d1), Symbol(d2), Symbol(d3)], last)
            == Some([Byte0(d0, d1), Byte1(d1, d2), Byte2(d2, d3)])
    ensures Group([Symbol(d0), Symbol(d1), Symbol(d2), '='], true) == Some([Byte0(d0, d1), Byte1(d1, d2)])
    ensures Group([Symbol(d0), Symbol(d1), '=', '='], true) == Some([Byte0(d0, d1)])
  {
    hide Byte0, Byte1, Byte2, Sextet0, Sextet1, Sextet2, Sextet3;
    SymbolWorth(d0);
    SymbolWorth(d1);
    SymbolWorth(d2);
    SymbolWorth(d3);
    var four, three, two := [Symbol(d0), Symbol(d1), Symbol(d2), Symbol(d3)], [Symbol(d0), Symbol(d1), Symbol(d2), '='],
                            [Symbol(d0), Symbol(d1), '=', '='];
    assert four[0] == Symbol(d0) && four[1] == Symbol(d1) && four[2] == Symbol(d2) && four[3] == Symbol(d3);
    assert [Byte0(d0, d1)] + [Byte1(d1, d2)] + [Byte2(d2, d3)] == [Byte0(d0, d1), Byte1(d1, d2), Byte2(d2, d3)];
    GroupBytes(four, last);
    assert three[0] == Symbol(d0) && three[1] == Symbol(d1) && three[2] == Symbol(d2) && three[3] == '=';
    assert [Byte0(d0, d1)] + [Byte1(d1, d2)] + [] == [Byte0(d0, d1), Byte1(d1, d2)];
    GroupBytes(three, true);
    assert two[0] == Symbol(d0) && two[1] == Symbol(d1) && two[2] == '=' && two[3] == '=';
    assert [Byte0(d0, d1)] + [] + [] == [Byte0(d0, d1)];
    GroupBytes(two, true);
  }

  lemma FullGroupRoundTrip(b0: Byte, b1: Byte, b2: Byte, last: bool)
    ensures Group(Symbols(b0, b1, b2), last) == Some([b0, b1, b2])
  {
    hide Byte0, Byte1, Byte2, Sextet0, Sextet1, Sextet2, Sextet3;
    GroupOfSymbols(Sextet0(b0), Sextet1(b0, b1), Sextet2(b1, b2), Sextet3(b2), last);
    BytesBack(b0, b1, b2);
  }

  lemma OneByteRoundTrip(b0: Byte)
    ensures Group(Symbols(b0, 0, 0)[..2] + "==", true) == Some([b0])
  {
    hide Byte0, Byte1, Byte2, Sextet0, Sextet1, Sextet2, Sextet3;
    assert Symbols(b0, 0, 0)[..2] + "==" == [Symbol(Sextet0(b0)), Symbol(Sextet1(b0, 0)), '=', '='];
    GroupOfSymbols(Sextet0(b0), Sextet1(b0, 0), 0, 0, true);
    BytesBack(b0, 0, 0);
  }

  lemma TwoBytesRoundTrip(b0: Byte, b1: Byte)
    ensures Group(Symbols(b0, b1, 0)[..3] + "=", true) == Some([b0, b1])
  {
    hide Byte0, Byte1, Byte2, Sextet0, Sextet1, Sextet2, Sextet3;
    assert Symbols(b0, b1, 0)[..3] + "="
           == [Symbol(Sextet0(b0)), Symbol(Sextet1(b0, b1)), Symbol(Sextet2(b1, 0)), '='];
    GroupOfSymbols(Sextet0(b0), Sextet1(b0, b1), Sextet2(b1, 0), 0, true);
    BytesBack(b0, b1, 0);
  }

  /** Decoding what was encoded gives the same bytes back, whatever their number. */
  lemma {:induction false} DecodeAfterEncode(data: seq<Byte>)
    ensures Decoded(Encoded(data)) == Some(data)
  {
    hide Byte0, Byte1, Byte2, Sextet0, Sextet1, Sextet2, Sextet3;
    if |data| == 1 {
      OneByteRoundTrip(data[0]);
      LastGroup(Encoded(data));
      assert data == [data[0]];
    } else if |data| == 2 {
      TwoBytesRoundTrip(data[0], data[1]);
      LastGroup(Encoded(data));
      assert data == [data[0], data[1]];
    } else if |data| >= 3 {
      DecodeAfterEncode(data[3..]);
      FullGroupRoundTrip(data[0], data[1], data[2], data[3..] == []);
      NextGroup(Symbols(data[0], data[1], data[2]), Encoded(data[3..]));
      assert [data[0], data[1], data[2]] + data[3..] == data;
    }
  }

  lemma NextGroup(head: string, tail: string)
    requires |head| == 4
    ensures Decoded(head + tail)
            == var first, rest := Group(head, tail == ""), Decoded(tail);
               if first.Some? && rest.Some? then Some(first.value + rest.value) else None
  {
    assert (head + tail)[..4] == head && (head + tail)[4..] == tail;
  }

  lemma LastGroup(group: string)
    requires |group| == 4
    ensures Decoded(group) == Group(group, true)
  {
    NextGroup(group, "");
    assert group + "" == group;
    if Group(group, true).Some? { assert Group(group, true).value + [] == Group(group, true).value; }
  }

  // ---- What is accepted --------------------------------------------------------

  /** Digits, with padding only among the last four characters and never "=x" at the very end. */
  ghost predicate WellFormed(text: string) {
    && |text| % 4 == 0
    && (forall k :: 0 <= k < |text| ==> Digit(text[k]).Some? || (text[k] == '=' && k >= |text| - 4))
    && (|text| >= 4 && text[|text| - 2] == '=' ==> text[|text| - 1] == '=')
  }

  lemma HeadAndTailWellFormed(head: string, tail: string)
    requires |head| == 4 && tail != ""
    ensures WellFormed(head + tail) <==> WellFormed(tail) && (forall k :: 0 <= k < 4 ==> Digit(head[k]).Some?)
  {
    var text := head + tail;
    assert forall k :: 0 <= k < |tail| ==> tail[k] == text[k + 4];
    if WellFormed(text) {
      forall k | 0 <= k < 4
        ensures Digit(head[k]).Some?
      {
        assert text[k] == head[k];
      }
      forall k | 0 <= k < |tail|
        ensures Digit(tail[k]).Some? || (tail[k] == '=' && k >= |tail| - 4)
      {
        assert text[k + 4] == tail[k];
      }
    }
  }

  /** Exactly the well-formed texts decode. */
  lemma {:induction false} DecodesIff(text: string)
    ensures Decoded(text).Some? <==> WellFormed(text)
  {
    if |text| % 4 == 0 && text != "" {
      var head, tail := text[..4], text[4..];
      assert head + tail == text;
      DecodesIff(tail);
      NextGroup(head, tail);
      if tail != "" { HeadAndTailWellFormed(head, tail); }
    }
  }

  // ---- Leniency ------------------------------------------------------------------

  /** The last group is padded as an encoder pads it, with no bits beyond the bytes it stands for. */
  ghost predicate Tidy(text: string) {
    |text| >= 4 ==>
      var n := |text|;
      && text[n - 4] != '=' && text[n - 3] != '='
      && (text[n - 2] == '=' ==> Worth(text[n - 3]) % 16 == 0)
      && (text[n - 2] != '=' && text[n - 1] == '=' ==> Worth(text[n - 2]) % 4 == 0)
  }

  /** "====" is accepted, and stands for the same byte as "AA==". */
  lemma PaddingAloneDecodes()
    ensures Decoded("====").Some? && Decoded("====") == Decoded("AA==")
  {
    hide Byte0, Byte1, Byte2, Sextet0, Sextet1, Sextet2, Sextet3;
    LastGroup("====");
    LastGroup("AA==");
    GroupBytes("====", true);
    GroupBytes("AA==", true);
  }

  lemma FullGroupReencodes(group: string, last: bool)
    requires |group| == 4 && forall j :: 0 <= j < 4 ==> Digit(group[j]).Some?
    ensures Group(group, last).Some? && |Group(group, last).value| == 3
    ensures var b := Group(group, last).value; Symbols(b[0], b[1], b[2]) == group
  {
    hide Byte0, Byte1, Byte2, Sextet0, Sextet1, Sextet2, Sextet3;
    assert Digit(group[0]).Some? && Digit(group[1]).Some? && Digit(group[2]).Some? && Digit(group[3]).Some?;
    var d0, d1, d2, d3 := Worth(group[0]), Worth(group[1]), Worth(group[2]), Worth(group[3]);
    GroupBytes(group, last);
    SextetsBack(d0, d1, d2, d3);
    DigitsAndSymbols(d0, group[0]);
    DigitsAndSymbols(d1, group[1]);
    DigitsAndSymbols(d2, group[2]);
    DigitsAndSymbols(d3, group[3]);
  }

  lemma LastUnpadded(group: string)
    requires |group| == 4 && AllAllowed(group, true) && group[3] != '='
    ensures Encoded(Group(group, true).value) == group <==> Tidy(group)
  {
    hide Byte0, Byte1, Byte2, Sextet0, Sextet1, Sextet2, Sextet3;
    var bytes := Group(group, true).value;
    GroupBytes(group, true);
    assert bytes[3..] == [];
    assert Encoded(bytes) == Symbols(bytes[0], bytes[1], bytes[2]);
    if Tidy(group) { FullGroupReencodes(group, true); }
  }

  /** Two bits of the third digit are lost when its group holds two bytes. */
  lemma ThirdDigitKept(d1: Sextet, d2: Sextet)
    ensures Sextet2(Byte1(d1, d2), 0) == d2 <==> d2 % 4 == 0
  {
    SplitBytes(0, d1, d2, 0);
  }

  /** Four bits of the second digit are lost when its group holds one byte. */
  lemma SecondDigitKept(d0: Sextet, d1: Sextet)
    ensures Sextet1(Byte0(d0, d1), 0) == d1 <==> d1 % 16 == 0
  {
    SplitBytes(d0, d1, 0, 0);
  }

  lemma LastOnePad(group: string)
    requires |group| == 4 && AllAllowed(group, true) && group[2] != '=' && group[3] == '='
    ensures Encoded(Group(group, true).value) == group <==> Tidy(group)
  {
    hide Byte0, Byte1, Byte2, Sextet0, Sextet1, Sextet2, Sextet3;
    var d0, d1, d2 := Worth(group[0]), Worth(group[1]), Worth(group[2]);
    GroupBytes(group, true);
    SextetsBack(d0, d1, d2, 0);
    ThirdDigitKept(d1, d2);
    var b0, b1 := Byte0(d0, d1), Byte1(d1, d2);
    assert Group(group, true).value == [b0, b1];
    assert Encoded([b0, b1]) == [Symbol(d0), Symbol(d1), Symbol(Sextet2(b1, 0)), '='];
    DigitsAndSymbols(d0, group[0]);
    DigitsAndSymbols(d1, group[1]);
    DigitsAndSymbols(Sextet2(b1, 0), group[2]);
  }

  lemma LastTwoPads(group: string)
    requires |group| == 4 && AllAllowed(group, true) && group[2] == '=' && group[3] == '='
    ensures Encoded(Group(group, true).value) == group <==> Tidy(group)
  {
    hide Byte0, Byte1, Byte2, Sextet0, Sextet1, Sextet2, Sextet3;
    var d0, d1 := Worth(group[0]), Worth(group[1]);
    GroupBytes(group, true);
    SextetsBack(d0, d1, 0, 0);
    SecondDigitKept(d0, d1);
    var b0 := Byte0(d0, d1);
    assert Group(group, true).value == [b0];
    assert Encoded([b0]) == [Symbol(d0), Symbol(Sextet1(b0, 0)), '=', '='];
    DigitsAndSymbols(d0, group[0]);
    DigitsAndSymbols(Sextet1(b0, 0), group[1]);
  }

  /** Decoding loses nothing exactly on tidy text: elsewhere it accepts what no encoder writes. */
  lemma {:induction false} EncodeAfterDecodeIff(text: string)
    requires Decoded(text).Some?
    ensures Encoded(Decoded(text).value) == text <==> Tidy(text)
  {
    hide Byte0, Byte1, Byte2, Sextet0, Sextet1, Sextet2, Sextet3;
    if |text| == 4 {
      LastGroup(text);
      if text[3] != '=' { LastUnpadded(text); } else if text[2] != '=' { LastOnePad(text); } else { LastTwoPads(text); }
    } else if |text| > 4 {
      var head, tail := text[..4], text[4..];
      assert head + tail == text;
      NextGroup(head, tail);
      EncodeAfterDecodeIff(tail);
      DecodesIff(text);
      HeadAndTailWellFormed(head, tail);
      FullGroupReencodes(head, false);
      HeadReencodes(head, tail, Group(head, false).value, Decoded(tail).value);
    }
  }

  lemma HeadReencodes(head: string, tail: string, b: seq<Byte>, rest: seq<Byte>)
    requires |head| == 4 && |b| == 3 && Symbols(b[0], b[1], b[2]) == head && |tail| >= 4
    ensures Encoded(b + rest) == head + tail <==> Encoded(rest) == tail
    ensures Tidy(head + tail) <==> Tidy(tail)
  {
    hide Byte0, Byte1, Byte2, Sextet0, Sextet1, Sextet2, Sextet3;
    assert (b + rest)[3..] == rest;
    assert Encoded(b + rest) == head + Encoded(rest);
    assert (head + Encoded(rest))[4..] == Encoded(rest) && (head + tail)[4..] == tail;
  }
}
