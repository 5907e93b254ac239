/**
 * The text a JSON document is printed as: compact, with object keys in order (third_party/nlohmann/json.hpp,
 * the serializer behind to_wire_json). How a finite double is printed is a parameter.
 */
module JsonText {
  import opened Decimals
  import opened Wrappers
  import opened Ordering
  import opened Values
  import opened JsonCodec

  type Printer = Bits64 -> string

  predicate NumberChar(c: char) { '0' <= c <= '9' || c == '-' || c == '+' || c == '.' || c == 'e' }

  predicate NumberText(s: string) { s != "" && forall k :: 0 <= k < |s| ==> NumberChar(s[k]) }

  /** Shortest round-trip printing: digits, sign, point and exponent, and never one text for two doubles. */
  ghost predicate Faithful(show: Printer) {
    && (forall bits :: IsFinite(bits) ==> NumberText(show(bits)))
    && (forall a, b :: IsFinite(a) && IsFinite(b) && show(a) == show(b) ==> a == b)
  }

  /** Such printers exist: writing the bits themselves in decimal is one. */
  lemma SomePrinterIsFaithful()
    ensures Faithful((bits: Bits64) => Decimal(bits))
  {
    var show: Printer := (bits: Bits64) => Decimal(bits);
    forall bits: Bits64
      ensures NumberText(show(bits))
    {
      DecimalDenotes(bits);
    }
    forall a: Bits64, b: Bits64 | show(a) == show(b)
      ensures a == b
    {
      DecimalDenotes(a);
      DecimalDenotes(b);
    }
  }

  function Hex(d: nat): char
    requires d < 16
  {
    if d < 10 then '0' + d as char else 'a' + (d - 10) as char
  }

  /** How one character stands inside a quoted string (section 7 of RFC 8259). */
  function EscapedChar(c: char): string {
    if c == '"' then "\\\"" else if c == '\\' then "\\\\"
    else if c as int == 8 then "\\b" else if c as int == 9 then "\\t" else if c as int == 10 then "\\n"
    else if c as int == 12 then "\\f" else if c as int == 13 then "\\r"
    else if c as int < 32 then "\\u00" + [Hex(c as int / 16), Hex(c as int % 16)]
    else [c]
  }

  function Escaped(s: string): string { if s == "" then "" else EscapedChar(s[0]) + Escaped(s[1..]) }

  function Quoted(s: string): string { "\"" + Escaped(s) + "\"" }

  /** The field names of an object, in the order they are printed. */
  ghost function Names(j: Json): seq<string>
    requires j.JObject?
  {
    SortedStrings(j.fields.Keys)
  }

  ghost function Dump(j: Json, show: Printer): string
    decreases j, 2, 0
  {
    match j
    case JNull => "null"
    case JBool(b) => if b then "true" else "false"
    case JNumber(bits) => if IsFinite(bits) then show(bits) else "null"
    case JString(text) => Quoted(text)
    case JArray(items) => "[" + DumpItems(j, 0, show) + "]"
    case JObject(fields) => "{" + DumpMembers(j, 0, show) + "}"
  }

  function Comma(k: nat): string { if k == 0 then "" else "," }

  ghost function DumpItems(j: Json, k: nat, show: Printer): string
    requires j.JArray? && k <= |j.items|
    decreases j, 1, |j.items| - k
  {
    if k == |j.items| then "" else Comma(k) + (Dump(j.items[k], show) + DumpItems(j, k + 1, show))
  }

  ghost function DumpMembers(j: Json, k: nat, show: Printer): string
    requires j.JObject? && k <= |Names(j)|
    decreases j, 1, |Names(j)| - k
  {
    if k == |Names(j)| then ""
    else
      var name := Names(j)[k];
      assert name in Names(j);
      Comma(k) + (Quoted(name) + (":" + (Dump(j.fields[name], show) + DumpMembers(j, k + 1, show))))
  }

  // ---- Scanning: inside or outside a string ------------------------------------------

  datatype Mode = Outside | Inside | Backslash

  /** Where a scanner is after one more character; None for '|' or '\' outside every string. */
  function Next(mode: Mode, c: char): Option<Mode> {
    match mode
    case Outside => if c == '"' then Some(Inside) else if c == '|' || c == '\\' then None else Some(Outside)
    case Inside => if c == '"' then Some(Outside) else if c == '\\' then Some(Backslash) else Some(Inside)
    case Backslash => Some(Inside)
  }

  function Scan(mode: Mode, text: string): Option<Mode>
    decreases text
  {
    if text == "" then Some(mode)
    else
      var next := Next(mode, text[0]);
      if next.None? then None else Scan(next.value, text[1..])
  }

  lemma {:induction false} ScanConcat(mode: Mode, a: string, b: string)
    ensures Scan(mode, a + b) == var m := Scan(mode, a); if m.None? then None else Scan(m.value, b)
    decreases a
  {
    if a == "" {
      assert a + b == b;
    } else {
      assert (a + b)[0] == a[0] && (a + b)[1..] == a[1..] + b;
      var next := Next(mode, a[0]);
      if next.Some? { ScanConcat(next.value, a[1..], b); }
    }
  }

  lemma ScanTwo(mode: Mode, a: char, b: char)
    ensures Scan(mode, [a, b]) == var m := Next(mode, a); if m.None? then None else Next(m.value, b)
  {
    assert [a, b][1..] == [b] && [b][1..] == "";
    var next := Next(mode, a);
    if next.Some? { assert Scan(next.value, [b]) == Next(next.value, b); }
  }

  lemma {:induction false} PlainScan(mode: Mode, s: string)
    requires mode != Backslash && forall k :: 0 <= k < |s| ==> s[k] != '"' && s[k] != '|' && s[k] != '\\'
    ensures Scan(mode, s) == Some(mode)
  {
    if s != "" { PlainScan(mode, s[1..]); }
  }

  lemma EscapedCharScans(c: char)
    ensures Scan(Inside, EscapedChar(c)) == Some(Inside)
  {
    var e := EscapedChar(c);
    if |e| == 2 {
      assert e == [e[0], e[1]];
      ScanTwo(Inside, e[0], e[1]);
    } else if |e| == 6 {
      ScanTwo(Inside, '\\', 'u');
      var rest := "00" + [Hex(c as int / 16), Hex(c as int % 16)];
      PlainScan(Inside, rest);
      assert e == ['\\', 'u'] + rest;
      ScanConcat(Inside, ['\\', 'u'], rest);
    }
  }

  lemma {:induction false} EscapedScans(s: string)
    ensures Scan(Inside, Escaped(s)) == Some(Inside)
  {
    if s != "" {
      EscapedCharScans(s[0]);
      EscapedScans(s[1..]);
      ScanConcat(Inside, EscapedChar(s[0]), Escaped(s[1..]));
    }
  }

  lemma QuotedScans(s: string)
    ensures Scan(Outside, Quoted(s)) == Some(Outside)
  {
    EscapedScans(s);
    ScanConcat(Outside, "\"", Escaped(s));
    ScanConcat(Outside, "\"" + Escaped(s), "\"");
    assert "\""[1..] == "";
  }

  /** Texts that leave a scanner outside, one after the other. */
  lemma ScanJoin(a: string, b: string)
    requires Scan(Outside, a) == Some(Outside) && Scan(Outside, b) == Some(Outside)
    ensures Scan(Outside, a + b) == Some(Outside)
  {
    ScanConcat(Outside, a, b);
  }

  lemma ScanBracketed(open: char, body: string, close: char)
    requires Scan(Outside, body) == Some(Outside)
    requires open in {'[', '{'} && close in {']', '}'}
    ensures Scan(Outside, [open] + body + [close]) == Some(Outside)
  {
    PlainScan(Outside, [open]);
    PlainScan(Outside, [close]);
    ScanJoin([open], body);
    ScanJoin([open] + body, [close]);
  }

  /** A printed document is balanced: it ends outside every string, and holds no bare '|'. */
  lemma {:induction false} DumpScans(j: Json, show: Printer)
    requires Faithful(show)
    ensures Scan(Outside, Dump(j, show)) == Some(Outside)
    decreases j, 2, 0
  {
    match j
    case JNull => PlainScan(Outside, "null");
    case JBool(b) => PlainScan(Outside, Dump(j, show));
    case JNumber(bits) => PlainScan(Outside, Dump(j, show));
    case JString(text) => QuotedScans(text);
    case JArray(items) =>
      ItemsScan(j, 0, show);
      ScanBracketed('[', DumpItems(j, 0, show), ']');
    case JObject(fields) =>
      MembersScan(j, 0, show);
      ScanBracketed('{', DumpMembers(j, 0, show), '}');
  }

  lemma {:induction false} ItemsScan(j: Json, k: nat, show: Printer)
    requires Faithful(show) && j.JArray? && k <= |j.items|
    ensures Scan(Outside, DumpItems(j, k, show)) == Some(Outside)
    decreases j, 1, |j.items| - k
  {
    if k < |j.items| {
      var item, rest := Dump(j.items[k], show), DumpItems(j, k + 1, show);
      DumpScans(j.items[k], show);
      ItemsScan(j, k + 1, show);
      PlainScan(Outside, Comma(k));
      ScanJoin(item, rest);
      ScanJoin(Comma(k), item + rest);
    }
  }

  lemma MemberScans(comma: string, name: string, field: string, rest: string)
    requires comma == "" || comma == ","
    requires Scan(Outside, field) == Some(Outside) && Scan(Outside, rest) == Some(Outside)
    ensures Scan(Outside, comma + (Quoted(name) + (":" + (field + rest)))) == Some(Outside)
  {
    QuotedScans(name);
    PlainScan(Outside, ":");
    PlainScan(Outside, comma);
    ScanJoin(field, rest);
    ScanJoin(":", field + rest);
    ScanJoin(Quoted(name), ":" + (field + rest));
    ScanJoin(comma, Quoted(name) + (":" + (field + rest)));
  }

  lemma {:induction false} MembersScan(j: Json, k: nat, show: Printer)
    requires Faithful(show) && j.JObject? && k <= |Names(j)|
    ensures Scan(Outside, DumpMembers(j, k, show)) == Some(Outside)
    decreases j, 1, |Names(j)| - k
  {
    hide Scan, Dump, Quoted, Faithful;
    if k == |Names(j)| {
      PlainScan(Outside, "");
    } else {
      var name := Names(j)[k];
      assert name in Names(j);
      var field, rest := Dump(j.fields[name], show), DumpMembers(j, k + 1, show);
      DumpScans(j.fields[name], show);
      MembersScan(j, k + 1, show);
      MemberScans(Comma(k), name, field, rest);
    }
  }

  /** Scanned from opposite sides of a quote, a text stays on opposite sides: no such scan ends outside twice. */
  lemma {:induction false} OppositeScans(a: Mode, b: Mode, text: string)
    requires a != b && a != Backslash && b != Backslash
    requires Scan(a, text).Some? && Scan(b, text).Some?
    ensures Scan(a, text) != Scan(b, text)
    decreases text
  {
    if text != "" {
      OppositeScans(Next(a, text[0]).value, Next(b, text[0]).value, text[1..]);
    }
  }

  // ---- Printing loses nothing ----------------------------------------------------------

  /** A text that cannot continue what was printed before it. */
  predicate Delimited(r: string) { r == "" || r[0] == ',' || r[0] == ']' || r[0] == '}' }

  lemma Cancel(a: string, r: string, s: string)
    requires a + r == a + s
    ensures r == s
  {
    assert (a + r)[|a|..] == r && (a + s)[|a|..] == s;
  }

  lemma NumberDelimits(a: string, r: string)
    requires (forall k :: 0 <= k < |a| ==> NumberChar(a[k])) && Delimited(r)
    ensures Delimited(a + r) <==> a == ""
  {
    if a == "" { assert a + r == r; } else { assert (a + r)[0] == a[0] && NumberChar(a[0]); }
  }

  lemma {:induction false} SameNumber(a: string, b: string, r: string, s: string)
    requires (forall k :: 0 <= k < |a| ==> NumberChar(a[k])) && (forall k :: 0 <= k < |b| ==> NumberChar(b[k]))
    requires Delimited(r) && Delimited(s) && a + r == b + s
    ensures a == b && r == s
  {
    NumberDelimits(a, r);
    NumberDelimits(b, s);
    if a == "" {
      assert a + r == r && b + s == s;
    } else {
      assert (a + r)[0] == a[0] && (b + s)[0] == b[0];
      assert (a + r)[1..] == a[1..] + r && (b + s)[1..] == b[1..] + s;
      SameNumber(a[1..], b[1..], r, s);
      assert a == [a[0]] + a[1..] && b == [b[0]] + b[1..];
    }
  }

  lemma SameHex(a: nat, b: nat)
    requires a < 16 && b < 16 && Hex(a) == Hex(b)
    ensures a == b
  {
  }

  /** The code of one character is not a prefix of another's. */
  lemma SameChar(c: char, d: char, r: string, s: string)
    requires EscapedChar(c) + r == EscapedChar(d) + s
    ensures c == d && r == s
  {
    var x, y := EscapedChar(c), EscapedChar(d);
    assert (x + r)[0] == x[0] && (y + s)[0] == y[0];
    if |x| > 1 && |y| > 1 {
      assert (x + r)[1] == x[1] && (y + s)[1] == y[1];
      if |x| == 6 && |y| == 6 {
        assert (x + r)[4] == x[4] && (y + s)[4] == y[4];
        assert (x + r)[5] == x[5] && (y + s)[5] == y[5];
        SameHex(c as int / 16, d as int / 16);
        SameHex(c as int % 16, d as int % 16);
      }
    }
    Cancel(x, r, s);
  }

  /** The closing quote is the first bare one. */
  lemma QuoteCloses(x: string, r: string)
    ensures (Escaped(x) + ("\"" + r))[0] == '"' <==> x == ""
  {
    if x != "" { assert (Escaped(x) + ("\"" + r))[0] == EscapedChar(x[0])[0]; }
  }

  lemma EscapedStep(x: string, r: string)
    requires x != ""
    ensures Escaped(x) + ("\"" + r) == EscapedChar(x[0]) + (Escaped(x[1..]) + ("\"" + r))
  {
  }

  lemma {:induction false} SameString(x: string, y: string, r: string, s: string)
    requires Escaped(x) + ("\"" + r) == Escaped(y) + ("\"" + s)
    ensures x == y && r == s
  {
    QuoteCloses(x, r);
    QuoteCloses(y, s);
    if x == "" {
      Cancel("\"", r, s) by {
        assert "" + ("\"" + r) == "\"" + r && "" + ("\"" + s) == "\"" + s;
      }
    } else {
      EscapedStep(x, r);
      EscapedStep(y, s);
      SameChar(x[0], y[0], Escaped(x[1..]) + ("\"" + r), Escaped(y[1..]) + ("\"" + s));
      SameString(x[1..], y[1..], r, s);
      assert x == [x[0]] + x[1..] && y == [y[0]] + y[1..];
    }
  }

  lemma QuoteOpens(x: string, r: string)
    ensures Quoted(x) + r == "\"" + (Escaped(x) + ("\"" + r))
  {
    hide Escaped;
  }

  lemma SameQuoted(x: string, y: string, r: string, s: string)
    requires Quoted(x) + r == Quoted(y) + s
    ensures x == y && r == s
  {
    hide *;
    QuoteOpens(x, r);
    QuoteOpens(y, s);
    Cancel("\"", Escaped(x) + ("\"" + r), Escaped(y) + ("\"" + s));
    SameString(x, y, r, s);
  }

  /** Numbers that print as themselves, rather than as null. */
  ghost predicate Finite(j: Json) {
    match j
    case JNumber(bits) => IsFinite(bits)
    case JArray(items) => forall i :: 0 <= i < |items| ==> Finite(items[i])
    case JObject(fields) => forall name :: name in fields ==> Finite(fields[name])
    case _ => true
  }

  datatype Kind = ANull | ATrue | AFalse | ANumber | AString | AnArray | AnObject

  function KindOf(j: Json): Kind {
    match j
    case JNull => ANull
    case JBool(b) => if b then ATrue else AFalse
    case JNumber(_) => ANumber
    case JString(_) => AString
    case JArray(_) => AnArray
    case JObject(_) => AnObject
  }

  function KindBy(c: char): Kind {
    if c == 'n' then ANull else if c == 't' then ATrue else if c == 'f' then AFalse
    else if c == '"' then AString else if c == '[' then AnArray else if c == '{' then AnObject else ANumber
  }

  /** The first character tells what kind of document it is. */
  lemma FirstCharTells(j: Json, show: Printer)
    requires Faithful(show) && Finite(j)
    ensures Dump(j, show) != "" && KindBy(Dump(j, show)[0]) == KindOf(j)
    ensures !Delimited(Dump(j, show))
  {
    if j.JNumber? {
      assert NumberText(show(j.bits));
      assert NumberChar(show(j.bits)[0]);
    }
  }

  lemma SameKind(j: Json, k: Json, r: string, s: string, show: Printer)
    requires Faithful(show) && Finite(j) && Finite(k) && Dump(j, show) + r == Dump(k, show) + s
    ensures KindOf(j) == KindOf(k)
  {
    FirstCharTells(j, show);
    FirstCharTells(k, show);
    assert (Dump(j, show) + r)[0] == Dump(j, show)[0] && (Dump(k, show) + s)[0] == Dump(k, show)[0];
  }

  lemma Unbracketed(open: string, a: string, b: string, close: string, r: string, s: string)
    requires (open + a + close) + r == (open + b + close) + s
    ensures a + (close + r) == b + (close + s)
  {
    assert (open + a + close) + r == open + (a + (close + r));
    assert (open + b + close) + s == open + (b + (close + s));
    Cancel(open, a + (close + r), b + (close + s));
  }

  /** Two documents whose printed texts agree as far as either goes are the same document. */
  lemma {:induction false} SameDocument(j: Json, k: Json, r: string, s: string, show: Printer)
    requires Faithful(show) && Finite(j) && Finite(k)
    requires Delimited(r) && Delimited(s) && Dump(j, show) + r == Dump(k, show) + s
    ensures j == k && r == s
    decreases j, 2, 0
  {
    SameKind(j, k, r, s, show);
    match j
    case JNumber(bits) =>
      assert NumberText(show(bits)) && NumberText(show(k.bits));
      SameNumber(show(bits), show(k.bits), r, s);
    case JString(text) => SameQuoted(text, k.text, r, s);
    case JArray(items) =>
      Unbracketed("[", DumpItems(j, 0, show), DumpItems(k, 0, show), "]", r, s);
      SameItems(j, k, 0, r, s, show);
      assert items == items[0..] && k.items == k.items[0..];
    case JObject(fields) =>
      Unbracketed("{", DumpMembers(j, 0, show), DumpMembers(k, 0, show), "}", r, s);
      SameMembers(j, k, 0, r, s, show);
      SameFields(j, k);
    case _ => Cancel(Dump(j, show), r, s);
  }

  /** What follows an item is delimited. */
  lemma ItemsDelimited(j: Json, k: nat, r: string, show: Printer)
    requires j.JArray? && 0 < k <= |j.items|
    ensures Delimited(DumpItems(j, k, show) + ("]" + r))
  {
    if k == |j.items| { assert DumpItems(j, k, show) + ("]" + r) == "]" + r; }
  }

  lemma ItemAt(j: Json, i: nat, r: string, show: Printer)
    requires j.JArray? && i < |j.items|
    ensures DumpItems(j, i, show) + ("]" + r)
            == Comma(i) + (Dump(j.items[i], show) + (DumpItems(j, i + 1, show) + ("]" + r)))
  {
  }

  lemma ItemsEnd(j: Json, k: Json, i: nat, r: string, s: string, show: Printer)
    requires Faithful(show) && Finite(k) && j.JArray? && k.JArray? && i == |j.items| < |k.items|
    ensures DumpItems(j, i, show) + ("]" + r) != DumpItems(k, i, show) + ("]" + s)
  {
    FirstCharTells(k.items[i], show);
    ItemAt(k, i, s, show);
    assert (DumpItems(j, i, show) + ("]" + r))[0] == ']';
    var text := DumpItems(k, i, show) + ("]" + s);
    assert text[0] == (if i == 0 then Dump(k.items[i], show)[0] else ',');
  }

  lemma {:induction false} SameItems(j: Json, k: Json, i: nat, r: string, s: string, show: Printer)
    requires Faithful(show) && Finite(j) && Finite(k) && j.JArray? && k.JArray?
    requires i <= |j.items| && i <= |k.items| && DumpItems(j, i, show) + ("]" + r) == DumpItems(k, i, show) + ("]" + s)
    ensures j.items[i..] == k.items[i..] && r == s
    decreases j, 1, |j.items| - i
  {
    hide Dump, Faithful, Delimited, Comma;
    if i == |j.items| && i == |k.items| {
      assert "" + ("]" + r) == "]" + r && "" + ("]" + s) == "]" + s;
      Cancel("]", r, s);
    } else if i == |j.items| {
      ItemsEnd(j, k, i, r, s, show);
    } else if i == |k.items| {
      ItemsEnd(k, j, i, s, r, show);
    } else {
      var r1, s1 := DumpItems(j, i + 1, show) + ("]" + r), DumpItems(k, i + 1, show) + ("]" + s);
      ItemAt(j, i, r, show);
      ItemAt(k, i, s, show);
      Cancel(Comma(i), Dump(j.items[i], show) + r1, Dump(k.items[i], show) + s1);
      ItemsDelimited(j, i + 1, r, show);
      ItemsDelimited(k, i + 1, s, show);
      SameDocument(j.items[i], k.items[i], r1, s1, show);
      SameItems(j, k, i + 1, r, s, show);
      assert j.items[i..] == [j.items[i]] + j.items[i + 1..] && k.items[i..] == [k.items[i]] + k.items[i + 1..];
    }
  }

  ghost predicate AgreeAt(j: Json, k: Json, i: nat)
    requires j.JObject? && k.JObject? && i < |Names(j)| && i < |Names(k)|
  {
    var name := Names(j)[i];
    name == Names(k)[i] && name in j.fields && name in k.fields && j.fields[name] == k.fields[name]
  }

  /** From the `i`th name on, both objects have the same fields. */
  ghost predicate AgreeFrom(j: Json, k: Json, i: nat)
    requires j.JObject? && k.JObject? && i <= |Names(j)| && i <= |Names(k)|
    decreases |Names(j)| - i
  {
    if i == |Names(j)| || i == |Names(k)| then |Names(j)| == |Names(k)|
    else AgreeAt(j, k, i) && AgreeFrom(j, k, i + 1)
  }

  lemma {:induction false} AgreeEverywhere(j: Json, k: Json, i: nat, n: nat)
    requires j.JObject? && k.JObject? && i <= n < |Names(j)| && i <= |Names(k)| && AgreeFrom(j, k, i)
    ensures |Names(j)| == |Names(k)| && AgreeAt(j, k, n)
    decreases n - i
  {
    if i < n { AgreeEverywhere(j, k, i + 1, n); }
    if i < |Names(j)| && i < |Names(k)| { SameSize(j, k, i); }
  }

  lemma {:induction false} SameSize(j: Json, k: Json, i: nat)
    requires j.JObject? && k.JObject? && i <= |Names(j)| && i <= |Names(k)| && AgreeFrom(j, k, i)
    ensures |Names(j)| == |Names(k)|
    decreases |Names(j)| - i
  {
    if i < |Names(j)| && i < |Names(k)| { SameSize(j, k, i + 1); }
  }

  lemma SameFields(j: Json, k: Json)
    requires j.JObject? && k.JObject? && AgreeFrom(j, k, 0)
    ensures j == k
  {
    SameSize(j, k, 0);
    var names, others := Names(j), Names(k);
    forall n | 0 <= n < |names|
      ensures names[n] == others[n] && names[n] in k.fields && j.fields[names[n]] == k.fields[names[n]]
    {
      AgreeEverywhere(j, k, 0, n);
    }
    assert names == others;
    forall name | name in j.fields
      ensures name in k.fields && j.fields[name] == k.fields[name]
    {
      assert name in names;
      var n :| 0 <= n < |names| && names[n] == name;
    }
    assert forall name :: name in k.fields ==> name in others;
    assert j.fields == k.fields;
  }

  lemma MembersDelimited(j: Json, k: nat, r: string, show: Printer)
    requires j.JObject? && 0 < k <= |Names(j)|
    ensures Delimited(DumpMembers(j, k, show) + ("}" + r))
  {
    if k == |Names(j)| { assert DumpMembers(j, k, show) + ("}" + r) == "}" + r; }
  }

  lemma MemberAt(j: Json, i: nat, r: string, show: Printer)
    requires j.JObject? && i < |Names(j)|
    ensures Names(j)[i] in j.fields
    ensures DumpMembers(j, i, show) + ("}" + r)
            == Comma(i) + (Quoted(Names(j)[i])
                           + (":" + (Dump(j.fields[Names(j)[i]], show) + (DumpMembers(j, i + 1, show) + ("}" + r)))))
  {
    assert Names(j)[i] in Names(j);
    var name := Names(j)[i];
    var field, rest := Dump(j.fields[name], show), DumpMembers(j, i + 1, show);
    Reassociate(Comma(i), Quoted(name), field, rest, "}" + r);
  }

  lemma Reassociate(a: string, b: string, c: string, d: string, e: string)
    ensures (a + (b + (":" + (c + d)))) + e == a + (b + (":" + (c + (d + e))))
  {
  }

  lemma MembersEnd(j: Json, k: Json, i: nat, r: string, s: string, show: Printer)
    requires j.JObject? && k.JObject? && i == |Names(j)| < |Names(k)|
    ensures DumpMembers(j, i, show) + ("}" + r) != DumpMembers(k, i, show) + ("}" + s)
  {
    MemberAt(k, i, s, show);
    assert (DumpMembers(j, i, show) + ("}" + r))[0] == '}';
    var text := DumpMembers(k, i, show) + ("}" + s);
    assert text[0] == (if i == 0 then '"' else ',');
  }

  /** The next member of both has the same name, and then the same text follows. */
  lemma PeelMember(j: Json, k: Json, i: nat, r: string, s: string, show: Printer)
    requires j.JObject? && k.JObject? && i < |Names(j)| && i < |Names(k)|
    requires DumpMembers(j, i, show) + ("}" + r) == DumpMembers(k, i, show) + ("}" + s)
    ensures Names(j)[i] == Names(k)[i] && Names(j)[i] in j.fields && Names(k)[i] in k.fields
    ensures Dump(j.fields[Names(j)[i]], show) + (DumpMembers(j, i + 1, show) + ("}" + r))
            == Dump(k.fields[Names(k)[i]], show) + (DumpMembers(k, i + 1, show) + ("}" + s))
  {
    MemberAt(j, i, r, show);
    MemberAt(k, i, s, show);
    SameMember(Comma(i), Names(j)[i], Names(k)[i],
               Dump(j.fields[Names(j)[i]], show) + (DumpMembers(j, i + 1, show) + ("}" + r)),
               Dump(k.fields[Names(k)[i]], show) + (DumpMembers(k, i + 1, show) + ("}" + s)));
  }

  lemma EndTogether(j: Json, k: Json, i: nat, r: string, s: string, show: Printer)
    requires j.JObject? && k.JObject? && i <= |Names(j)| && i <= |Names(k)|
    requires DumpMembers(j, i, show) + ("}" + r) == DumpMembers(k, i, show) + ("}" + s)
    ensures i == |Names(j)| <==> i == |Names(k)|
    ensures i == |Names(j)| ==> r == s
  {
    if i == |Names(j)| && i == |Names(k)| {
      assert "" + ("}" + r) == "}" + r && "" + ("}" + s) == "}" + s;
      Cancel("}", r, s);
    } else if i == |Names(j)| {
      MembersEnd(j, k, i, r, s, show);
    } else if i == |Names(k)| {
      MembersEnd(k, j, i, s, r, show);
    }
  }

  lemma {:induction false} SameNext(j: Json, k: Json, i: nat, r: string, s: string, show: Printer)
    requires Faithful(show) && Finite(j) && Finite(k) && j.JObject? && k.JObject? && i < |Names(j)| && i <= |Names(k)|
    requires DumpMembers(j, i, show) + ("}" + r) == DumpMembers(k, i, show) + ("}" + s)
    ensures i < |Names(k)| && AgreeAt(j, k, i)
    ensures DumpMembers(j, i + 1, show) + ("}" + r) == DumpMembers(k, i + 1, show) + ("}" + s)
    decreases j, 0, 0
  {
    EndTogether(j, k, i, r, s, show);
    PeelMember(j, k, i, r, s, show);
    MembersDelimited(j, i + 1, r, show);
    MembersDelimited(k, i + 1, s, show);
    SameDocument(j.fields[Names(j)[i]], k.fields[Names(k)[i]],
                 DumpMembers(j, i + 1, show) + ("}" + r), DumpMembers(k, i + 1, show) + ("}" + s), show);
  }

  lemma {:induction false} SameMembers(j: Json, k: Json, i: nat, r: string, s: string, show: Printer)
    requires Faithful(show) && Finite(j) && Finite(k) && j.JObject? && k.JObject?
    requires i <= |Names(j)| && i <= |Names(k)|
    requires DumpMembers(j, i, show) + ("}" + r) == DumpMembers(k, i, show) + ("}" + s)
    ensures AgreeFrom(j, k, i) && r == s
    decreases j, 1, |Names(j)| - i
  {
    if i == |Names(j)| {
      EndTogether(j, k, i, r, s, show);
    } else {
      SameNext(j, k, i, r, s, show);
      SameMembers(j, k, i + 1, r, s, show);
    }
  }

  lemma SameMember(comma: string, x: string, y: string, r: string, s: string)
    requires comma + (Quoted(x) + (":" + r)) == comma + (Quoted(y) + (":" + s))
    ensures x == y && r == s
  {
    Cancel(comma, Quoted(x) + (":" + r), Quoted(y) + (":" + s));
    SameQuoted(x, y, ":" + r, ":" + s);
    Cancel(":", r, s);
  }

  /** Two documents print alike only when they are equal. */
  lemma DumpInjective(j: Json, k: Json, show: Printer)
    requires Faithful(show) && Finite(j) && Finite(k) && Dump(j, show) == Dump(k, show)
    ensures j == k
  {
    assert Dump(j, show) + "" == Dump(k, show) + "";
    SameDocument(j, k, "", "", show);
  }
}
