/**
 * Printed JSON, read back: strings by a reader after section 7 of RFC 8259, and the shape of arrays and objects as
 * comma-separated lists (sections 4 and 5).
 */
module JsonReading {
  import opened Wrappers
  import opened Ordering
  import opened Values
  import opened JsonCodec
  import opened JsonText
  import opened WireFormat

  // ---- Strings ------------------------------------------------------------------

  function HexValue(c: char): Option<nat> {
    if '0' <= c <= '9' then Some(c as int - '0' as int)
    else if 'a' <= c <= 'f' then Some(c as int - 'a' as int + 10)
    else if 'A' <= c <= 'F' then Some(c as int - 'A' as int + 10)
    else None
  }

  /** The character a two-character escape stands for. */
  function Unescaped(c: char): Option<char> {
    if c == '"' || c == '\\' || c == '/' then Some(c)
    else if c == 'b' then Some(8 as char)
    else if c == 't' then Some(9 as char)
    else if c == 'n' then Some(10 as char)
    else if c == 'f' then Some(12 as char)
    else if c == 'r' then Some(13 as char)
    else None
  }

  /** Reads one character of a string that is not its closing quote: the character, and how long it is written. */
  function ReadChar(text: string): Option<(char, nat)>
    requires text != "" && text[0] != '"'
  {
    if text[0] != '\\' then (if text[0] as int < 32 then None else Some((text[0], 1)))
    else if |text| < 2 then None
    else if text[1] != 'u' then (if Unescaped(text[1]).None? then None else Some((Unescaped(text[1]).value, 2)))
    else if |text| < 6 then None
    else
      var (a, b, c, d) := (HexValue(text[2]), HexValue(text[3]), HexValue(text[4]), HexValue(text[5]));
      if a.None? || b.None? || c.None? || d.None? then None
      else
        var code := ((a.value * 16 + b.value) * 16 + c.value) * 16 + d.value;
        if 0xD800 <= code < 0xE000 then None else Some((code as char, 6))
  }

  /** Reads a string from behind its opening quote: what it holds, and what follows its closing quote. */
  function ReadString(text: string): Option<(string, string)>
    decreases |text|
  {
    if text == "" then None
    else if text[0] == '"' then Some(("", text[1..]))
    else
      var first := ReadChar(text);
      if first.None? || first.value.1 == 0 || first.value.1 > |text| then None
      else
        var rest := ReadString(text[first.value.1..]);
        if rest.None? then None else Some(([first.value.0] + rest.value.0, rest.value.1))
  }

  lemma HexReads(d: nat)
    requires d < 16
    ensures HexValue(Hex(d)) == Some(d)
  {
  }

  lemma CharReads(c: char, r: string)
    ensures var text := EscapedChar(c) + r;
            text[0] != '"' && ReadChar(text) == Some((c, |EscapedChar(c)|))
  {
    var x := EscapedChar(c);
    var text := x + r;
    assert forall k :: 0 <= k < |x| ==> text[k] == x[k];
    if |x| == 6 {
      HexReads(c as int / 16);
      HexReads(c as int % 16);
      assert c as int == c as int / 16 * 16 + c as int % 16;
    }
  }

  /** A printed string is read back as what was printed, up to its closing quote and no further. */
  lemma {:induction false} StringReads(s: string, r: string)
    ensures ReadString(Escaped(s) + ("\"" + r)) == Some((s, r))
    decreases |s|
  {
    if s == "" {
      assert "" + ("\"" + r) == "\"" + r;
      assert ("\"" + r)[1..] == r;
    } else {
      var rest := Escaped(s[1..]) + ("\"" + r);
      StringReads(s[1..], r);
      EscapedStep(s, r);
      CharReads(s[0], rest);
      assert (EscapedChar(s[0]) + rest)[|EscapedChar(s[0])|..] == rest;
      assert s == [s[0]] + s[1..];
    }
  }

  // ---- Arrays and objects -----------------------------------------------------------

  /** `parts` with commas between them. */
  function Separated(parts: seq<string>): string {
    if parts == [] then ""
    else if |parts| == 1 then parts[0]
    else parts[0] + ("," + Separated(parts[1..]))
  }

  ghost function ItemTexts(j: Json, show: Printer): seq<string>
    requires j.JArray?
  {
    seq(|j.items|, i requires 0 <= i < |j.items| => Dump(j.items[i], show))
  }

  ghost function MemberText(j: Json, name: string, show: Printer): string
    requires j.JObject? && name in j.fields
  {
    Quoted(name) + (":" + Dump(j.fields[name], show))
  }

  ghost function MemberTexts(j: Json, show: Printer): seq<string>
    requires j.JObject?
  {
    seq(|SortedStrings(j.fields.Keys)|, i requires 0 <= i < |SortedStrings(j.fields.Keys)| =>
      var name := SortedStrings(j.fields.Keys)[i];
      assert name in SortedStrings(j.fields.Keys);
      MemberText(j, name, show))
  }

  /** The rest of a list from its `k`th part on, a comma first unless it is the first. */
  function From(parts: seq<string>, k: nat): string
    requires k <= |parts|
  {
    if k == |parts| then "" else Comma(k) + Separated(parts[k..])
  }

  lemma FromNext(parts: seq<string>, k: nat)
    requires k < |parts|
    ensures From(parts, k) == Comma(k) + (parts[k] + From(parts, k + 1))
  {
    var rest := parts[k..];
    assert rest[0] == parts[k] && rest[1..] == parts[k + 1..];
    if k + 1 == |parts| { assert parts[k] + "" == parts[k]; }
  }

  lemma ItemNext(j: Json, k: nat, show: Printer)
    requires j.JArray? && k < |j.items|
    ensures DumpItems(j, k, show) == Comma(k) + (ItemTexts(j, show)[k] + DumpItems(j, k + 1, show))
  {
    hide Dump, Comma;
  }

  lemma ManyItems(j: Json, show: Printer)
    requires j.JArray?
    ensures |ItemTexts(j, show)| == |j.items|
  {
  }

  lemma {:induction false} ItemsSeparated(j: Json, k: nat, show: Printer)
    requires j.JArray? && k <= |j.items|
    ensures |ItemTexts(j, show)| == |j.items|
    ensures DumpItems(j, k, show) == From(ItemTexts(j, show), k)
    decreases |j.items| - k
  {
    hide Dump, Separated, Comma, ItemTexts;
    ManyItems(j, show);
    if k < |j.items| {
      ItemsSeparated(j, k + 1, show);
      FromNext(ItemTexts(j, show), k);
      ItemNext(j, k, show);
    }
  }

  lemma MemberNext(j: Json, k: nat, show: Printer)
    requires j.JObject? && k < |Names(j)|
    ensures DumpMembers(j, k, show) == Comma(k) + (MemberTexts(j, show)[k] + DumpMembers(j, k + 1, show))
  {
    hide Dump, Comma, Quoted;
    var name := Names(j)[k];
    assert name in Names(j);
    Regrouped(Quoted(name), Dump(j.fields[name], show), DumpMembers(j, k + 1, show));
  }

  lemma Regrouped(name: string, field: string, rest: string)
    ensures name + (":" + (field + rest)) == (name + (":" + field)) + rest
  {
  }

  lemma {:induction false} MembersSeparated(j: Json, k: nat, show: Printer)
    requires j.JObject? && k <= |Names(j)|
    ensures DumpMembers(j, k, show) == From(MemberTexts(j, show), k)
    decreases |Names(j)| - k
  {
    hide Dump, Separated, Comma, Quoted, MemberText;
    if k < |Names(j)| {
      MembersSeparated(j, k + 1, show);
      FromNext(MemberTexts(j, show), k);
      MemberNext(j, k, show);
    }
  }

  lemma FromStart(parts: seq<string>)
    ensures From(parts, 0) == Separated(parts)
  {
    assert parts[0..] == parts;
    assert "" + Separated(parts) == Separated(parts);
  }

  /** What every document is printed as; object members in the order of their names. */
  lemma DumpSpelled(j: Json, show: Printer)
    ensures Dump(j, show)
            == match j
               case JNull => "null"
               case JBool(b) => (if b then "true" else "false")
               case JNumber(bits) => (if InfiniteOrNaN(bits) then "null" else show(bits))
               case JString(text) => "\"" + Escaped(text) + "\""
               case JArray(_) => "[" + Separated(ItemTexts(j, show)) + "]"
               case JObject(_) => "{" + Separated(MemberTexts(j, show)) + "}"
  {
    hide Separated;
    match j
    case JArray(_) =>
      ItemsSeparated(j, 0, show);
      FromStart(ItemTexts(j, show));
    case JObject(_) =>
      MembersSeparated(j, 0, show);
      FromStart(MemberTexts(j, show));
    case _ =>
  }
}
