/** The JSON text the gateway writes and reads back: strings, natural numbers, arrays and objects,
    printed as ASCII with the escapes of section 7 of RFC 8259, in the two separator styles used. */
module Json {
  import opened Wrappers

  datatype Json =
    | JStr(text: string)
    | JNum(number: nat)
    | JArr(items: seq<Json>)
    | JObj(members: seq<(string, Json)>)

  datatype Style = Style(itemSep: string, keySep: string)

  const COMPACT := Style(",", ":")
  const SPACED := Style(", ", ": ")

  // ---------- characters ----------

  function HexDigit(d: nat): char
    requires d < 16
  {
    if d < 10 then '0' + d as char else 'a' + (d - 10) as char
  }

  function HexValue(c: char): Option<nat> {
    if '0' <= c <= '9' then Some((c - '0') as nat)
    else if 'a' <= c <= 'f' then Some((c - 'a') as nat + 10)
    else if 'A' <= c <= 'F' then Some((c - 'A') as nat + 10)
    else None
  }

  lemma HexDigitValue(d: nat)
    requires d < 16
    ensures HexValue(HexDigit(d)) == Some(d)
  {
  }

  function Hex4(n: nat): (s: string)
    requires n < 0x10000
    ensures |s| == 4
  {
    [HexDigit(n / 4096), HexDigit(n / 256 % 16), HexDigit(n / 16 % 16), HexDigit(n % 16)]
  }

  function ReadHex4(s: string): Option<nat> {
    if |s| < 4 then None
    else
      var a, b, c, d := HexValue(s[0]), HexValue(s[1]), HexValue(s[2]), HexValue(s[3]);
      if a.None? || b.None? || c.None? || d.None? then None
      else Some(4096 * a.value + 256 * b.value + 16 * c.value + d.value)
  }

  lemma HexParts(n: nat)
    requires n < 0x10000
    ensures n == 4096 * (n / 4096) + 256 * (n / 256 % 16) + 16 * (n / 16 % 16) + n % 16
  {
    var a, b := n / 16, n / 256;
    assert b == a / 16 && n / 4096 == b / 16;
  }

  lemma ReadHex4Digits(s: string, a: nat, b: nat, c: nat, d: nat)
    requires |s| >= 4
    requires HexValue(s[0]) == Some(a) && HexValue(s[1]) == Some(b)
    requires HexValue(s[2]) == Some(c) && HexValue(s[3]) == Some(d)
    ensures ReadHex4(s) == Some(4096 * a + 256 * b + 16 * c + d)
  {
  }

  lemma ReadHex4Hex4(n: nat, rest: string)
    requires n < 0x10000
    ensures ReadHex4(Hex4(n) + rest) == Some(n)
  {
    var a, b, c, d := n / 4096, n / 256 % 16, n / 16 % 16, n % 16;
    HexDigitValue(a);
    HexDigitValue(b);
    HexDigitValue(c);
    HexDigitValue(d);
    HexParts(n);
    ReadHex4Digits(Hex4(n) + rest, a, b, c, d);
  }

  /** One character as `json.dumps` writes it inside a string literal. */
  function EscapeChar(c: char): (s: string)
    ensures |s| > 0 && s[0] != '"'
  {
    var n := c as int;
    if c == '"' then ['\\', '"']
    else if c == '\\' then ['\\', '\\']
    else if c == '\n' then ['\\', 'n']
    else if c == '\r' then ['\\', 'r']
    else if c == '\t' then ['\\', 't']
    else if n == 0x0c then ['\\', 'f']
    else if n == 0x08 then ['\\', 'b']
    else if 0x20 <= n <= 0x7e then [c]
    else if n < 0x10000 then ['\\', 'u'] + Hex4(n)
    else
      ['\\', 'u'] + Hex4(0xd800 + (n - 0x10000) / 1024) + ['\\', 'u'] + Hex4(0xdc00 + (n - 0x10000) % 1024)
  }

  function Escape(s: string): string {
    if s == [] then [] else EscapeChar(s[0]) + Escape(s[1..])
  }

  predicate IsScalar(n: nat) {
    n < 0xd800 || 0xe000 <= n < 0x110000
  }

  /** Reads the character after a backslash-u. */
  function ReadUnicode(s: string): (r: Option<(char, string)>)
    ensures r.Some? ==> |r.value.1| < |s|
  {
    var v := ReadHex4(s);
    if v.None? then None
    else if IsScalar(v.value) then Some((v.value as char, s[4..]))
    else if v.value < 0xdc00 && |s| >= 10 && s[4] == '\\' && s[5] == 'u' then
      var w := ReadHex4(s[6..]);
      if w.None? || !(0xdc00 <= w.value < 0xe000) then None
      else
        var n := 0x10000 + (v.value - 0xd800) * 1024 + (w.value - 0xdc00);
        Some((n as char, s[10..]))
    else None
  }

  function ReadChar(s: string): (r: Option<(char, string)>)
    requires |s| > 0
    ensures r.Some? ==> |r.value.1| < |s|
  {
    if s[0] != '\\' then
      if (s[0] as int) < 0x20 then None else Some((s[0], s[1..]))
    else if |s| < 2 then None
    else if s[1] == '"' || s[1] == '\\' || s[1] == '/' then Some((s[1], s[2..]))
    else if s[1] == 'n' then Some(('\n', s[2..]))
    else if s[1] == 'r' then Some(('\r', s[2..]))
    else if s[1] == 't' then Some(('\t', s[2..]))
    else if s[1] == 'f' then Some((0x0c as char, s[2..]))
    else if s[1] == 'b' then Some((0x08 as char, s[2..]))
    else if s[1] == 'u' then ReadUnicode(s[2..])
    else None
  }

  /** Reads up to the closing quote. */
  function ReadString(s: string): (r: Option<(string, string)>)
    ensures r.Some? ==> |r.value.1| < |s|
    decreases |s|
  {
    if s == [] then None
    else if s[0] == '"' then Some(([], s[1..]))
    else
      var c := ReadChar(s);
      if c.None? then None
      else
        var t := ReadString(c.value.1);
        if t.None? then None else Some(([c.value.0] + t.value.0, t.value.1))
  }

  lemma ReadPair(s: string, hi: nat, lo: nat)
    requires |s| >= 10 && s[4] == '\\' && s[5] == 'u'
    requires 0xd800 <= hi < 0xdc00 <= lo < 0xe000
    requires ReadHex4(s) == Some(hi) && ReadHex4(s[6..]) == Some(lo)
    ensures ReadUnicode(s) == Some(((0x10000 + (hi - 0xd800) * 1024 + (lo - 0xdc00)) as char, s[10..]))
  {
  }

  lemma ReadUnicodePair(n: nat, rest: string)
    requires 0x10000 <= n < 0x110000
    ensures ReadUnicode(Hex4(0xd800 + (n - 0x10000) / 1024)
                        + (['\\', 'u'] + (Hex4(0xdc00 + (n - 0x10000) % 1024) + rest)))
            == Some((n as char, rest))
  {
    var hi, lo := 0xd800 + (n - 0x10000) / 1024, 0xdc00 + (n - 0x10000) % 1024;
    var low := Hex4(lo) + rest;
    var s := Hex4(hi) + (['\\', 'u'] + low);
    ReadHex4Hex4(hi, ['\\', 'u'] + low);
    ReadHex4Hex4(lo, rest);
    assert s[6..] == low;
    assert s[10..] == rest;
    ReadPair(s, hi, lo);
  }

  lemma ReadUnicodeBasic(n: nat, rest: string)
    requires n < 0x10000 && IsScalar(n)
    ensures ReadUnicode(Hex4(n) + rest) == Some((n as char, rest))
  {
    ReadHex4Hex4(n, rest);
    assert (Hex4(n) + rest)[4..] == rest;
  }

  lemma ReadCharUnicode(s: string, u: string, c: char, rest: string)
    requires s == ['\\', 'u'] + u && ReadUnicode(u) == Some((c, rest))
    ensures ReadChar(s) == Some((c, rest))
  {
    assert s[2..] == u;
  }

  lemma ReadShort(c: char, rest: string)
    requires |EscapeChar(c)| <= 2
    ensures ReadChar(EscapeChar(c) + rest) == Some((c, rest))
  {
    var s := EscapeChar(c) + rest;
    if |EscapeChar(c)| == 2 {
      assert s[2..] == rest;
    } else {
      assert s[1..] == rest;
    }
  }

  lemma ReadEscapedBasic(c: char, rest: string)
    requires |EscapeChar(c)| > 2 && (c as int) < 0x10000
    ensures ReadChar(EscapeChar(c) + rest) == Some((c, rest))
  {
    var n := c as int;
    var h := Hex4(n);
    assert EscapeChar(c) == ['\\', 'u'] + h;
    hide EscapeChar, Hex4, ReadUnicode, ReadChar;
    ReadUnicodeBasic(n, rest);
    assert (['\\', 'u'] + h) + rest == ['\\', 'u'] + (h + rest);
    ReadCharUnicode(EscapeChar(c) + rest, h + rest, c, rest);
  }

  lemma Reassociate(a: string, b: string, c: string, d: string, e: string)
    ensures a + b + c + d + e == a + (b + (c + (d + e)))
  {
    assert a + b + c + d + e == (a + b + c) + (d + e);
    assert (a + b + c) + (d + e) == (a + b) + (c + (d + e));
  }

  lemma PairEscapes(c: char)
    requires (c as int) >= 0x10000
    ensures var n := c as int;
            EscapeChar(c) == ['\\', 'u'] + Hex4(0xd800 + (n - 0x10000) / 1024)
                             + ['\\', 'u'] + Hex4(0xdc00 + (n - 0x10000) % 1024)
  {
    hide Hex4;
  }

  lemma ReadEscapedPair(c: char, rest: string)
    requires (c as int) >= 0x10000
    ensures ReadChar(EscapeChar(c) + rest) == Some((c, rest))
  {
    hide EscapeChar, Hex4, ReadUnicode, ReadChar;
    PairEscapes(c);
    var n := c as int;
    var hi, lo := Hex4(0xd800 + (n - 0x10000) / 1024), Hex4(0xdc00 + (n - 0x10000) % 1024);
    var u := hi + (['\\', 'u'] + (lo + rest));
    ReadUnicodePair(n, rest);
    Reassociate(['\\', 'u'], hi, ['\\', 'u'], lo, rest);
    ReadCharUnicode(EscapeChar(c) + rest, u, c, rest);
  }

  lemma ReadEscapedChar(c: char, rest: string)
    ensures ReadChar(EscapeChar(c) + rest) == Some((c, rest))
  {
    var long := |EscapeChar(c)| > 2;
    hide EscapeChar, ReadChar;
    if !long {
      ReadShort(c, rest);
    } else if (c as int) < 0x10000 {
      ReadEscapedBasic(c, rest);
    } else {
      ReadEscapedPair(c, rest);
    }
  }

  lemma {:induction false} ReadEscaped(t: string, rest: string)
    ensures ReadString(Escape(t) + ['"'] + rest) == Some((t, rest))
  {
    var s := Escape(t) + ['"'] + rest;
    if t == [] {
      assert s == ['"'] + rest;
      assert s[1..] == rest;
    } else {
      var tail := Escape(t[1..]) + ['"'] + rest;
      assert s == EscapeChar(t[0]) + tail;
      ReadEscapedChar(t[0], tail);
      ReadEscaped(t[1..], rest);
      assert t == [t[0]] + t[1..];
    }
  }

  // ---------- numbers ----------

  predicate IsDigit(c: char) { '0' <= c <= '9' }

  function Decimal(n: nat): (s: string)
    ensures |s| > 0 && forall c <- s :: IsDigit(c)
  {
    var d := (n % 10) as char + '0';
    if n < 10 then [d] else Decimal(n / 10) + [d]
  }

  function DecimalValue(s: string): nat
    requires forall c <- s :: IsDigit(c)
  {
    if s == [] then 0
    else
      var last := s[|s| - 1];
      assert IsDigit(last);
      DecimalValue(s[..|s| - 1]) * 10 + (last - '0') as nat
  }

  lemma {:induction false} DecimalValueDecimal(n: nat)
    ensures DecimalValue(Decimal(n)) == n
    ensures Decimal(n)[0] == '0' <==> n == 0
  {
    var s := Decimal(n);
    if n < 10 {
      assert s[..0] == [];
    } else {
      assert s[..|s| - 1] == Decimal(n / 10);
      DecimalValueDecimal(n / 10);
    }
  }

  function DigitSpan(s: string): (k: nat)
    ensures k <= |s| && forall i | 0 <= i < k :: IsDigit(s[i])
  {
    if s == [] || !IsDigit(s[0]) then 0 else 1 + DigitSpan(s[1..])
  }

  lemma {:induction false} SpanOfDigits(d: string, rest: string)
    requires forall c <- d :: IsDigit(c)
    requires rest == [] || !IsDigit(rest[0])
    ensures DigitSpan(d + rest) == |d|
  {
    if d == [] {
      assert d + rest == rest;
    } else {
      assert (d + rest)[1..] == d[1..] + rest;
      SpanOfDigits(d[1..], rest);
    }
  }

  // ---------- printing ----------

  function Quote(s: string): string {
    ['"'] + Escape(s) + ['"']
  }

  function Print(st: Style, v: Json): string {
    match v
    case JStr(s) => Quote(s)
    case JNum(n) => Decimal(n)
    case JArr(items) => if items == [] then "[]" else "[" + PrintItems(st, items) + "]"
    case JObj(members) => if members == [] then "{}" else "{" + PrintMembers(st, members) + "}"
  }

  function PrintItems(st: Style, items: seq<Json>): string
    requires items != []
  {
    if |items| == 1 then Print(st, items[0])
    else Print(st, items[0]) + st.itemSep + PrintItems(st, items[1..])
  }

  function PrintMember(st: Style, m: (string, Json)): string {
    Quote(m.0) + st.keySep + Print(st, m.1)
  }

  function PrintMembers(st: Style, members: seq<(string, Json)>): string
    requires members != []
  {
    if |members| == 1 then PrintMember(st, members[0])
    else PrintMember(st, members[0]) + st.itemSep + PrintMembers(st, members[1..])
  }

  // ---------- parsing ----------

  predicate IsSpace(c: char) { c == ' ' || c == '\n' || c == '\r' || c == '\t' }

  function SkipSpace(s: string): (r: string)
    ensures |r| <= |s|
  {
    if s != [] && IsSpace(s[0]) then SkipSpace(s[1..]) else s
  }

  /** Parses one value off the front of the text. */
  function Parse(text: string): (r: Option<(Json, string)>)
    ensures r.Some? ==> |r.value.1| < |text|
    decreases |text|, 2
  {
    var s := SkipSpace(text);
    if s == [] then None
    else if s[0] == '"' then
      var t := ReadString(s[1..]);
      if t.None? then None else Some((JStr(t.value.0), t.value.1))
    else if IsDigit(s[0]) then
      var k := if s[0] == '0' then 1 else DigitSpan(s);
      Some((JNum(DecimalValue(s[..k])), s[k..]))
    else if s[0] == '[' then
      var body := SkipSpace(s[1..]);
      if body != [] && body[0] == ']' then Some((JArr([]), body[1..]))
      else
        var items := ParseItems(body);
        if items.None? then None else Some((JArr(items.value.0), items.value.1))
    else if s[0] == '{' then
      var body := SkipSpace(s[1..]);
      if body != [] && body[0] == '}' then Some((JObj([]), body[1..]))
      else
        var members := ParseMembers(body);
        if members.None? then None else Some((JObj(members.value.0), members.value.1))
    else None
  }

  function ParseItems(text: string): (r: Option<(seq<Json>, string)>)
    ensures r.Some? ==> |r.value.1| < |text|
    decreases |text|, 3
  {
    var v := Parse(text);
    if v.None? then None
    else
      var s := SkipSpace(v.value.1);
      if s == [] then None
      else if s[0] == ']' then Some(([v.value.0], s[1..]))
      else if s[0] == ',' then
        var tail := ParseItems(s[1..]);
        if tail.None? then None else Some(([v.value.0] + tail.value.0, tail.value.1))
      else None
  }

  function ParseMember(text: string): (r: Option<((string, Json), string)>)
    ensures r.Some? ==> |r.value.1| < |text|
    decreases |text|, 3
  {
    var s := SkipSpace(text);
    if s == [] || s[0] != '"' then None
    else
      var key := ReadString(s[1..]);
      if key.None? then None
      else
        var c := SkipSpace(key.value.1);
        if c == [] || c[0] != ':' then None
        else
          var v := Parse(c[1..]);
          if v.None? then None else Some(((key.value.0, v.value.0), v.value.1))
  }

  function ParseMembers(text: string): (r: Option<(seq<(string, Json)>, string)>)
    ensures r.Some? ==> |r.value.1| < |text|
    decreases |text|, 4
  {
    var m := ParseMember(text);
    if m.None? then None
    else
      var s := SkipSpace(m.value.1);
      if s == [] then None
      else if s[0] == '}' then Some(([m.value.0], s[1..]))
      else if s[0] == ',' then
        var tail := ParseMembers(s[1..]);
        if tail.None? then None else Some(([m.value.0] + tail.value.0, tail.value.1))
      else None
  }

  // ---------- parsing what was printed ----------

  predicate StandardStyle(st: Style) { st == COMPACT || st == SPACED }

  /** What may follow a printed value without being read as part of it. */
  predicate EndsValue(rest: string) { rest == [] || !IsDigit(rest[0]) }

  lemma PrintStarts(st: Style, v: Json)
    ensures Print(st, v) != [] && !IsSpace(Print(st, v)[0]) && Print(st, v)[0] != ']' && Print(st, v)[0] != '}'
  {
    if v.JNum? {
      assert IsDigit(Print(st, v)[0]);
    }
  }

  /** Leading spaces do not matter to the parser. */
  lemma ParseAfterSpace(text: string)
    ensures Parse([' '] + text) == Parse(text)
  {
    assert ([' '] + text)[1..] == text;
    assert SkipSpace([' '] + text) == SkipSpace(text);
  }

  lemma ParseMembersAfterSpace(text: string)
    ensures ParseMember([' '] + text) == ParseMember(text)
    ensures ParseMembers([' '] + text) == ParseMembers(text)
  {
    assert ([' '] + text)[1..] == text;
    assert SkipSpace([' '] + text) == SkipSpace(text);
  }

  lemma ParseQuoted(s: string, t: string, rest: string)
    requires s != [] && s[0] == '"' && ReadString(s[1..]) == Some((t, rest))
    ensures Parse(s) == Some((JStr(t), rest))
  {
  }

  lemma ParseDecimal(n: nat, rest: string)
    requires EndsValue(rest)
    ensures Parse(Decimal(n) + rest) == Some((JNum(n), rest))
  {
    var d := Decimal(n);
    var s := d + rest;
    DecimalValueDecimal(n);
    SpanOfDigits(d, rest);
    assert n == 0 ==> |d| == 1;
    assert s[0] == d[0] && IsDigit(d[0]);
    assert s[..|d|] == d && s[|d|..] == rest;
  }

  lemma ParseBracketed(s: string, items: seq<Json>, rest: string)
    requires |s| > 1 && s[0] == '[' && !IsSpace(s[1])
    requires if s[1] == ']' then items == [] && rest == s[2..] else ParseItems(s[1..]) == Some((items, rest))
    ensures Parse(s) == Some((JArr(items), rest))
  {
    assert SkipSpace(s) == s && SkipSpace(s[1..]) == s[1..];
  }

  lemma ParseBraced(s: string, members: seq<(string, Json)>, rest: string)
    requires |s| > 1 && s[0] == '{' && !IsSpace(s[1])
    requires if s[1] == '}' then members == [] && rest == s[2..] else ParseMembers(s[1..]) == Some((members, rest))
    ensures Parse(s) == Some((JObj(members), rest))
  {
    assert SkipSpace(s) == s && SkipSpace(s[1..]) == s[1..];
  }

  lemma ParseItemsStep(text: string, v: Json, r: string, tail: seq<Json>, rest: string)
    requires Parse(text) == Some((v, r)) && r != []
    requires if r[0] == ']' then tail == [] && rest == r[1..]
             else r[0] == ',' && ParseItems(r[1..]) == Some((tail, rest))
    ensures ParseItems(text) == Some(([v] + tail, rest))
  {
    assert [v] + [] == [v];
    assert SkipSpace(r) == r;
  }

  lemma ParseMembersStep(text: string, m: (string, Json), r: string, tail: seq<(string, Json)>, rest: string)
    requires ParseMember(text) == Some((m, r)) && r != []
    requires if r[0] == '}' then tail == [] && rest == r[1..]
             else r[0] == ',' && ParseMembers(r[1..]) == Some((tail, rest))
    ensures ParseMembers(text) == Some(([m] + tail, rest))
  {
    assert [m] + [] == [m];
    assert SkipSpace(r) == r;
  }

  lemma ParseMemberStep(s: string, key: string, c: string, v: Json, rest: string)
    requires s != [] && s[0] == '"' && ReadString(s[1..]) == Some((key, c))
    requires c != [] && c[0] == ':' && Parse(c[1..]) == Some((v, rest))
    ensures ParseMember(s) == Some(((key, v), rest))
  {
    assert SkipSpace(s) == s && SkipSpace(c) == c;
  }

  /** After a separator the parser continues with the text behind it. */
  lemma AfterItemSep(st: Style, text: string)
    requires StandardStyle(st)
    ensures var s := st.itemSep + text;
            s[0] == ',' && ParseItems(s[1..]) == ParseItems(text) && ParseMembers(s[1..]) == ParseMembers(text)
  {
    var s := st.itemSep + text;
    if st == COMPACT {
      assert s[1..] == text;
    } else {
      assert s[1..] == [' '] + text;
      ParseAfterSpace(text);
      ParseMembersAfterSpace(text);
    }
  }

  lemma AfterKeySep(st: Style, text: string)
    requires StandardStyle(st)
    ensures var s := st.keySep + text; s[0] == ':' && Parse(s[1..]) == Parse(text)
  {
    var s := st.keySep + text;
    if st == COMPACT {
      assert s[1..] == text;
    } else {
      assert s[1..] == [' '] + text;
      ParseAfterSpace(text);
    }
  }

  lemma {:induction false} ParsePrint(st: Style, v: Json, rest: string)
    requires StandardStyle(st) && EndsValue(rest)
    ensures Parse(Print(st, v) + rest) == Some((v, rest))
    decreases v, 1
  {
    match v
    case JStr(t) => ParsePrintedString(t, rest);
    case JNum(n) => ParseDecimal(n, rest);
    case JArr(items) => ParsePrintedArray(st, items, rest);
    case JObj(members) => ParsePrintedObject(st, members, rest);
  }

  lemma {:induction false} ParsePrintedArray(st: Style, items: seq<Json>, rest: string)
    requires StandardStyle(st) && EndsValue(rest)
    ensures Parse(Print(st, JArr(items)) + rest) == Some((JArr(items), rest))
    decreases items, 1
  {
    hide Parse, ParseItems, ParseMembers, PrintItems;
    var s := Print(st, JArr(items)) + rest;
    if items == [] {
      assert s[2..] == rest;
    } else {
      var body := PrintItems(st, items) + ("]" + rest);
      assert s == "[" + body;
      assert s[1..] == body;
      PrintItemsStart(st, items);
      ParsePrintedItems(st, items, rest);
    }
    ParseBracketed(s, items, rest);
  }

  lemma {:induction false} ParsePrintedObject(st: Style, members: seq<(string, Json)>, rest: string)
    requires StandardStyle(st) && EndsValue(rest)
    ensures Parse(Print(st, JObj(members)) + rest) == Some((JObj(members), rest))
    decreases members, 1
  {
    hide Parse, ParseItems, ParseMembers, PrintMembers;
    var s := Print(st, JObj(members)) + rest;
    if members == [] {
      assert s[2..] == rest;
    } else {
      var body := PrintMembers(st, members) + ("}" + rest);
      assert s == "{" + body;
      assert s[1..] == body;
      PrintMembersStart(st, members);
      ParsePrintedMembers(st, members, rest);
    }
    ParseBraced(s, members, rest);
  }

  lemma ParsePrintedString(t: string, rest: string)
    ensures Parse(Quote(t) + rest) == Some((JStr(t), rest))
  {
    QuotedPrefix(t, rest);
    ParseQuoted(Quote(t) + rest, t, rest);
  }

  lemma PrintItemsStart(st: Style, items: seq<Json>)
    requires items != []
    ensures var p := PrintItems(st, items); p != [] && !IsSpace(p[0]) && p[0] != ']'
  {
    PrintStarts(st, items[0]);
  }

  lemma PrintMembersStart(st: Style, members: seq<(string, Json)>)
    requires members != []
    ensures var p := PrintMembers(st, members); p != [] && p[0] == '"'
  {
    assert PrintMember(st, members[0])[0] == '"';
  }

  lemma PrintItemsUnfolds(st: Style, items: seq<Json>)
    requires items != []
    ensures PrintItems(st, items)
            == if |items| == 1 then Print(st, items[0])
               else Print(st, items[0]) + st.itemSep + PrintItems(st, items[1..])
  {
  }

  lemma PrintMembersUnfolds(st: Style, members: seq<(string, Json)>)
    requires members != []
    ensures PrintMembers(st, members)
            == if |members| == 1 then PrintMember(st, members[0])
               else PrintMember(st, members[0]) + st.itemSep + PrintMembers(st, members[1..])
  {
  }

  lemma FirstOfMore(first: string, sep: string, more: string, close: string)
    ensures first + sep + more + close == first + (sep + (more + close))
  {
    assert first + sep + more + close == first + sep + (more + close);
  }

  lemma LastItem(text: string, v: Json, rest: string)
    requires Parse(text) == Some((v, "]" + rest))
    ensures ParseItems(text) == Some(([v], rest))
  {
    hide Parse, ParseItems;
    var r := "]" + rest;
    assert r[1..] == rest;
    ParseItemsStep(text, v, r, [], rest);
    assert [v] + [] == [v];
  }

  lemma SepEndsValue(st: Style, text: string)
    requires StandardStyle(st)
    ensures EndsValue(st.itemSep + text)
  {
  }

  lemma MoreItems(st: Style, first: string, v: Json, more: string, tail: seq<Json>, rest: string)
    requires StandardStyle(st) && ParseItems(more + ("]" + rest)) == Some((tail, rest))
    requires Parse(first + (st.itemSep + (more + ("]" + rest)))) == Some((v, st.itemSep + (more + ("]" + rest))))
    ensures ParseItems(first + st.itemSep + more + ("]" + rest)) == Some(([v] + tail, rest))
  {
    hide Parse, ParseItems, ParseMembers;
    var text := more + ("]" + rest);
    FirstOfMore(first, st.itemSep, more, "]" + rest);
    AfterItemSep(st, text);
    ParseItemsStep(first + (st.itemSep + text), v, st.itemSep + text, tail, rest);
  }

  lemma {:induction false} ParsePrintedItems(st: Style, items: seq<Json>, rest: string)
    requires StandardStyle(st) && items != []
    ensures ParseItems(PrintItems(st, items) + ("]" + rest)) == Some((items, rest))
    decreases items, 0
  {
    PrintItemsUnfolds(st, items);
    hide Print, PrintItems, Parse, ParseItems, ParseMembers;
    HeadAndTail(items);
    var first := Print(st, items[0]);
    if |items| == 1 {
      ParsePrint(st, items[0], "]" + rest);
      LastItem(first + ("]" + rest), items[0], rest);
    } else {
      var more := PrintItems(st, items[1..]);
      SepEndsValue(st, more + ("]" + rest));
      ParsePrint(st, items[0], st.itemSep + (more + ("]" + rest)));
      ParsePrintedItems(st, items[1..], rest);
      MoreItems(st, first, items[0], more, items[1..], rest);
    }
  }

  lemma QuotedPrefix(t: string, c: string)
    ensures var s := Quote(t) + c; s[0] == '"' && ReadString(s[1..]) == Some((t, c))
  {
    assert (Quote(t) + c)[1..] == Escape(t) + ['"'] + c;
    ReadEscaped(t, c);
  }

  lemma {:induction false} ParsePrintedMember(st: Style, m: (string, Json), rest: string)
    requires StandardStyle(st) && EndsValue(rest)
    ensures ParseMember(PrintMember(st, m) + rest) == Some((m, rest))
    decreases m, 2
  {
    var value := Print(st, m.1) + rest;
    var c := st.keySep + value;
    var s := Quote(m.0) + c;
    assert PrintMember(st, m) + rest == s;
    QuotedPrefix(m.0, c);
    AfterKeySep(st, value);
    ParsePrint(st, m.1, rest);
    ParseMemberStep(s, m.0, c, m.1, rest);
  }

  lemma LastMember(text: string, m: (string, Json), rest: string)
    requires ParseMember(text) == Some((m, "}" + rest))
    ensures ParseMembers(text) == Some(([m], rest))
  {
    hide ParseMember, ParseMembers;
    var r := "}" + rest;
    assert r[1..] == rest;
    ParseMembersStep(text, m, r, [], rest);
    assert [m] + [] == [m];
  }

  lemma MoreMembers(st: Style, first: string, m: (string, Json), more: string, tail: seq<(string, Json)>, rest: string)
    requires StandardStyle(st) && ParseMembers(more + ("}" + rest)) == Some((tail, rest))
    requires ParseMember(first + (st.itemSep + (more + ("}" + rest)))) == Some((m, st.itemSep + (more + ("}" + rest))))
    ensures ParseMembers(first + st.itemSep + more + ("}" + rest)) == Some(([m] + tail, rest))
  {
    hide ParseMember, ParseItems, ParseMembers;
    var text := more + ("}" + rest);
    FirstOfMore(first, st.itemSep, more, "}" + rest);
    AfterItemSep(st, text);
    ParseMembersStep(first + (st.itemSep + text), m, st.itemSep + text, tail, rest);
  }

  lemma {:induction false} ParsePrintedMembers(st: Style, members: seq<(string, Json)>, rest: string)
    requires StandardStyle(st) && members != []
    ensures ParseMembers(PrintMembers(st, members) + ("}" + rest)) == Some((members, rest))
    decreases members, 0
  {
    PrintMembersUnfolds(st, members);
    hide Parse, Print, PrintMember, PrintMembers, ParseMember, ParseItems, ParseMembers;
    HeadAndTail(members);
    var first := PrintMember(st, members[0]);
    if |members| == 1 {
      ParsePrintedMember(st, members[0], "}" + rest);
      LastMember(first + ("}" + rest), members[0], rest);
    } else {
      var more := PrintMembers(st, members[1..]);
      SepEndsValue(st, more + ("}" + rest));
      ParsePrintedMember(st, members[0], st.itemSep + (more + ("}" + rest)));
      ParsePrintedMembers(st, members[1..], rest);
      MoreMembers(st, first, members[0], more, members[1..], rest);
    }
  }

  /** A printed value followed by anything determines both the value and what follows. */
  lemma PrintIsPrefixFree(st: Style, v1: Json, v2: Json, rest1: string, rest2: string)
    requires StandardStyle(st) && EndsValue(rest1) && EndsValue(rest2)
    requires Print(st, v1) + rest1 == Print(st, v2) + rest2
    ensures v1 == v2 && rest1 == rest2
  {
    ParsePrint(st, v1, rest1);
    ParsePrint(st, v2, rest2);
  }
}
