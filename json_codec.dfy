/** `JSON.stringify` and `JSON.parse` for the flat objects the session stores under
    `userData`: an object whose properties are strings or integers, kept in insertion
    order. Stringify writes the compact form the browser writes; Parse reads that form
    back, and the round trip is proved. */
module JsonCodec {
  import opened JsText

  datatype JsonValue = JStr(str: string) | JNum(num: int)

  /** The properties of an object, in the order `JSON.stringify` lists them. */
  type JsonObject = seq<(string, JsonValue)>

  /** The value of property `key`; for a repeated key the last one wins, as in `JSON.parse`. */
  function Lookup(o: JsonObject, key: string): (r: Option<JsonValue>)
    ensures r.Some? ==> (key, r.value) in o
    ensures r.None? ==> forall i :: 0 <= i < |o| ==> o[i].0 != key
    decreases |o|
  {
    if |o| == 0 then None
    else if o[|o| - 1].0 == key then Some(o[|o| - 1].1)
    else Lookup(o[..|o| - 1], key)
  }

  // ---------------------------------------------------------------------------
  // writing

  function HexDigit(d: nat): (c: char)
    requires d < 16
  {
    if d < 10 then ('0' as int + d) as char else ('a' as int + d - 10) as char
  }

  /** How `JSON.stringify` writes one character inside a string literal. */
  function EscapeChar(c: char): (r: string)
    ensures |r| >= 1
  {
    if c == '"' then ['\\', '"']
    else if c == '\\' then ['\\', '\\']
    else if c == '\U{0008}' then ['\\', 'b']
    else if c == '\U{000C}' then ['\\', 'f']
    else if c == '\n' then ['\\', 'n']
    else if c == '\r' then ['\\', 'r']
    else if c == '\t' then ['\\', 't']
    else if c < ' ' then ['\\', 'u', '0', '0', HexDigit(c as int / 16), HexDigit(c as int % 16)]
    else [c]
  }

  function Escape(s: string): string
    decreases |s|
  {
    if |s| == 0 then "" else EscapeChar(s[0]) + Escape(s[1..])
  }

  function Quote(s: string): string {
    "\"" + Escape(s) + "\""
  }

  function StringifyValue(v: JsonValue): string {
    match v
    case JStr(s) => Quote(s)
    case JNum(n) => IntToString(n)
  }

  function StringifyMembers(o: JsonObject): string
    requires |o| >= 1
    decreases |o|
  {
    var member := Quote(o[0].0) + ":" + StringifyValue(o[0].1);
    if |o| == 1 then member else member + "," + StringifyMembers(o[1..])
  }

  /** `JSON.stringify(o)`: the compact text with no white space. */
  function Stringify(o: JsonObject): string {
    if |o| == 0 then "{}" else "{" + StringifyMembers(o) + "}"
  }

  // ---------------------------------------------------------------------------
  // reading

  predicate IsCharCode(v: int) {
    0 <= v < 0xD800 || 0xE000 <= v < 0x11_0000
  }

  /** The character an escape sequence stands for (the text after the backslash) and how
      many characters of that text it uses. */
  function DecodeEscape(e: string): (r: Option<(char, nat)>)
    ensures r.Some? ==> 1 <= r.value.1 <= |e|
  {
    if |e| == 0 then None
    else if e[0] == '"' then Some(('"', 1))
    else if e[0] == '\\' then Some(('\\', 1))
    else if e[0] == '/' then Some(('/', 1))
    else if e[0] == 'b' then Some(('\U{0008}', 1))
    else if e[0] == 'f' then Some(('\U{000C}', 1))
    else if e[0] == 'n' then Some(('\n', 1))
    else if e[0] == 'r' then Some(('\r', 1))
    else if e[0] == 't' then Some(('\t', 1))
    else if e[0] == 'u' && |e| >= 5 && LeadingDigits(e[1..5], 16) == 4 then
      var v := DigitsValue(e[1..5], 16);
      if IsCharCode(v) then Some((v as char, 5)) else None
    else None
  }

  /** Reads the body of a string literal up to its closing quote; gives the decoded text and
      what follows the quote. A raw control character or a bad escape is a syntax error. */
  function ParseStringBody(s: string): (r: Option<(string, string)>)
    ensures r.Some? ==> |r.value.1| < |s|
    decreases |s|
  {
    if |s| == 0 then None
    else if s[0] == '"' then Some(("", s[1..]))
    else if s[0] == '\\' then
      match DecodeEscape(s[1..])
      case None => None
      case Some((c, k)) =>
        match ParseStringBody(s[1 + k..])
        case None => None
        case Some((t, rest)) => Some(([c] + t, rest))
    else if s[0] < ' ' then None
    else
      match ParseStringBody(s[1..])
      case None => None
      case Some((t, rest)) => Some(([s[0]] + t, rest))
  }

  /** Reads an integer: an optional minus sign and a run of decimal digits. */
  function ParseNumber(s: string): (r: Option<(int, string)>)
    ensures r.Some? ==> |r.value.1| < |s|
  {
    var neg := |s| > 0 && s[0] == '-';
    var t := if neg then s[1..] else s;
    var n := LeadingDigits(t, 10);
    if n == 0 then None
    else
      var mag: int := DigitsValue(t[..n], 10);
      var value := if neg then -mag else mag;
      Some((value, t[n..]))
  }

  function ParseValue(s: string): (r: Option<(JsonValue, string)>)
    ensures r.Some? ==> |r.value.1| < |s|
  {
    if |s| > 0 && s[0] == '"' then
      match ParseStringBody(s[1..])
      case None => None
      case Some((t, rest)) => Some((JStr(t), rest))
    else
      match ParseNumber(s)
      case None => None
      case Some((n, rest)) => Some((JNum(n), rest))
  }

  /** Reads `"key":value` pairs separated by commas up to the closing brace. */
  function ParseMembers(s: string): (r: Option<(JsonObject, string)>)
    ensures r.Some? ==> |r.value.1| < |s|
    decreases |s|, 2
  {
    if |s| == 0 || s[0] != '"' then None
    else
      match ParseStringBody(s[1..])
      case None => None
      case Some((key, r1)) => ParseAfterKey(key, r1)
  }

  /** The colon and the value after a property name. */
  function ParseAfterKey(key: string, s: string): (r: Option<(JsonObject, string)>)
    ensures r.Some? ==> |r.value.1| < |s|
    decreases |s|, 1
  {
    if |s| == 0 || s[0] != ':' then None
    else
      match ParseValue(s[1..])
      case None => None
      case Some((v, r2)) => ParseAfterValue(key, v, r2)
  }

  /** The closing brace, or a comma and the remaining pairs, after a value. */
  function ParseAfterValue(key: string, v: JsonValue, s: string): (r: Option<(JsonObject, string)>)
    ensures r.Some? ==> |r.value.1| < |s|
    decreases |s|, 0
  {
    if |s| > 0 && s[0] == '}' then Some(([(key, v)], s[1..]))
    else if |s| > 0 && s[0] == ',' then
      match ParseMembers(s[1..])
      case None => None
      case Some((more, rest)) => Some(([(key, v)] + more, rest))
    else None
  }

  /** `JSON.parse(s)` for an object of strings and integers; `None` is the SyntaxError it throws. */
  function Parse(s: string): Option<JsonObject> {
    if s == "{}" then Some([])
    else if |s| == 0 || s[0] != '{' then None
    else
      match ParseMembers(s[1..])
      case Some((o, rest)) => if rest == "" then Some(o) else None
      case None => None
  }

  // ---------------------------------------------------------------------------
  // round trip

  lemma HexDigitValue(d: nat)
    requires d < 16
    ensures IsDigitIn(HexDigit(d), 16) && DigitValue(HexDigit(d)) == d
  {
  }

  lemma HexRoundTrip(c: char)
    requires c < ' '
    ensures var h := ['0', '0', HexDigit(c as int / 16), HexDigit(c as int % 16)];
            LeadingDigits(h, 16) == 4 && DigitsValue(h, 16) == c as int
  {
    var hi, lo := c as int / 16, c as int % 16;
    HexDigitValue(hi);
    HexDigitValue(lo);
    var h := ['0', '0', HexDigit(hi), HexDigit(lo)];
    assert h[1..][1..][1..][1..] == [];
    assert LeadingDigits(h, 16) == 4;
    var h2 := ['0', '0'];
    var h3 := ['0', '0', HexDigit(hi)];
    assert h3[..2] == h2 && h2[..1] == ['0'] && h2[..1][..0] == [];
    assert DigitsValue(h2, 16) == 0;
    assert DigitsValue(h3, 16) == hi;
    assert h[..3] == h3;
    assert DigitsValue(h, 16) == hi * 16 + lo;
  }

  /** Reading one escaped character back yields that character and leaves the rest unread. */
  lemma EscapeCharRoundTrip(c: char, rest: string)
    ensures ParseStringBody(EscapeChar(c) + rest) ==
      match ParseStringBody(rest)
      case None => None
      case Some((t, r)) => Some(([c] + t, r))
  {
    if c == '"' || c == '\\' || c == '\U{0008}' || c == '\U{000C}' || c == '\n' || c == '\r' || c == '\t' {
      ShortEscapeRoundTrip(c, rest);
    } else if c < ' ' {
      HexEscapeRoundTrip(c, rest);
    } else {
      assert (EscapeChar(c) + rest)[1..] == rest;
    }
  }

  lemma ShortEscapeRoundTrip(c: char, rest: string)
    requires c == '"' || c == '\\' || c == '\U{0008}' || c == '\U{000C}' || c == '\n' || c == '\r' || c == '\t'
    ensures ParseStringBody(EscapeChar(c) + rest) ==
      match ParseStringBody(rest)
      case None => None
      case Some((t, r)) => Some(([c] + t, r))
  {
    var e := EscapeChar(c);
    var s := e + rest;
    assert s[1..][0] == e[1];
    assert s[1 + 1..] == rest;
  }

  lemma HexEscapeRoundTrip(c: char, rest: string)
    requires c < ' ' && !(c == '\U{0008}' || c == '\U{000C}' || c == '\n' || c == '\r' || c == '\t')
    ensures ParseStringBody(EscapeChar(c) + rest) ==
      match ParseStringBody(rest)
      case None => None
      case Some((t, r)) => Some(([c] + t, r))
  {
    var e := EscapeChar(c);
    var s := e + rest;
    HexRoundTrip(c);
    assert s[0] == '\\' && s[1..][0] == 'u';
    assert e == ['\\', 'u', '0', '0', HexDigit(c as int / 16), HexDigit(c as int % 16)];
    var esc := s[1..];
    assert esc[1..5] == e[2..6];
    assert esc[1..5] == ['0', '0', HexDigit(c as int / 16), HexDigit(c as int % 16)];
    assert IsCharCode(c as int) && (c as int) as char == c;
    assert DecodeEscape(esc) == Some((c, 5));
    assert s[1 + 5..] == rest;
  }

  lemma {:induction false} EscapeRoundTrip(x: string, rest: string)
    ensures ParseStringBody(Escape(x) + "\"" + rest) == Some((x, rest))
    decreases |x|
  {
    if |x| == 0 {
      assert Escape(x) + "\"" + rest == "\"" + rest;
      ClosingQuote(rest);
    } else {
      EscapeRoundTrip(x[1..], rest);
      EscapeCons(x, rest);
      ConsRoundTrip(x[0], Escape(x[1..]) + "\"" + rest, x[1..], rest);
      assert [x[0]] + x[1..] == x;
    }
  }

  lemma ClosingQuote(rest: string)
    ensures ParseStringBody("\"" + rest) == Some(("", rest))
  {
    assert ("\"" + rest)[1..] == rest;
  }

  /** An escaped character in front of a readable body is read back in front of its text. */
  lemma ConsRoundTrip(c: char, tail: string, x: string, rest: string)
    requires ParseStringBody(tail) == Some((x, rest))
    ensures ParseStringBody(EscapeChar(c) + tail) == Some(([c] + x, rest))
  {
    EscapeCharRoundTrip(c, tail);
  }

  lemma EscapeCons(x: string, rest: string)
    requires |x| > 0
    ensures Escape(x) + "\"" + rest == EscapeChar(x[0]) + (Escape(x[1..]) + "\"" + rest)
  {
    assert Escape(x) == EscapeChar(x[0]) + Escape(x[1..]);
    ConcatAssoc(EscapeChar(x[0]), Escape(x[1..]), "\"", rest);
  }

  lemma ConcatAssoc(a: string, b: string, c: string, d: string)
    ensures a + b + c + d == a + (b + c + d)
  {
  }

  lemma NumberRoundTrip(n: int, rest: string)
    requires |rest| > 0 && (rest[0] == ',' || rest[0] == '}')
    ensures ParseNumber(IntToString(n) + rest) == Some((n, rest))
  {
    if n >= 0 {
      UnsignedNumber(n, rest);
    } else {
      NegativeNumber(-n, rest);
      MinusInFront(n, rest);
    }
  }

  lemma MinusInFront(n: int, rest: string)
    requires n < 0
    ensures IntToString(n) + rest == "-" + (NatToString(-n) + rest)
  {
    ConcatAssoc("-", NatToString(-n), rest, "");
    assert NatToString(-n) + rest + "" == NatToString(-n) + rest;
    assert "-" + NatToString(-n) + rest + "" == "-" + NatToString(-n) + rest;
  }

  /** The digits of a number, then a character that is not a digit. */
  lemma DigitsThenRest(m: nat, rest: string)
    requires |rest| > 0 && !IsDigitIn(rest[0], 10)
    ensures var d := NatToString(m);
            var t := d + rest;
            LeadingDigits(t, 10) == |d| && t[..|d|] == d && t[|d|..] == rest && DigitsValue(d, 10) == m
  {
    var d := NatToString(m);
    LeadingDigitsThenStop(d, rest);
    DigitsValueOfNat(m);
    assert (d + rest)[..|d|] == d && (d + rest)[|d|..] == rest;
  }

  lemma UnsignedNumber(m: nat, rest: string)
    requires |rest| > 0 && (rest[0] == ',' || rest[0] == '}')
    ensures ParseNumber(NatToString(m) + rest) == Some((m, rest))
  {
    DigitsThenRest(m, rest);
    ReadDigits(NatToString(m), m, rest, NatToString(m) + rest);
  }

  lemma NegativeNumber(m: nat, rest: string)
    requires |rest| > 0 && (rest[0] == ',' || rest[0] == '}')
    ensures ParseNumber("-" + (NatToString(m) + rest)) == Some((-(m as int), rest))
  {
    DigitsThenRest(m, rest);
    ReadNegativeDigits(NatToString(m), m, rest, NatToString(m) + rest);
  }

  /** A run of digits worth `m`, then `rest`, is read as `m`. */
  lemma ReadDigits(d: string, m: nat, rest: string, t: string)
    requires LeadingDigits(t, 10) == |d| && |d| > 0 && t[..|d|] == d && t[|d|..] == rest
    requires DigitsValue(d, 10) == m
    ensures ParseNumber(t) == Some((m, rest))
  {
    assert IsDigitIn(t[0], 10);
  }

  /** After a minus sign, the same run is read as `-m`. */
  lemma ReadNegativeDigits(d: string, m: nat, rest: string, t: string)
    requires LeadingDigits(t, 10) == |d| && |d| > 0 && t[..|d|] == d && t[|d|..] == rest
    requires DigitsValue(d, 10) == m
    ensures ParseNumber("-" + t) == Some((-(m as int), rest))
  {
    assert ("-" + t)[1..] == t;
  }

  lemma StringValueRoundTrip(x: string, rest: string)
    ensures ParseValue(Quote(x) + rest) == Some((JStr(x), rest))
  {
    var s := Quote(x) + rest;
    EscapeRoundTrip(x, rest);
    assert s[0] == '"';
    assert s[1..] == Escape(x) + "\"" + rest;
  }

  lemma NumberValueRoundTrip(n: int, rest: string)
    requires |rest| > 0 && (rest[0] == ',' || rest[0] == '}')
    ensures ParseValue(IntToString(n) + rest) == Some((JNum(n), rest))
  {
    NumberRoundTrip(n, rest);
    assert (IntToString(n) + rest)[0] == IntToString(n)[0];
  }

  lemma ValueRoundTrip(v: JsonValue, rest: string)
    requires |rest| > 0 && (rest[0] == ',' || rest[0] == '}')
    ensures ParseValue(StringifyValue(v) + rest) == Some((v, rest))
  {
    match v
    case JStr(x) => StringValueRoundTrip(x, rest);
    case JNum(n) => NumberValueRoundTrip(n, rest);
  }

  lemma ParseMembersUnfold(s: string, key: string, r1: string)
    requires |s| > 0 && s[0] == '"' && ParseStringBody(s[1..]) == Some((key, r1))
    ensures ParseMembers(s) == ParseAfterKey(key, r1)
  {
  }

  lemma ParseAfterKeyUnfold(key: string, r1: string, v: JsonValue, r2: string)
    requires |r1| > 0 && r1[0] == ':' && ParseValue(r1[1..]) == Some((v, r2))
    ensures ParseAfterKey(key, r1) == ParseAfterValue(key, v, r2)
  {
  }

  /** One `"key":value` pair followed by a comma or the closing brace. */
  lemma MemberStep(key: string, v: JsonValue, tail: string)
    requires |tail| > 0 && (tail[0] == ',' || tail[0] == '}')
    ensures ParseMembers(Quote(key) + ":" + StringifyValue(v) + tail) == ParseAfterValue(key, v, tail)
  {
    var r1 := ":" + StringifyValue(v) + tail;
    assert Quote(key) + ":" + StringifyValue(v) + tail == Quote(key) + r1;
    KeyStep(key, r1);
    ColonStep(key, v, tail);
  }

  /** A quoted property name is read back and parsing goes on after its closing quote. */
  lemma KeyStep(key: string, r1: string)
    ensures ParseMembers(Quote(key) + r1) == ParseAfterKey(key, r1)
  {
    var s := "\"" + (Escape(key) + "\"" + r1);
    assert Quote(key) + r1 == s;
    assert s[1..] == Escape(key) + "\"" + r1;
    EscapeRoundTrip(key, r1);
    ParseMembersUnfold(s, key, r1);
  }

  /** After the name, the colon and a written value are read back. */
  lemma ColonStep(key: string, v: JsonValue, tail: string)
    requires |tail| > 0 && (tail[0] == ',' || tail[0] == '}')
    ensures ParseAfterKey(key, ":" + StringifyValue(v) + tail) == ParseAfterValue(key, v, tail)
  {
    var r1 := ":" + StringifyValue(v) + tail;
    assert r1[1..] == StringifyValue(v) + tail;
    ValueRoundTrip(v, tail);
    ParseAfterKeyUnfold(key, r1, v, tail);
  }

  lemma LastMember(key: string, v: JsonValue, rest: string)
    ensures ParseMembers(Quote(key) + ":" + StringifyValue(v) + ("}" + rest)) == Some(([(key, v)], rest))
  {
    var tail := "}" + rest;
    MemberStep(key, v, tail);
    assert tail[1..] == rest;
  }

  lemma NextMember(key: string, v: JsonValue, more: string, o: JsonObject, rest: string)
    requires ParseMembers(more) == Some((o, rest))
    ensures ParseMembers(Quote(key) + ":" + StringifyValue(v) + ("," + more)) == Some(([(key, v)] + o, rest))
  {
    var tail := "," + more;
    MemberStep(key, v, tail);
    assert tail[1..] == more;
  }

  lemma LastMemberRoundTrip(o: JsonObject, rest: string)
    requires |o| == 1
    ensures ParseMembers(StringifyMembers(o) + "}" + rest) == Some((o, rest))
  {
    var key, v := o[0].0, o[0].1;
    assert StringifyMembers(o) + "}" + rest == Quote(key) + ":" + StringifyValue(v) + ("}" + rest);
    LastMember(key, v, rest);
    assert o == [(key, v)];
  }

  lemma StringifyMembersCons(o: JsonObject, rest: string)
    requires |o| >= 2
    ensures StringifyMembers(o) + "}" + rest ==
      Quote(o[0].0) + ":" + StringifyValue(o[0].1) + ("," + (StringifyMembers(o[1..]) + "}" + rest))
  {
    var member := Quote(o[0].0) + ":" + StringifyValue(o[0].1);
    var tail := StringifyMembers(o[1..]);
    assert StringifyMembers(o) == member + "," + tail;
    Regroup(member, tail, rest);
  }

  lemma Regroup(member: string, tail: string, rest: string)
    ensures member + "," + tail + "}" + rest == member + ("," + (tail + "}" + rest))
  {
  }

  lemma {:induction false} MembersRoundTrip(o: JsonObject, rest: string)
    requires |o| >= 1
    ensures ParseMembers(StringifyMembers(o) + "}" + rest) == Some((o, rest))
    decreases |o|
  {
    if |o| == 1 {
      LastMemberRoundTrip(o, rest);
    } else {
      StringifyMembersCons(o, rest);
      MembersRoundTrip(o[1..], rest);
      NextMember(o[0].0, o[0].1, StringifyMembers(o[1..]) + "}" + rest, o[1..], rest);
      assert [o[0]] + o[1..] == o;
    }
  }

  /** What `JSON.stringify` writes, `JSON.parse` reads back unchanged. */
  lemma StringifyRoundTrip(o: JsonObject)
    ensures Parse(Stringify(o)) == Some(o)
  {
    if |o| > 0 {
      var m := StringifyMembers(o);
      var s := Stringify(o);
      MembersRoundTrip(o, "");
      assert s[1..] == m + "}" + "";
      ParseBraced(s, o);
    }
  }

  /** A text longer than the empty object, read between its braces. */
  lemma ParseBraced(s: string, o: JsonObject)
    requires |s| > 2 && s[0] == '{' && ParseMembers(s[1..]) == Some((o, ""))
    ensures Parse(s) == Some(o)
  {
  }
}
