/**
 * JSON text as the source produces and consumes it: `JSON.stringify(v)` (the browser
 * store), `JSON.stringify(v, null, 2)` (the file service) and `JSON.parse`. Values are
 * restricted to integers among the numbers. The printer escapes strings the way
 * `JSON.stringify` does; the parser skips whitespace between tokens, rejects what
 * `JSON.parse` rejects within this subset, and fails (rather than misreading) on a fraction
 * or an exponent. A `\uXXXX` escape names one UTF-16 code unit: a high surrogate followed by
 * a low one decodes to the single character of the pair, and a surrogate without its partner
 * is refused, since a Dafny character cannot hold it. The round trip
 * `Parse(Stringify(v, layout)) == Some(v)` is proved for both layouts.
 */
module Json {
  import opened Wrappers
  import opened Text
  import opened Seqs

  datatype Json =
    | JNull
    | JBool(b: bool)
    | JString(s: string)
    | JInt(n: int)
    | JArray(items: seq<Json>)
    | JObject(members: seq<Member>)

  datatype Member = Member(key: string, value: Json)

  /** `Compact` is `JSON.stringify(v)`; `Indented` is `JSON.stringify(v, null, 2)`. */
  datatype Layout = Compact | Indented

  // ---------------------------------------------------------------- printing

  function Newline(layout: Layout, depth: nat): string {
    if layout == Compact then "" else "\n" + seq(2 * depth, _ => ' ')
  }

  function Colon(layout: Layout): string {
    if layout == Compact then ":" else ": "
  }

  function HexDigit(d: nat): char
    requires d < 16
  {
    "0123456789abcdef"[d]
  }

  /** The escape `JSON.stringify` writes for one character of a string. */
  function EscapeChar(c: char): string {
    if c == '"' then "\\\""
    else if c == '\\' then "\\\\"
    else if c as int == 8 then "\\b"
    else if c as int == 12 then "\\f"
    else if c == '\n' then "\\n"
    else if c == '\r' then "\\r"
    else if c == '\t' then "\\t"
    else if c as int < 32 then "\\u00" + [HexDigit(c as int / 16), HexDigit(c as int % 16)]
    else [c]
  }

  function Escape(s: string): string {
    if |s| == 0 then "" else EscapeChar(s[0]) + Escape(s[1..])
  }

  function Quote(s: string): string {
    "\"" + Escape(s) + "\""
  }

  function PrintAt(v: Json, layout: Layout, depth: nat): string
    decreases v
  {
    match v
    case JNull => "null"
    case JBool(b) => if b then "true" else "false"
    case JString(s) => Quote(s)
    case JInt(n) => IntToDecimal(n)
    case JArray(items) =>
      if |items| == 0 then "[]"
      else "[" + PrintItems(items, layout, depth + 1) + Newline(layout, depth) + "]"
    case JObject(ms) =>
      if |ms| == 0 then "{}"
      else "{" + PrintMembers(ms, layout, depth + 1) + Newline(layout, depth) + "}"
  }

  function PrintItems(items: seq<Json>, layout: Layout, depth: nat): string
    requires |items| > 0
    decreases items
  {
    Newline(layout, depth) + PrintAt(items[0], layout, depth)
    + (if |items| == 1 then "" else "," + PrintItems(items[1..], layout, depth))
  }

  function PrintMember(m: Member, layout: Layout, depth: nat): string
    decreases m
  {
    Newline(layout, depth) + Quote(m.key) + Colon(layout) + PrintAt(m.value, layout, depth)
  }

  function PrintMembers(ms: seq<Member>, layout: Layout, depth: nat): string
    requires |ms| > 0
    decreases ms
  {
    PrintMember(ms[0], layout, depth)
    + (if |ms| == 1 then "" else "," + PrintMembers(ms[1..], layout, depth))
  }

  function Stringify(v: Json, layout: Layout): string {
    PrintAt(v, layout, 0)
  }

  // ---------------------------------------------------------------- parsing

  datatype Parsed<T> = Parsed(value: T, rest: string)

  predicate IsWhitespace(c: char) {
    c == ' ' || c == '\t' || c == '\n' || c == '\r'
  }

  function SkipWs(t: string): (u: string)
    ensures |u| <= |t|
    ensures |u| > 0 ==> !IsWhitespace(u[0])
  {
    if |t| > 0 && IsWhitespace(t[0]) then SkipWs(t[1..]) else t
  }

  function HexValue(c: char): (r: Option<nat>)
    ensures r.Some? ==> r.value < 16
  {
    if '0' <= c <= '9' then Some(c as int - '0' as int)
    else if 'a' <= c <= 'f' then Some(c as int - 'a' as int + 10)
    else if 'A' <= c <= 'F' then Some(c as int - 'A' as int + 10)
    else None
  }

  /** The number written by the four hex digits of a `\uXXXX` escape: one UTF-16 code unit. */
  function HexCode(h: string): (r: Option<nat>)
    requires |h| == 4
    ensures r.Some? ==> r.value < 0x10000
  {
    match (HexValue(h[0]), HexValue(h[1]), HexValue(h[2]), HexValue(h[3]))
    case (Some(a), Some(b), Some(c), Some(d)) =>
      Some(((a * 16 + b) * 16 + c) * 16 + d)
    case _ => None
  }

  /** The character named by one `\uXXXX` escape; a surrogate code unit names none on its own. */
  function HexChar(h: string): Option<char>
    requires |h| == 4
  {
    match HexCode(h)
    case Some(v) => if v < 0xD800 || 0xE000 <= v then Some(v as char) else None
    case None => None
  }

  /**
   * Reads `uHHHH\uLLLL` after a backslash, a high surrogate followed by a low one, as the
   * single character the pair encodes; a surrogate without its partner is refused.
   */
  function ParseSurrogatePair(t: string): (r: Option<Parsed<char>>)
    requires |t| >= 5 && t[0] == 'u'
    ensures r.Some? ==> |t| >= 11 && r.value.rest == t[11..] && r.value.value as int >= 0x10000
  {
    match HexCode(t[1..5])
    case Some(hi) =>
      if 0xD800 <= hi < 0xDC00 && |t| >= 11 && t[5] == '\\' && t[6] == 'u' then
        match HexCode(t[7..11])
        case Some(lo) =>
          if 0xDC00 <= lo < 0xE000 then Some(Parsed(((hi - 0xD800) * 0x400 + (lo - 0xDC00) + 0x10000) as char, t[11..]))
          else None
        case None => None
      else None
    case None => None
  }

  /** Reads the character after a backslash. */
  function ParseEscape(t: string): (r: Option<Parsed<char>>)
    ensures r.Some? ==> |r.value.rest| < |t|
  {
    if |t| == 0 then None
    else if t[0] == '"' || t[0] == '\\' || t[0] == '/' then Some(Parsed(t[0], t[1..]))
    else if t[0] == 'b' then Some(Parsed(8 as char, t[1..]))
    else if t[0] == 'f' then Some(Parsed(12 as char, t[1..]))
    else if t[0] == 'n' then Some(Parsed('\n', t[1..]))
    else if t[0] == 'r' then Some(Parsed('\r', t[1..]))
    else if t[0] == 't' then Some(Parsed('\t', t[1..]))
    else if t[0] == 'u' && |t| >= 5 then
      match HexChar(t[1..5])
      case Some(c) => Some(Parsed(c, t[5..]))
      case None => ParseSurrogatePair(t)
    else None
  }

  function Prepend(c: char, r: Option<Parsed<string>>): Option<Parsed<string>> {
    match r
    case None => None
    case Some(p) => Some(Parsed([c] + p.value, p.rest))
  }

  /** Reads the characters of a string up to and including its closing quote. */
  function ParseStringBody(t: string): (r: Option<Parsed<string>>)
    ensures r.Some? ==> |r.value.rest| < |t|
    decreases |t|
  {
    if |t| == 0 then None
    else if t[0] == '"' then Some(Parsed("", t[1..]))
    else if t[0] == '\\' then
      match ParseEscape(t[1..])
      case None => None
      case Some(e) => Prepend(e.value, ParseStringBody(e.rest))
    else if t[0] as int < 32 then None
    else Prepend(t[0], ParseStringBody(t[1..]))
  }

  /** Reads an integer: an optional '-', then digits without a leading zero. */
  function ParseNumber(t: string): (r: Option<Parsed<Json>>)
    requires |t| > 0
    ensures r.Some? ==> |r.value.rest| < |t|
  {
    if t[0] == '-' then Negated(ParseNatural(t[1..])) else ParseNatural(t)
  }

  /** Digits without a leading zero, not followed by a fraction or an exponent. */
  function ParseNatural(u: string): (r: Option<Parsed<Json>>)
    ensures r.Some? ==> |r.value.rest| < |u| && r.value.value.JInt?
  {
    var k := LeadingDigits(u);
    if k == 0 || (k > 1 && u[0] == '0') then None
    else if k < |u| && (u[k] == '.' || u[k] == 'e' || u[k] == 'E') then None
    else Some(Parsed(JInt(DigitsValue(u[..k])), u[k..]))
  }

  function Negated(r: Option<Parsed<Json>>): (r': Option<Parsed<Json>>)
    ensures r'.Some? <==> r.Some?
    ensures r.Some? ==> r'.value.rest == r.value.rest
  {
    match r
    case Some(Parsed(JInt(n), rest)) => Some(Parsed(JInt(-n), rest))
    case _ => r
  }

  function Literal(u: string, word: string, v: Json): (r: Option<Parsed<Json>>)
    requires |word| > 0
    ensures r.Some? ==> |r.value.rest| < |u|
  {
    if StartsWith(u, word) then Some(Parsed(v, u[|word|..])) else None
  }

  function ParseValue(t: string): (r: Option<Parsed<Json>>)
    ensures r.Some? ==> |r.value.rest| < |t|
    decreases |t|, 1
  {
    ParseToken(SkipWs(t))
  }

  /** Reads a value that starts at the first character of `u`, chosen by that character. */
  function ParseToken(u: string): (r: Option<Parsed<Json>>)
    ensures r.Some? ==> |r.value.rest| < |u|
    decreases |u|, 0
  {
    if |u| == 0 then None
    else if u[0] == 'n' then Literal(u, "null", JNull)
    else if u[0] == 't' then Literal(u, "true", JBool(true))
    else if u[0] == 'f' then Literal(u, "false", JBool(false))
    else if u[0] == '"' then
      match ParseStringBody(u[1..])
      case None => None
      case Some(p) => Some(Parsed(JString(p.value), p.rest))
    else if u[0] == '-' || IsDigit(u[0]) then ParseNumber(u)
    else if u[0] == '[' then ParseArray(u[1..])
    else if u[0] == '{' then ParseObject(u[1..])
    else None
  }

  /** After '[': an empty array, or items up to the closing ']'. */
  function ParseArray(t: string): (r: Option<Parsed<Json>>)
    ensures r.Some? ==> |r.value.rest| < |t|
    decreases |t|, 3
  {
    var u := SkipWs(t);
    if |u| > 0 && u[0] == ']' then Some(Parsed(JArray([]), u[1..]))
    else
      match ParseItems(t)
      case None => None
      case Some(p) => Some(Parsed(JArray(p.value), p.rest))
  }

  function ParseItems(t: string): (r: Option<Parsed<seq<Json>>>)
    ensures r.Some? ==> |r.value.rest| < |t|
    decreases |t|, 2
  {
    match ParseValue(t)
    case None => None
    case Some(v) =>
      var u := SkipWs(v.rest);
      if |u| == 0 then None
      else if u[0] == ']' then Some(Parsed([v.value], u[1..]))
      else if u[0] == ',' then
        match ParseItems(u[1..])
        case None => None
        case Some(p) => Some(Parsed([v.value] + p.value, p.rest))
      else None
  }

  /** After '{': an empty object, or members up to the closing '}'. */
  function ParseObject(t: string): (r: Option<Parsed<Json>>)
    ensures r.Some? ==> |r.value.rest| < |t|
    decreases |t|, 3
  {
    var u := SkipWs(t);
    if |u| > 0 && u[0] == '}' then Some(Parsed(JObject([]), u[1..]))
    else
      match ParseMembers(t)
      case None => None
      case Some(p) => Some(Parsed(JObject(p.value), p.rest))
  }

  /** One `"key": value` pair. */
  function ParseMember(t: string): (r: Option<Parsed<Member>>)
    ensures r.Some? ==> |r.value.rest| < |t|
    decreases |t|, 1
  {
    var u := SkipWs(t);
    if |u| == 0 || u[0] != '"' then None
    else
      match ParseStringBody(u[1..])
      case None => None
      case Some(k) =>
        var x := SkipWs(k.rest);
        if |x| == 0 || x[0] != ':' then None
        else
          match ParseValue(x[1..])
          case None => None
          case Some(v) => Some(Parsed(Member(k.value, v.value), v.rest))
  }

  function ParseMembers(t: string): (r: Option<Parsed<seq<Member>>>)
    ensures r.Some? ==> |r.value.rest| < |t|
    decreases |t|, 2
  {
    match ParseMember(t)
    case None => None
    case Some(m) =>
      var u := SkipWs(m.rest);
      if |u| == 0 then None
      else if u[0] == '}' then Some(Parsed([m.value], u[1..]))
      else if u[0] == ',' then
        match ParseMembers(u[1..])
        case None => None
        case Some(p) => Some(Parsed([m.value] + p.value, p.rest))
      else None
  }

  /** `JSON.parse`: one value, and nothing but whitespace after it. */
  function Parse(t: string): Option<Json> {
    match ParseValue(t)
    case None => None
    case Some(p) => if |SkipWs(p.rest)| == 0 then Some(p.value) else None
  }

  // ---------------------------------------------------------------- round trip

  predicate AllWhitespace(w: string) {
    forall i :: 0 <= i < |w| ==> IsWhitespace(w[i])
  }

  /** What may follow a printed value: the end, a separator, a closing bracket or whitespace. */
  predicate Delimits(rest: string) {
    |rest| == 0 || rest[0] == ',' || rest[0] == ']' || rest[0] == '}' || IsWhitespace(rest[0])
  }

  lemma {:induction false} SkipWsPrefix(w: string, t: string)
    requires AllWhitespace(w)
    ensures SkipWs(w + t) == SkipWs(t)
  {
    if |w| > 0 {
      assert (w + t)[1..] == w[1..] + t;
      SkipWsPrefix(w[1..], t);
    } else {
      assert w + t == t;
    }
  }

  lemma NewlineIsWhitespace(layout: Layout, depth: nat)
    ensures AllWhitespace(Newline(layout, depth))
  {
  }

  /** Newline, then something that starts with a non-blank: the blank part is skipped. */
  lemma SkipNewline(layout: Layout, depth: nat, t: string)
    requires |t| > 0 && !IsWhitespace(t[0])
    ensures SkipWs(Newline(layout, depth) + t) == t
  {
    NewlineIsWhitespace(layout, depth);
    SkipWsPrefix(Newline(layout, depth), t);
  }

  lemma NewlineDelimits(layout: Layout, depth: nat, t: string)
    requires Delimits(t)
    ensures Delimits(Newline(layout, depth) + t)
  {
    if layout == Compact {
      assert Newline(layout, depth) + t == t;
    }
  }

  lemma {:induction false} ParseValueSkips(w: string, t: string)
    requires AllWhitespace(w)
    ensures ParseValue(w + t) == ParseValue(t)
  {
    SkipWsPrefix(w, t);
    SkipWsPrefix([], t);
    assert [] + t == t;
  }

  /** Printed values start with a character that is not blank and not a closing bracket. */
  lemma PrintStart(v: Json, layout: Layout, depth: nat)
    ensures |PrintAt(v, layout, depth)| > 0
    ensures var c := PrintAt(v, layout, depth)[0]; !IsWhitespace(c) && c != ']' && c != '}'
  {
    match v
    case JInt(n) =>
      var s := IntToDecimal(n);
      assert s[0] == '-' || IsDigit(s[0]);
    case _ =>
  }

  /** A two-character escape such as `\n` reads back as its character. */
  lemma ShortEscapeStep(c: char, tail: string)
    requires c == '"' || c == '\\' || c as int == 8 || c as int == 12 || c == '\n' || c == '\r' || c == '\t'
    ensures ParseStringBody(EscapeChar(c) + tail) == Prepend(c, ParseStringBody(tail))
  {
    var e := EscapeChar(c);
    assert |e| == 2 && e[0] == '\\';
    var t := e + tail;
    assert t[0] == '\\' && t[1..] == [e[1]] + tail;
    assert ParseEscape([e[1]] + tail) == Some(Parsed(c, tail));
  }

  lemma HexControl(c: char)
    requires c as int < 32
    ensures HexChar("00" + [HexDigit(c as int / 16), HexDigit(c as int % 16)]) == Some(c)
  {
    var h := "00" + [HexDigit(c as int / 16), HexDigit(c as int % 16)];
    assert HexValue(h[0]) == Some(0) && HexValue(h[1]) == Some(0);
    assert HexValue(h[2]) == Some(c as int / 16);
    assert HexValue(h[3]) == Some(c as int % 16);
  }

  lemma ParseControl(h: string, tail: string, c: char)
    requires |h| == 2 && HexChar("00" + h) == Some(c)
    ensures ParseEscape("u00" + h + tail) == Some(Parsed(c, tail))
  {
    var x := "u00" + h + tail;
    assert x[0] == 'u' && x[1..5] == "00" + h && x[5..] == tail;
  }

  /** A `\u00XX` escape reads back as its control character. */
  lemma ControlEscapeStep(c: char, tail: string)
    requires c as int < 32
    requires !(c as int == 8 || c as int == 12 || c == '\n' || c == '\r' || c == '\t')
    ensures ParseStringBody(EscapeChar(c) + tail) == Prepend(c, ParseStringBody(tail))
  {
    var h := [HexDigit(c as int / 16), HexDigit(c as int % 16)];
    assert EscapeChar(c) == "\\u00" + h;
    var t := "\\u00" + h + tail;
    assert t[0] == '\\' && t[1..] == "u00" + h + tail;
    HexControl(c);
    ParseControl(h, tail, c);
  }

  lemma EscapeCharStep(c: char, tail: string)
    ensures ParseStringBody(EscapeChar(c) + tail) == Prepend(c, ParseStringBody(tail))
  {
    if c == '"' || c == '\\' || c as int == 8 || c as int == 12 || c == '\n' || c == '\r' || c == '\t' {
      ShortEscapeStep(c, tail);
    } else if c as int < 32 {
      ControlEscapeStep(c, tail);
    } else {
      assert EscapeChar(c) + tail == [c] + tail;
      assert ([c] + tail)[1..] == tail;
    }
  }

  /** Four lower-case hex digits naming one UTF-16 code unit. */
  function Hex4(n: nat): (h: string)
    requires n < 0x10000
    ensures |h| == 4
  {
    [HexDigit(n / 16 / 16 / 16), HexDigit(n / 16 / 16 % 16), HexDigit(n / 16 % 16), HexDigit(n % 16)]
  }

  lemma HexDigitValue(d: nat)
    requires d < 16
    ensures HexValue(HexDigit(d)) == Some(d)
  {
  }

  lemma Hex4Digits(n: nat)
    requires n < 0x10000
    ensures var h := Hex4(n);
      && HexValue(h[0]) == Some(n / 16 / 16 / 16) && HexValue(h[1]) == Some(n / 16 / 16 % 16)
      && HexValue(h[2]) == Some(n / 16 % 16) && HexValue(h[3]) == Some(n % 16)
  {
    HexDigitValue(n / 16 / 16 / 16);
    HexDigitValue(n / 16 / 16 % 16);
    HexDigitValue(n / 16 % 16);
    HexDigitValue(n % 16);
  }

  lemma HexCodeOf(h: string, a: nat, b: nat, c: nat, d: nat)
    requires |h| == 4
    requires HexValue(h[0]) == Some(a) && HexValue(h[1]) == Some(b)
    requires HexValue(h[2]) == Some(c) && HexValue(h[3]) == Some(d)
    ensures HexCode(h) == Some(((a * 16 + b) * 16 + c) * 16 + d)
  {
  }

  lemma Hex4Code(n: nat)
    requires n < 0x10000
    ensures HexCode(Hex4(n)) == Some(n)
  {
    var n1 := n / 16;
    var n2 := n1 / 16;
    Hex4Digits(n);
    HexCodeOf(Hex4(n), n2 / 16, n2 % 16, n1 % 16, n % 16);
    assert n == n1 * 16 + n % 16 && n1 == n2 * 16 + n1 % 16 && n2 == n2 / 16 * 16 + n2 % 16;
  }

  /**
   * The escape a UTF-16 writer gives a character outside the Basic Multilingual Plane:
   * `\u` and its high surrogate, then `\u` and its low surrogate.
   */
  function PairEscape(c: char): (e: string)
    requires c as int >= 0x10000
    ensures |e| == 12 && e[0] == '\\' && e[1] == 'u' && e[6] == '\\' && e[7] == 'u'
  {
    var u := c as int - 0x10000;
    "\\u" + Hex4(0xD800 + u / 0x400) + "\\u" + Hex4(0xDC00 + u % 0x400)
  }

  lemma SurrogateEscape(x: string, hi: nat, lo: nat)
    requires |x| >= 11 && x[0] == 'u' && x[5] == '\\' && x[6] == 'u'
    requires HexCode(x[1..5]) == Some(hi) && HexCode(x[7..11]) == Some(lo)
    requires 0xD800 <= hi < 0xDC00 && 0xDC00 <= lo < 0xE000
    ensures ParseEscape(x) == Some(Parsed(((hi - 0xD800) * 0x400 + (lo - 0xDC00) + 0x10000) as char, x[11..]))
  {
    assert HexChar(x[1..5]) == None;
  }

  lemma PairEscapeFields(c: char, tail: string)
    requires c as int >= 0x10000
    ensures var u := c as int - 0x10000; var x := (PairEscape(c) + tail)[1..];
      && |x| >= 11 && x[0] == 'u' && x[5] == '\\' && x[6] == 'u' && x[11..] == tail
      && x[1..5] == Hex4(0xD800 + u / 0x400) && x[7..11] == Hex4(0xDC00 + u % 0x400)
  {
  }

  /** A surrogate-pair escape reads back as the one character it encodes. */
  lemma PairEscapeStep(c: char, tail: string)
    requires c as int >= 0x10000
    ensures ParseStringBody(PairEscape(c) + tail) == Prepend(c, ParseStringBody(tail))
  {
    var u := c as int - 0x10000;
    var hi, lo := 0xD800 + u / 0x400, 0xDC00 + u % 0x400;
    var t := PairEscape(c) + tail;
    PairEscapeFields(c, tail);
    Hex4Code(hi);
    Hex4Code(lo);
    assert u == u / 0x400 * 0x400 + u % 0x400;
    SurrogateEscape(t[1..], hi, lo);
    assert ParseEscape(t[1..]) == Some(Parsed(c, tail));
  }

  lemma {:induction false} EscapeRoundTrip(s: string, rest: string)
    ensures ParseStringBody(Escape(s) + "\"" + rest) == Some(Parsed(s, rest))
  {
    if |s| == 0 {
      assert Escape(s) + "\"" + rest == "\"" + rest;
    } else {
      var tail := Escape(s[1..]) + "\"" + rest;
      assert Escape(s) + "\"" + rest == EscapeChar(s[0]) + tail;
      EscapeCharStep(s[0], tail);
      EscapeRoundTrip(s[1..], rest);
      assert [s[0]] + s[1..] == s;
    }
  }

  lemma DigitsRoundTrip(d: string, rest: string)
    requires |d| > 0 && AllDigits(d) && (|d| > 1 ==> d[0] != '0')
    requires Delimits(rest)
    ensures var u := d + rest; LeadingDigits(u) == |d| && u[..|d|] == d && u[|d|..] == rest
  {
    LeadingDigitsOf(d, rest);
    assert (d + rest)[..|d|] == d && (d + rest)[|d|..] == rest;
  }

  lemma NaturalText(d: string, rest: string)
    requires |d| > 0 && AllDigits(d) && (|d| > 1 ==> d[0] != '0')
    requires Delimits(rest)
    ensures ParseNatural(d + rest) == Some(Parsed(JInt(DigitsValue(d)), rest))
  {
    DigitsRoundTrip(d, rest);
  }

  lemma NumberRoundTrip(n: int, rest: string)
    requires Delimits(rest)
    ensures ParseNumber(IntToDecimal(n) + rest) == Some(Parsed(JInt(n), rest))
  {
    if n >= 0 {
      var d := NatToDecimal(n);
      NaturalText(d, rest);
      assert (d + rest)[0] == d[0];
    } else {
      var d := NatToDecimal(-n);
      NaturalText(d, rest);
      var t := "-" + (d + rest);
      assert IntToDecimal(n) + rest == t;
      assert t[0] == '-' && t[1..] == d + rest;
    }
  }

  /** A printed value is not preceded by anything the parser skips. */
  lemma SkipPrinted(v: Json, layout: Layout, depth: nat, rest: string)
    ensures SkipWs(PrintAt(v, layout, depth) + rest) == PrintAt(v, layout, depth) + rest
  {
    PrintStart(v, layout, depth);
    assert (PrintAt(v, layout, depth) + rest)[0] == PrintAt(v, layout, depth)[0];
  }

  lemma {:induction false} ValueRoundTrip(v: Json, layout: Layout, depth: nat, rest: string)
    requires Delimits(rest)
    ensures ParseValue(PrintAt(v, layout, depth) + rest) == Some(Parsed(v, rest))
    decreases v, 1
  {
    SkipPrinted(v, layout, depth, rest);
    TokenRoundTrip(v, layout, depth, rest);
  }

  lemma {:induction false} TokenRoundTrip(v: Json, layout: Layout, depth: nat, rest: string)
    requires Delimits(rest)
    ensures ParseToken(PrintAt(v, layout, depth) + rest) == Some(Parsed(v, rest))
    decreases v, 0
  {
    match v
    case JNull => WordToken("null", JNull, rest);
    case JBool(b) =>
      if b {
        WordToken("true", JBool(true), rest);
      } else {
        WordToken("false", JBool(false), rest);
      }
    case JString(s) => StringToken(s, rest);
    case JInt(n) => IntToken(n, rest);
    case JArray(items) => ArrayRoundTrip(items, layout, depth, rest);
    case JObject(ms) => ObjectRoundTrip(ms, layout, depth, rest);
  }

  lemma WordToken(word: string, v: Json, rest: string)
    requires (word, v) == ("null", JNull) || (word, v) == ("true", JBool(true)) || (word, v) == ("false", JBool(false))
    ensures ParseToken(word + rest) == Some(Parsed(v, rest))
  {
    StartsWithConcat(word, rest);
    assert (word + rest)[0] == word[0];
    assert (word + rest)[|word|..] == rest;
  }

  lemma QuoteShape(s: string, rest: string)
    ensures Quote(s) + rest == "\"" + (Escape(s) + "\"" + rest)
  {
  }

  lemma QuoteToken(x: string, s: string, rest: string)
    requires ParseStringBody(x) == Some(Parsed(s, rest))
    ensures ParseToken("\"" + x) == Some(Parsed(JString(s), rest))
  {
    assert ("\"" + x)[1..] == x;
  }

  lemma StringToken(s: string, rest: string)
    ensures ParseToken(Quote(s) + rest) == Some(Parsed(JString(s), rest))
  {
    QuoteShape(s, rest);
    EscapeRoundTrip(s, rest);
    QuoteToken(Escape(s) + "\"" + rest, s, rest);
  }

  lemma NumberToken(t: string)
    requires |t| > 0 && (t[0] == '-' || IsDigit(t[0]))
    ensures ParseToken(t) == ParseNumber(t)
  {
    var c := t[0];
    assert c != 'n' && c != 't' && c != 'f' && c != '"';
  }

  lemma IntToken(n: int, rest: string)
    requires Delimits(rest)
    ensures ParseToken(IntToDecimal(n) + rest) == Some(Parsed(JInt(n), rest))
  {
    var d := IntToDecimal(n);
    assert (d + rest)[0] == d[0];
    NumberToken(d + rest);
    NumberRoundTrip(n, rest);
  }

  // How printed text splits into pieces; these lemmas see the printer only.

  function ItemsMore(items: seq<Json>, layout: Layout, depth: nat): string
    requires |items| > 0
  {
    if |items| == 1 then "" else "," + PrintItems(items[1..], layout, depth)
  }

  function MembersMore(ms: seq<Member>, layout: Layout, depth: nat): string
    requires |ms| > 0
  {
    if |ms| == 1 then "" else "," + PrintMembers(ms[1..], layout, depth)
  }

  lemma ItemsShape(items: seq<Json>, layout: Layout, depth: nat, tail: string)
    requires |items| > 0
    ensures PrintItems(items, layout, depth) + tail
         == Newline(layout, depth) + PrintAt(items[0], layout, depth) + (ItemsMore(items, layout, depth) + tail)
  {
  }

  lemma MembersShape(ms: seq<Member>, layout: Layout, depth: nat, tail: string)
    requires |ms| > 0
    ensures PrintMembers(ms, layout, depth) + tail
         == PrintMember(ms[0], layout, depth) + (MembersMore(ms, layout, depth) + tail)
  {
  }

  lemma MemberShape(m: Member, layout: Layout, depth: nat, tail: string)
    ensures PrintMember(m, layout, depth) + tail
         == Newline(layout, depth) + Quote(m.key) + Colon(layout) + PrintAt(m.value, layout, depth) + tail
  {
  }

  lemma ArrayShape(items: seq<Json>, layout: Layout, depth: nat, rest: string)
    requires |items| > 0
    ensures PrintAt(JArray(items), layout, depth) + rest
         == "[" + (PrintItems(items, layout, depth + 1) + (Newline(layout, depth) + "]" + rest))
  {
  }

  lemma ObjectShape(ms: seq<Member>, layout: Layout, depth: nat, rest: string)
    requires |ms| > 0
    ensures PrintAt(JObject(ms), layout, depth) + rest
         == "{" + (PrintMembers(ms, layout, depth + 1) + (Newline(layout, depth) + "}" + rest))
  {
  }

  lemma SkipClose(layout: Layout, depth: nat, bracket: string, rest: string)
    requires bracket == "]" || bracket == "}"
    ensures SkipWs(Newline(layout, depth) + bracket + rest) == bracket + rest
  {
    assert Newline(layout, depth) + bracket + rest == Newline(layout, depth) + (bracket + rest);
    SkipNewline(layout, depth, bracket + rest);
  }

  // Parser steps over abstract text, so that the solver does not unfold the printer.

  lemma TokenArray(x: string)
    ensures ParseToken("[" + x) == ParseArray(x)
  {
    assert ("[" + x)[1..] == x;
  }

  lemma TokenObject(x: string)
    ensures ParseToken("{" + x) == ParseObject(x)
  {
    assert ("{" + x)[1..] == x;
  }

  lemma ArrayParts(x: string, items: seq<Json>, rest: string)
    requires var u := SkipWs(x); !(|u| > 0 && u[0] == ']')
    requires ParseItems(x) == Some(Parsed(items, rest))
    ensures ParseArray(x) == Some(Parsed(JArray(items), rest))
  {
  }

  lemma ObjectParts(x: string, ms: seq<Member>, rest: string)
    requires var u := SkipWs(x); !(|u| > 0 && u[0] == '}')
    requires ParseMembers(x) == Some(Parsed(ms, rest))
    ensures ParseObject(x) == Some(Parsed(JObject(ms), rest))
  {
  }

  lemma ItemsLast(t: string, x: Json, tail: string, rest: string)
    requires ParseValue(t) == Some(Parsed(x, tail))
    requires SkipWs(tail) == "]" + rest
    ensures ParseItems(t) == Some(Parsed([x], rest))
  {
    assert ("]" + rest)[1..] == rest;
  }

  lemma ItemsNext(t: string, x: Json, tail: string, u: string, xs: seq<Json>, rest: string)
    requires ParseValue(t) == Some(Parsed(x, tail))
    requires SkipWs(tail) == "," + u
    requires ParseItems(u) == Some(Parsed(xs, rest))
    ensures ParseItems(t) == Some(Parsed([x] + xs, rest))
  {
    assert ("," + u)[1..] == u;
  }

  lemma MembersLast(t: string, m: Member, tail: string, rest: string)
    requires ParseMember(t) == Some(Parsed(m, tail))
    requires SkipWs(tail) == "}" + rest
    ensures ParseMembers(t) == Some(Parsed([m], rest))
  {
    assert ("}" + rest)[1..] == rest;
  }

  lemma MembersNext(t: string, m: Member, tail: string, u: string, ms: seq<Member>, rest: string)
    requires ParseMember(t) == Some(Parsed(m, tail))
    requires SkipWs(tail) == "," + u
    requires ParseMembers(u) == Some(Parsed(ms, rest))
    ensures ParseMembers(t) == Some(Parsed([m] + ms, rest))
  {
    assert ("," + u)[1..] == u;
  }

  lemma MemberParts(t: string, body: string, k: string, afterKey: string, valueText: string, v: Json, tail: string)
    requires SkipWs(t) == "\"" + body
    requires ParseStringBody(body) == Some(Parsed(k, afterKey))
    requires SkipWs(afterKey) == ":" + valueText
    requires ParseValue(valueText) == Some(Parsed(v, tail))
    ensures ParseMember(t) == Some(Parsed(Member(k, v), tail))
  {
    assert ("\"" + body)[1..] == body;
    assert (":" + valueText)[1..] == valueText;
  }

  lemma SkipNothing(c: char, t: string)
    requires !IsWhitespace(c)
    ensures SkipWs([c] + t) == [c] + t
  {
  }

  lemma KeyShape(nl: string, key: string, colon: string, value: string, tail: string)
    ensures nl + Quote(key) + colon + value + tail
         == nl + (['"'] + (Escape(key) + "\"" + (colon + (value + tail))))
  {
  }

  lemma SkipToKey(nl: string, key: string, colon: string, value: string, tail: string)
    requires AllWhitespace(nl)
    ensures SkipWs(nl + Quote(key) + colon + value + tail)
         == ['"'] + (Escape(key) + "\"" + (colon + (value + tail)))
  {
    var body := Escape(key) + "\"" + (colon + (value + tail));
    KeyShape(nl, key, colon, value, tail);
    SkipWsPrefix(nl, ['"'] + body);
    SkipNothing('"', body);
  }

  lemma SkipToValue(colon: string, rest: string)
    requires colon == ":" || colon == ": "
    ensures SkipWs(colon + rest) == [':'] + (colon[1..] + rest)
    ensures AllWhitespace(colon[1..])
  {
    assert colon + rest == [':'] + (colon[1..] + rest);
  }

  /** A key, a colon and a value that parses: the member parses, whatever the blanks around it. */
  lemma MemberText(nl: string, key: string, colon: string, value: string, tail: string, v: Json)
    requires AllWhitespace(nl)
    requires colon == ":" || colon == ": "
    requires ParseValue(value + tail) == Some(Parsed(v, tail))
    ensures ParseMember(nl + Quote(key) + colon + value + tail) == Some(Parsed(Member(key, v), tail))
  {
    var afterKey := colon + (value + tail);
    SkipToKey(nl, key, colon, value, tail);
    EscapeRoundTrip(key, afterKey);
    SkipToValue(colon, value + tail);
    ParseValueSkips(colon[1..], value + tail);
    MemberParts(nl + Quote(key) + colon + value + tail, Escape(key) + "\"" + afterKey,
      key, afterKey, colon[1..] + (value + tail), v, tail);
  }

  // The round trip, by induction on the value.

  lemma {:induction false} ArrayRoundTrip(items: seq<Json>, layout: Layout, depth: nat, rest: string)
    requires Delimits(rest)
    ensures ParseToken(PrintAt(JArray(items), layout, depth) + rest) == Some(Parsed(JArray(items), rest))
    decreases items, 1
  {
    if |items| == 0 {
      assert PrintAt(JArray(items), layout, depth) + rest == "[" + ("]" + rest);
      TokenArray("]" + rest);
      assert ("]" + rest)[1..] == rest;
    } else {
      var close := Newline(layout, depth) + "]" + rest;
      var x := PrintItems(items, layout, depth + 1) + close;
      ArrayShape(items, layout, depth, rest);
      TokenArray(x);
      ItemsStart(items, layout, depth + 1, close);
      ItemsRoundTrip(items, layout, depth + 1, rest);
      ArrayParts(x, items, rest);
    }
  }

  lemma {:induction false} ObjectRoundTrip(ms: seq<Member>, layout: Layout, depth: nat, rest: string)
    requires Delimits(rest)
    ensures ParseToken(PrintAt(JObject(ms), layout, depth) + rest) == Some(Parsed(JObject(ms), rest))
    decreases ms, 1
  {
    if |ms| == 0 {
      assert PrintAt(JObject(ms), layout, depth) + rest == "{" + ("}" + rest);
      TokenObject("}" + rest);
      assert ("}" + rest)[1..] == rest;
    } else {
      var close := Newline(layout, depth) + "}" + rest;
      var x := PrintMembers(ms, layout, depth + 1) + close;
      ObjectShape(ms, layout, depth, rest);
      TokenObject(x);
      MembersStart(ms, layout, depth + 1, close);
      MembersRoundTrip(ms, layout, depth + 1, rest);
      ObjectParts(x, ms, rest);
    }
  }

  /** A non-empty item list does not look like an empty array to the parser. */
  lemma ItemsStart(items: seq<Json>, layout: Layout, depth: nat, tail: string)
    requires |items| > 0
    ensures var u := SkipWs(PrintItems(items, layout, depth) + tail); !(|u| > 0 && u[0] == ']')
  {
    var first := PrintAt(items[0], layout, depth);
    var after := ItemsMore(items, layout, depth) + tail;
    ItemsShape(items, layout, depth, tail);
    assert Newline(layout, depth) + first + after == Newline(layout, depth) + (first + after);
    PrintStart(items[0], layout, depth);
    assert (first + after)[0] == first[0];
    SkipNewline(layout, depth, first + after);
  }

  /** A non-empty member list does not look like an empty object to the parser. */
  lemma MembersStart(ms: seq<Member>, layout: Layout, depth: nat, tail: string)
    requires |ms| > 0
    ensures var u := SkipWs(PrintMembers(ms, layout, depth) + tail); !(|u| > 0 && u[0] == '}')
  {
    var after := MembersMore(ms, layout, depth) + tail;
    MembersShape(ms, layout, depth, tail);
    MemberShape(ms[0], layout, depth, after);
    NewlineIsWhitespace(layout, depth);
    SkipToKey(Newline(layout, depth), ms[0].key, Colon(layout), PrintAt(ms[0].value, layout, depth), after);
  }

  /** The text after an element: a comma and more elements, or the closing bracket. */
  lemma TailDelimits(more: string, layout: Layout, depth: nat, bracket: string, rest: string)
    requires more == "" || (|more| > 0 && more[0] == ',')
    requires bracket == "]" || bracket == "}"
    ensures Delimits(more + (Newline(layout, depth) + bracket + rest))
  {
    if more == "" {
      assert more + (Newline(layout, depth) + bracket + rest) == Newline(layout, depth) + (bracket + rest);
      NewlineDelimits(layout, depth, bracket + rest);
    }
  }

  lemma {:induction false} ItemsRoundTrip(items: seq<Json>, layout: Layout, depth: nat, rest: string)
    requires |items| > 0 && depth > 0
    ensures ParseItems(PrintItems(items, layout, depth) + (Newline(layout, depth - 1) + "]" + rest))
         == Some(Parsed(items, rest))
    decreases items, 0
  {
    var close := Newline(layout, depth - 1) + "]" + rest;
    TailDelimits(ItemsMore(items, layout, depth), layout, depth - 1, "]", rest);
    ItemRoundTrip(items[0], layout, depth, ItemsMore(items, layout, depth) + close);
    if |items| == 1 {
      LastItem(items, layout, depth, rest);
    } else {
      ItemsRoundTrip(items[1..], layout, depth, rest);
      NextItem(items, layout, depth, rest);
    }
  }

  lemma LastItem(items: seq<Json>, layout: Layout, depth: nat, rest: string)
    requires |items| == 1 && depth > 0
    requires var tail := ItemsMore(items, layout, depth) + (Newline(layout, depth - 1) + "]" + rest);
      ParseValue(Newline(layout, depth) + PrintAt(items[0], layout, depth) + tail) == Some(Parsed(items[0], tail))
    ensures ParseItems(PrintItems(items, layout, depth) + (Newline(layout, depth - 1) + "]" + rest))
         == Some(Parsed(items, rest))
  {
    var close := Newline(layout, depth - 1) + "]" + rest;
    ItemsShape(items, layout, depth, close);
    assert ItemsMore(items, layout, depth) + close == close;
    SkipClose(layout, depth - 1, "]", rest);
    ItemsLast(PrintItems(items, layout, depth) + close, items[0], close, rest);
    assert [items[0]] == items;
  }

  lemma MoreItemsShape(items: seq<Json>, layout: Layout, depth: nat, close: string)
    requires |items| > 1
    ensures ItemsMore(items, layout, depth) + close == "," + (PrintItems(items[1..], layout, depth) + close)
  {
  }

  lemma NextItem(items: seq<Json>, layout: Layout, depth: nat, rest: string)
    requires |items| > 1 && depth > 0
    requires var tail := ItemsMore(items, layout, depth) + (Newline(layout, depth - 1) + "]" + rest);
      ParseValue(Newline(layout, depth) + PrintAt(items[0], layout, depth) + tail) == Some(Parsed(items[0], tail))
    requires ParseItems(PrintItems(items[1..], layout, depth) + (Newline(layout, depth - 1) + "]" + rest))
          == Some(Parsed(items[1..], rest))
    ensures ParseItems(PrintItems(items, layout, depth) + (Newline(layout, depth - 1) + "]" + rest))
         == Some(Parsed(items, rest))
  {
    var close := Newline(layout, depth - 1) + "]" + rest;
    var u := PrintItems(items[1..], layout, depth) + close;
    ItemsShape(items, layout, depth, close);
    MoreItemsShape(items, layout, depth, close);
    SkipNothing(',', u);
    ItemsNext(PrintItems(items, layout, depth) + close, items[0], "," + u, u, items[1..], rest);
    ConsSplit(items);
  }

  lemma {:induction false} ItemRoundTrip(x: Json, layout: Layout, depth: nat, tail: string)
    requires Delimits(tail)
    ensures ParseValue(Newline(layout, depth) + PrintAt(x, layout, depth) + tail) == Some(Parsed(x, tail))
    decreases x, 2
  {
    ValueRoundTrip(x, layout, depth, tail);
    NewlineIsWhitespace(layout, depth);
    ParseValueSkips(Newline(layout, depth), PrintAt(x, layout, depth) + tail);
    assert Newline(layout, depth) + PrintAt(x, layout, depth) + tail
        == Newline(layout, depth) + (PrintAt(x, layout, depth) + tail);
  }

  lemma {:induction false} MemberRoundTrip(m: Member, layout: Layout, depth: nat, tail: string)
    requires Delimits(tail)
    ensures ParseMember(PrintMember(m, layout, depth) + tail) == Some(Parsed(m, tail))
    decreases m
  {
    MemberShape(m, layout, depth, tail);
    ValueRoundTrip(m.value, layout, depth, tail);
    NewlineIsWhitespace(layout, depth);
    MemberText(Newline(layout, depth), m.key, Colon(layout), PrintAt(m.value, layout, depth), tail, m.value);
  }

  lemma {:induction false} MembersRoundTrip(ms: seq<Member>, layout: Layout, depth: nat, rest: string)
    requires |ms| > 0 && depth > 0
    ensures ParseMembers(PrintMembers(ms, layout, depth) + (Newline(layout, depth - 1) + "}" + rest))
         == Some(Parsed(ms, rest))
    decreases ms, 0
  {
    var close := Newline(layout, depth - 1) + "}" + rest;
    TailDelimits(MembersMore(ms, layout, depth), layout, depth - 1, "}", rest);
    MemberRoundTrip(ms[0], layout, depth, MembersMore(ms, layout, depth) + close);
    if |ms| == 1 {
      LastMember(ms, layout, depth, rest);
    } else {
      MembersRoundTrip(ms[1..], layout, depth, rest);
      NextMember(ms, layout, depth, rest);
    }
  }

  lemma LastMember(ms: seq<Member>, layout: Layout, depth: nat, rest: string)
    requires |ms| == 1 && depth > 0
    requires var tail := MembersMore(ms, layout, depth) + (Newline(layout, depth - 1) + "}" + rest);
      ParseMember(PrintMember(ms[0], layout, depth) + tail) == Some(Parsed(ms[0], tail))
    ensures ParseMembers(PrintMembers(ms, layout, depth) + (Newline(layout, depth - 1) + "}" + rest))
         == Some(Parsed(ms, rest))
  {
    var close := Newline(layout, depth - 1) + "}" + rest;
    MembersShape(ms, layout, depth, close);
    assert MembersMore(ms, layout, depth) + close == close;
    SkipClose(layout, depth - 1, "}", rest);
    MembersLast(PrintMembers(ms, layout, depth) + close, ms[0], close, rest);
    assert [ms[0]] == ms;
  }

  lemma MoreMembersShape(ms: seq<Member>, layout: Layout, depth: nat, close: string)
    requires |ms| > 1
    ensures MembersMore(ms, layout, depth) + close == "," + (PrintMembers(ms[1..], layout, depth) + close)
  {
  }

  lemma NextMember(ms: seq<Member>, layout: Layout, depth: nat, rest: string)
    requires |ms| > 1 && depth > 0
    requires var tail := MembersMore(ms, layout, depth) + (Newline(layout, depth - 1) + "}" + rest);
      ParseMember(PrintMember(ms[0], layout, depth) + tail) == Some(Parsed(ms[0], tail))
    requires ParseMembers(PrintMembers(ms[1..], layout, depth) + (Newline(layout, depth - 1) + "}" + rest))
          == Some(Parsed(ms[1..], rest))
    ensures ParseMembers(PrintMembers(ms, layout, depth) + (Newline(layout, depth - 1) + "}" + rest))
         == Some(Parsed(ms, rest))
  {
    var close := Newline(layout, depth - 1) + "}" + rest;
    var u := PrintMembers(ms[1..], layout, depth) + close;
    MembersShape(ms, layout, depth, close);
    MoreMembersShape(ms, layout, depth, close);
    SkipNothing(',', u);
    MembersNext(PrintMembers(ms, layout, depth) + close, ms[0], "," + u, u, ms[1..], rest);
    ConsSplit(ms);
  }

  /** `JSON.parse(JSON.stringify(v))` gives `v` back, in either layout. */
  lemma RoundTrip(v: Json, layout: Layout)
    ensures Parse(Stringify(v, layout)) == Some(v)
  {
    ValueRoundTrip(v, layout, 0, "");
    assert Stringify(v, layout) + "" == Stringify(v, layout);
  }
}
