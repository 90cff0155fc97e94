/**
 * JSON values as the core sees them after `JSON.parse` / `response.json()`,
 * JavaScript truthiness and property access on them, and the exact
 * `JSON.stringify` / `JSON.parse` pair for arrays of strings, which is how
 * the skill index stores tags.
 */
module Json {
  import opened Wrappers
  import opened Text

  /** A parsed JSON value. Numbers are limited to integers. */
  datatype Json =
    | JNull
    | JBool(b: bool)
    | JNumber(n: int)
    | JString(s: string)
    | JArray(items: seq<Json>)
    | JObject(fields: map<string, Json>)

  /** JavaScript truthiness of a value that may be `undefined` (`None`). */
  predicate Truthy(v: Option<Json>) {
    match v
    case None => false
    case Some(JNull) => false
    case Some(JBool(b)) => b
    case Some(JNumber(n)) => n != 0
    case Some(JString(s)) => s != ""
    case Some(_) => true
  }

  /** `v.key` on an object; any other value has no such property. */
  function Get(v: Option<Json>, key: string): (r: Option<Json>)
    ensures r.Some? ==> v.Some? && v.value.JObject? && key in v.value.fields
  {
    if v.Some? && v.value.JObject? && key in v.value.fields then Some(v.value.fields[key]) else None
  }

  /** `a || b` */
  function Or(a: Option<Json>, b: Option<Json>): (r: Option<Json>)
    ensures Truthy(r) <==> Truthy(a) || Truthy(b)
    ensures Truthy(a) ==> r == a
    ensures !Truthy(a) ==> r == b
  {
    if Truthy(a) then a else b
  }

  /** `String(v)`, as a template literal converts a value. */
  function ToText(v: Option<Json>): string {
    match v
    case None => "undefined"
    case Some(j) => JsonText(j)
  }

  function JsonText(j: Json): string {
    match j
    case JNull => "null"
    case JBool(b) => if b then "true" else "false"
    case JNumber(n) => IntToString(n)
    case JString(s) => s
    case JArray(items) => ArrayText(items)
    case JObject(_) => "[object Object]"
  }

  /** `String(array)`: elements joined by commas, `null` elements as empty text. */
  function ArrayText(items: seq<Json>): string
    decreases items, 1
  {
    if |items| == 0 then ""
    else
      var head := if items[0].JNull? then "" else JsonText(items[0]);
      if |items| == 1 then head else head + "," + ArrayText(items[1..])
  }

  // ---------------------------------------------------------------------
  // JSON.stringify on an array of strings

  function HexDigit(d: nat): (c: char)
    requires d < 16
  {
    if d < 10 then DigitChar(d) else ('a' as int + (d - 10)) as char
  }

  /** How `JSON.stringify` writes one character inside a string literal. */
  function EscapeChar(c: char): (r: string)
    ensures |r| >= 1
  {
    if c == '"' then "\\\""
    else if c == '\\' then "\\\\"
    else if c == '\U{0008}' then "\\b"
    else if c == '\U{000C}' then "\\f"
    else if c == '\n' then "\\n"
    else if c == '\r' then "\\r"
    else if c == '\t' then "\\t"
    else if (c as int) < 0x20 then "\\u00" + [HexDigit(c as int / 16), HexDigit(c as int % 16)]
    else [c]
  }

  function Escape(t: string): string
    decreases |t|
  {
    if |t| == 0 then "" else EscapeChar(t[0]) + Escape(t[1..])
  }

  /** Text without quotes, backslashes or control characters is written as it is. */
  lemma {:induction false} EscapePlain(t: string)
    requires forall k :: 0 <= k < |t| ==> t[k] != '"' && t[k] != '\\' && (t[k] as int) >= 0x20
    ensures Escape(t) == t
    decreases |t|
  {
    if |t| > 0 {
      EscapePlain(t[1..]);
      assert t == [t[0]] + t[1..];
    }
  }

  function Quote(t: string): string {
    "\"" + Escape(t) + "\""
  }

  /** `JSON.stringify(tags)` for an array of strings. */
  function StringifyStrings(tags: seq<string>): string {
    if |tags| == 0 then "[]" else "[" + Quote(tags[0]) + StringifyRest(tags[1..])
  }

  function StringifyRest(tags: seq<string>): string
    decreases |tags|
  {
    if |tags| == 0 then "]" else "," + Quote(tags[0]) + StringifyRest(tags[1..])
  }

  // ---------------------------------------------------------------------
  // JSON.parse restricted to texts whose value is an array of strings

  /** JSON's insignificant whitespace: space, tab, line feed, carriage return. */
  predicate IsJsonSpace(c: char) {
    c == ' ' || c == '\t' || c == '\n' || c == '\r'
  }

  function SkipSpace(s: string): (r: string)
    ensures |r| <= |s|
    ensures |r| > 0 ==> !IsJsonSpace(r[0])
    ensures |s| > 0 && !IsJsonSpace(s[0]) ==> r == s
    decreases |s|
  {
    if |s| > 0 && IsJsonSpace(s[0]) then SkipSpace(s[1..]) else s
  }

  function HexValue(c: char): Option<nat> {
    if '0' <= c <= '9' then Some(c as int - '0' as int)
    else if 'a' <= c <= 'f' then Some(c as int - 'a' as int + 10)
    else if 'A' <= c <= 'F' then Some(c as int - 'A' as int + 10)
    else None
  }

  /** The code unit written by four hexadecimal digits at the start of `s`. */
  function Hex4(s: string): (r: Option<nat>)
    ensures r.Some? ==> |s| >= 4 && r.value < 0x10000
  {
    if |s| < 4 then None
    else match (HexValue(s[0]), HexValue(s[1]), HexValue(s[2]), HexValue(s[3]))
      case (Some(a), Some(b), Some(c), Some(d)) =>
        if a < 16 && b < 16 && c < 16 && d < 16 then Some(((a * 16 + b) * 16 + c) * 16 + d) else None
      case _ => None
  }

  /**
   * The character written by the escape sequence after a backslash, and the
   * text after it. A surrogate pair of `\u` escapes makes one character; a
   * lone surrogate has no counterpart among Unicode scalar values, so it is
   * refused.
   */
  function ParseEscape(s: string): (r: Option<(char, string)>)
    ensures r.Some? ==> |r.value.1| < |s|
  {
    if |s| == 0 then None
    else if s[0] == '"' then Some(('"', s[1..]))
    else if s[0] == '\\' then Some(('\\', s[1..]))
    else if s[0] == '/' then Some(('/', s[1..]))
    else if s[0] == 'b' then Some(('\U{0008}', s[1..]))
    else if s[0] == 'f' then Some(('\U{000C}', s[1..]))
    else if s[0] == 'n' then Some(('\n', s[1..]))
    else if s[0] == 'r' then Some(('\r', s[1..]))
    else if s[0] == 't' then Some(('\t', s[1..]))
    else if s[0] == 'u' then
      match Hex4(s[1..])
      case None => None
      case Some(hi) =>
        if hi < 0xD800 || hi > 0xDFFF then Some((hi as char, s[5..]))
        else if hi >= 0xDC00 then None
        else if |s| >= 7 && s[5] == '\\' && s[6] == 'u' then
          match Hex4(s[7..])
          case None => None
          case Some(lo) =>
            if 0xDC00 <= lo <= 0xDFFF then
              Some(((0x10000 + (hi - 0xD800) * 0x400 + (lo - 0xDC00)) as char, s[11..]))
            else None
        else None
    else None
  }

  /** The characters of a string literal up to its closing quote, and the text after it. */
  function ParseStringBody(s: string): (r: Option<(string, string)>)
    ensures r.Some? ==> |r.value.1| < |s|
    decreases |s|
  {
    if |s| == 0 then None
    else if s[0] == '"' then Some(("", s[1..]))
    else if (s[0] as int) < 0x20 then None
    else if s[0] == '\\' then
      match ParseEscape(s[1..])
      case None => None
      case Some((c, rest)) =>
        match ParseStringBody(rest)
        case None => None
        case Some((t, tail)) => Some(([c] + t, tail))
    else
      match ParseStringBody(s[1..])
      case None => None
      case Some((t, tail)) => Some(([s[0]] + t, tail))
  }

  /** The elements after the first, each introduced by a comma, up to the closing bracket. */
  function ParseMoreStrings(s: string): (r: Option<(seq<string>, string)>)
    decreases |s|
  {
    var s1 := SkipSpace(s);
    if |s1| > 0 && s1[0] == ']' then Some(([], s1[1..]))
    else if |s1| > 0 && s1[0] == ',' then
      var s2 := SkipSpace(s1[1..]);
      if |s2| > 0 && s2[0] == '"' then
        match ParseStringBody(s2[1..])
        case None => None
        case Some((t, rest)) =>
          match ParseMoreStrings(rest)
          case None => None
          case Some((ts, tail)) => Some(([t] + ts, tail))
      else None
    else None
  }

  /**
   * `JSON.parse(s)` when its value is an array of strings; `None` when `s`
   * is not JSON text or its value is anything else.
   */
  function ParseStrings(s: string): Option<seq<string>> {
    var s1 := SkipSpace(s);
    if |s1| == 0 || s1[0] != '[' then None
    else
      var s2 := SkipSpace(s1[1..]);
      if |s2| > 0 && s2[0] == ']' then
        if SkipSpace(s2[1..]) == "" then Some([]) else None
      else if |s2| > 0 && s2[0] == '"' then
        match ParseStringBody(s2[1..])
        case None => None
        case Some((t, rest)) =>
          match ParseMoreStrings(rest)
          case None => None
          case Some((ts, tail)) => if SkipSpace(tail) == "" then Some([t] + ts) else None
      else None
  }

  // ---------------------------------------------------------------------
  // Round trip

  lemma HexDigitValue(d: nat)
    requires d < 16
    ensures HexValue(HexDigit(d)) == Some(d)
  {
  }

  lemma ParseEscapedChar(c: char, more: string)
    ensures ParseStringBody(EscapeChar(c) + more) == match ParseStringBody(more)
      case None => None
      case Some((t, tail)) => Some(([c] + t, tail))
  {
    var s := EscapeChar(c) + more;
    if c == '"' || c == '\\' || c == '\U{0008}' || c == '\U{000C}' || c == '\n' || c == '\r' || c == '\t' {
      assert s[1..][1..] == more;
    } else if (c as int) < 0x20 {
      var n := c as int;
      HexDigitValue(n / 16);
      HexDigitValue(n % 16);
      assert s[1..][0] == 'u';
      assert s[1..][1..][..4] == "00" + [HexDigit(n / 16), HexDigit(n % 16)];
      assert Hex4(s[1..][1..]) == Some(n);
      assert s[1..][5..] == more;
    } else {
      assert s[1..] == more;
    }
  }

  lemma {:induction false} ParseQuoted(t: string, rest: string)
    ensures ParseStringBody(Escape(t) + "\"" + rest) == Some((t, rest))
    decreases |t|
  {
    if |t| == 0 {
      assert Escape(t) + "\"" + rest == "\"" + rest;
      assert ("\"" + rest)[1..] == rest;
    } else {
      ParseQuoted(t[1..], rest);
      assert Escape(t) == EscapeChar(t[0]) + Escape(t[1..]);
      Regroup4(EscapeChar(t[0]), Escape(t[1..]), "\"", rest);
      ParseEscapedChar(t[0], Escape(t[1..]) + "\"" + rest);
      assert [t[0]] + t[1..] == t;
    }
  }

  /** One step of `ParseMoreStrings` over a comma and an opening quote. */
  lemma MoreStep(body: string)
    ensures ParseMoreStrings("," + ("\"" + body)) == match ParseStringBody(body)
      case None => None
      case Some((t, rest)) =>
        match ParseMoreStrings(rest)
        case None => None
        case Some((ts, tail)) => Some(([t] + ts, tail))
  {
    var s := "," + ("\"" + body);
    assert SkipSpace(s) == s;
    assert s[1..] == "\"" + body;
    assert SkipSpace(s[1..]) == s[1..];
    assert s[1..][1..] == body;
  }

  /** `ParseMoreStrings` stops at the closing bracket. */
  lemma MoreEnd(tail: string)
    ensures ParseMoreStrings("]" + tail) == Some(([], tail))
  {
    var s := "]" + tail;
    assert SkipSpace(s) == s;
    assert s[1..] == tail;
  }

  /** The text `StringifyRest` writes for a non-empty list, grouped for parsing. */
  lemma RestSplit(tags: seq<string>, tail: string)
    requires |tags| > 0
    ensures StringifyRest(tags) + tail
      == "," + ("\"" + (Escape(tags[0]) + "\"" + (StringifyRest(tags[1..]) + tail)))
  {
    Regroup(",", "\"", Escape(tags[0]), "\"", StringifyRest(tags[1..]), tail);
  }

  lemma Regroup4<T>(a: seq<T>, b: seq<T>, c: seq<T>, d: seq<T>)
    ensures a + b + c + d == a + (b + c + d)
  {
  }

  lemma Regroup<T>(a: seq<T>, b: seq<T>, c: seq<T>, d: seq<T>, e: seq<T>, f: seq<T>)
    ensures a + (b + c + d) + e + f == a + (b + (c + d + (e + f)))
  {
  }

  /** A comma, a parsed string literal and parsed further elements make one more element. */
  lemma MoreCons(body: string, t: string, rest: string, ts: seq<string>, tail: string)
    requires ParseStringBody(body) == Some((t, rest))
    requires ParseMoreStrings(rest) == Some((ts, tail))
    ensures ParseMoreStrings("," + ("\"" + body)) == Some(([t] + ts, tail))
  {
    MoreStep(body);
  }

  lemma {:induction false} ParseRest(tags: seq<string>, tail: string)
    ensures ParseMoreStrings(StringifyRest(tags) + tail) == Some((tags, tail))
    decreases |tags|
  {
    if |tags| == 0 {
      assert StringifyRest(tags) + tail == "]" + tail;
      MoreEnd(tail);
    } else {
      ParseRest(tags[1..], tail);
      RestCons(tags, tail);
    }
  }

  /** The step of `ParseRest`: one more quoted string in front of a parsable rest. */
  lemma RestCons(tags: seq<string>, tail: string)
    requires |tags| > 0
    requires ParseMoreStrings(StringifyRest(tags[1..]) + tail) == Some((tags[1..], tail))
    ensures ParseMoreStrings(StringifyRest(tags) + tail) == Some((tags, tail))
  {
    var rest := StringifyRest(tags[1..]) + tail;
    RestSplit(tags, tail);
    ParseQuoted(tags[0], rest);
    MoreCons(Escape(tags[0]) + "\"" + rest, tags[0], rest, tags[1..], tail);
    assert [tags[0]] + tags[1..] == tags;
  }

  /** One step of `ParseStrings` over an opening bracket and an opening quote. */
  lemma StringsStep(body: string)
    ensures ParseStrings("[" + ("\"" + body)) == match ParseStringBody(body)
      case None => None
      case Some((t, rest)) =>
        match ParseMoreStrings(rest)
        case None => None
        case Some((ts, tail)) => if SkipSpace(tail) == "" then Some([t] + ts) else None
  {
    var s := "[" + ("\"" + body);
    assert SkipSpace(s) == s;
    assert s[1..] == "\"" + body;
    assert SkipSpace(s[1..]) == s[1..];
    assert s[1..][1..] == body;
  }

  /** Parsing what `JSON.stringify` wrote for an array of strings gives the array back. */
  lemma {:induction false} ParseStringifyStrings(tags: seq<string>)
    ensures ParseStrings(StringifyStrings(tags)) == Some(tags)
  {
    var s := StringifyStrings(tags);
    if |tags| == 0 {
      assert s[1..] == "]";
      assert s[1..][1..] == "";
    } else {
      var rest := StringifyRest(tags[1..]);
      var body := Escape(tags[0]) + "\"" + rest;
      assert s == "[" + ("\"" + body);
      StringsStep(body);
      ParseQuoted(tags[0], rest);
      ParseRest(tags[1..], "");
      assert rest + "" == rest;
      assert [tags[0]] + tags[1..] == tags;
    }
  }

  // ---------------------------------------------------------------------
  // Arrays with a non-string element

  /** The string elements of an array, each written by `JSON.stringify` and followed by a comma. */
  function QuotedElements(tags: seq<string>): string
    decreases |tags|
  {
    if |tags| == 0 then "" else "\"" + (Escape(tags[0]) + "\"" + ("," + QuotedElements(tags[1..])))
  }

  /** The first string element and the comma after it, regrouped for parsing. */
  lemma ElementsSplit(tags: seq<string>, t: string)
    requires |tags| > 0
    ensures QuotedElements(tags) + t == "\"" + (Escape(tags[0]) + "\"" + ("," + QuotedElements(tags[1..]) + t))
  {
    RegroupTail("\"", Escape(tags[0]), "\"", ",", QuotedElements(tags[1..]), t);
  }

  lemma RegroupTail<T>(a: seq<T>, b: seq<T>, c: seq<T>, d: seq<T>, e: seq<T>, f: seq<T>)
    ensures a + (b + c + (d + e)) + f == a + (b + c + (d + e + f))
  {
  }

  /** After a comma, an element that does not start with a quote stops the string list. */
  lemma {:induction false} MoreNonString(tags: seq<string>, t: string)
    requires |t| > 0 && !IsJsonSpace(t[0]) && t[0] != '"'
    ensures ParseMoreStrings("," + QuotedElements(tags) + t) == None
    decreases |tags|
  {
    if |tags| == 0 {
      var s := "," + t;
      assert "," + QuotedElements(tags) + t == s;
      assert SkipSpace(s) == s;
      assert s[1..] == t;
    } else {
      var tail := "," + QuotedElements(tags[1..]) + t;
      var body := Escape(tags[0]) + "\"" + tail;
      ElementsSplit(tags, t);
      assert "," + QuotedElements(tags) + t == "," + ("\"" + body);
      MoreStep(body);
      ParseQuoted(tags[0], tail);
      MoreNonString(tags[1..], t);
    }
  }

  /**
   * An array with an element that is not a string, after any number of
   * string elements, is not an array of strings: `["a", 1]`.
   */
  lemma {:induction false} ParseStringsNonString(tags: seq<string>, t: string)
    requires |t| > 0 && !IsJsonSpace(t[0]) && t[0] != '"' && t[0] != ']'
    ensures ParseStrings("[" + QuotedElements(tags) + t) == None
  {
    var s := "[" + QuotedElements(tags) + t;
    if |tags| == 0 {
      assert s == "[" + t;
      assert SkipSpace(s) == s;
      assert s[1..] == t;
    } else {
      var tail := "," + QuotedElements(tags[1..]) + t;
      var body := Escape(tags[0]) + "\"" + tail;
      ElementsSplit(tags, t);
      assert s == "[" + ("\"" + body);
      StringsStep(body);
      ParseQuoted(tags[0], tail);
      MoreNonString(tags[1..], t);
    }
  }
}
