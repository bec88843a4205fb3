/**
 * Parsed JSON values, the destructuring property read that the cache-validity
 * predicates perform on them, and the string quoting of JSON.stringify together
 * with a reference decoder for it.
 *
 * JSON.parse itself is not modelled: a parsed body is either `ParseFail` or a
 * `Json` value, and the proxy's configuration supplies the parser.
 */
module Json {
  import opened Wrappers

  datatype JsonValue =
    | JNull
    | JBool(b: bool)
    | JNumber(n: real)
    | JString(s: string)
    | JArray(items: seq<JsonValue>)
    | JObject(members: seq<(string, JsonValue)>)

  /** Outcome of JSON.parse on a response body: a thrown SyntaxError or a value. */
  datatype Parsed = ParseFail | Json(value: JsonValue)

  /** The value of the last member named `name` (JSON.parse keeps the last of duplicate keys). */
  function LastMember(members: seq<(string, JsonValue)>, name: string): (r: Option<JsonValue>)
    ensures r.None? <==> forall i :: 0 <= i < |members| ==> members[i].0 != name
    ensures r.Some? ==> exists i :: 0 <= i < |members| && members[i] == (name, r.value)
                          && forall j :: i < j < |members| ==> members[j].0 != name
    decreases |members|
  {
    if members == [] then None
    else if members[|members| - 1].0 == name then Some(members[|members| - 1].1)
    else LastMember(members[..|members| - 1], name)
  }

  /**
   * What `const { name } = v` yields for a non-null value: the own property of an
   * object, and undefined (None) for strings, numbers, booleans and arrays, none of
   * whose prototypes define the cursor field names used by the endpoint table.
   */
  function Property(v: JsonValue, name: string): (r: Option<JsonValue>)
    ensures r.Some? <==> v.JObject? && exists i :: 0 <= i < |v.members| && v.members[i].0 == name
    ensures r.Some? ==> exists i :: 0 <= i < |v.members| && v.members[i] == (name, r.value)
                          && forall j :: i < j < |v.members| ==> v.members[j].0 != name
  {
    match v
    case JObject(members) => LastMember(members, name)
    case _ => None
  }

  // ---------------------------------------------------------------------------
  // String quoting as JSON.stringify performs it (QuoteJSONString in ECMAScript).
  // ---------------------------------------------------------------------------

  /** Lower-case hexadecimal digit for 0 <= d < 16. */
  function HexDigit(d: int): char
    requires 0 <= d < 16
  {
    if d < 10 then ('0' as int + d) as char else ('a' as int + d - 10) as char
  }

  /** Value of a hexadecimal digit of either case. */
  function HexDigitValue(c: char): (r: Option<int>)
    ensures r.Some? ==> 0 <= r.value < 16
    ensures forall d :: 0 <= d < 16 && c == HexDigit(d) ==> r == Some(d)
  {
    if '0' <= c <= '9' then Some(c as int - '0' as int)
    else if 'a' <= c <= 'f' then Some(c as int - 'a' as int + 10)
    else if 'A' <= c <= 'F' then Some(c as int - 'A' as int + 10)
    else None
  }

  /** The escape JSON.stringify writes for one character. */
  function EscapeChar(c: char): string
  {
    if c == '"' then ['\\', '"']
    else if c == '\\' then ['\\', '\\']
    else if c as int == 0x08 then ['\\', 'b']
    else if c as int == 0x09 then ['\\', 't']
    else if c as int == 0x0A then ['\\', 'n']
    else if c as int == 0x0C then ['\\', 'f']
    else if c as int == 0x0D then ['\\', 'r']
    else if c as int < 0x20 then ['\\', 'u', '0', '0', HexDigit(c as int / 16), HexDigit(c as int % 16)]
    else [c]
  }

  function Flatten(parts: seq<string>): string
  {
    if parts == [] then [] else parts[0] + Flatten(parts[1..])
  }

  /** Each character replaced by its escape. */
  function Escape(s: string): string
  {
    Flatten(seq(|s|, i requires 0 <= i < |s| => EscapeChar(s[i])))
  }

  lemma EscapeCons(s: string)
    requires s != []
    ensures Escape(s) == EscapeChar(s[0]) + Escape(s[1..])
  {
    var parts := seq(|s|, i requires 0 <= i < |s| => EscapeChar(s[i]));
    assert parts[1..] == seq(|s[1..]|, i requires 0 <= i < |s[1..]| => EscapeChar(s[1..][i]));
  }

  /** The JSON text of a string value. */
  function Quote(s: string): string
  {
    ['"'] + Escape(s) + ['"']
  }

  /** A character JSON.stringify writes as itself. */
  predicate Plain(c: char)
  {
    c as int >= 0x20 && c != '"' && c != '\\'
  }

  lemma {:induction false} EscapePlain(s: string)
    requires forall c :: c in s ==> Plain(c)
    ensures Escape(s) == s
  {
    if s != [] {
      EscapeCons(s);
      assert s[0] in s;
      assert EscapeChar(s[0]) == [s[0]];
      assert forall c :: c in s[1..] ==> c in s;
      EscapePlain(s[1..]);
      assert [s[0]] + s[1..] == s;
    }
  }

  // ---------------------------------------------------------------------------
  // A reference decoder for JSON string literals: it reads the characters after
  // an opening quote up to the closing one and returns them with the rest.
  // ---------------------------------------------------------------------------

  function SimpleEscape(c: char): Option<char>
  {
    if c == '"' then Some('"')
    else if c == '\\' then Some('\\')
    else if c == '/' then Some('/')
    else if c == 'b' then Some(0x08 as char)
    else if c == 't' then Some(0x09 as char)
    else if c == 'n' then Some(0x0A as char)
    else if c == 'f' then Some(0x0C as char)
    else if c == 'r' then Some(0x0D as char)
    else None
  }

  /** The character a \uXXXX escape denotes; surrogate halves are not decoded. */
  function UnicodeEscape(a: char, b: char, c: char, d: char): Option<char>
  {
    match (HexDigitValue(a), HexDigitValue(b), HexDigitValue(c), HexDigitValue(d))
    case (Some(x), Some(y), Some(z), Some(w)) =>
      var n := ((x * 16 + y) * 16 + z) * 16 + w;
      if 0xD800 <= n < 0xE000 then None else Some(n as char)
    case _ => None
  }

  function Prepend(c: char, r: Option<(string, string)>): Option<(string, string)>
  {
    match r
    case None => None
    case Some((s, rest)) => Some(([c] + s, rest))
  }

  function Unescape(t: string): Option<(string, string)>
    decreases |t|
  {
    if |t| == 0 then None
    else if t[0] == '"' then Some(([], t[1..]))
    else if t[0] == '\\' then
      if |t| < 2 then None
      else if t[1] == 'u' then
        if |t| < 6 then None
        else match UnicodeEscape(t[2], t[3], t[4], t[5])
          case None => None
          case Some(c) => Prepend(c, Unescape(t[6..]))
      else match SimpleEscape(t[1])
        case None => None
        case Some(c) => Prepend(c, Unescape(t[2..]))
    else if t[0] as int < 0x20 then None
    else Prepend(t[0], Unescape(t[1..]))
  }

  /** Reads one JSON string literal at the front of `t`. */
  function ParseQuoted(t: string): Option<(string, string)>
  {
    if |t| > 0 && t[0] == '"' then Unescape(t[1..]) else None
  }

  lemma UnescapeEscapeChar(c: char, t: string)
    ensures Unescape(EscapeChar(c) + t) == Prepend(c, Unescape(t))
  {
    var u := EscapeChar(c) + t;
    if c == '"' || c == '\\' || c as int in {0x08, 0x09, 0x0A, 0x0C, 0x0D} {
      assert u[0] == '\\' && u[2..] == t;
    } else if c as int < 0x20 {
      var hi, lo := c as int / 16, c as int % 16;
      assert u[0] == '\\' && u[1] == 'u';
      assert u[2] == '0' && u[3] == '0' && u[4] == HexDigit(hi) && u[5] == HexDigit(lo);
      assert HexDigitValue('0') == Some(0);
      assert UnicodeEscape(u[2], u[3], u[4], u[5]) == Some(c);
      assert u[6..] == t;
    } else {
      assert u[0] == c && u[1..] == t;
    }
  }

  /** Decoding undoes the escaping, and stops exactly at the closing quote. */
  lemma {:induction false} UnescapeEscape(s: string, rest: string)
    ensures Unescape(Escape(s) + ['"'] + rest) == Some((s, rest))
  {
    if s == [] {
      assert Escape(s) + ['"'] + rest == ['"'] + rest;
    } else {
      EscapeCons(s);
      var t := Escape(s[1..]) + ['"'] + rest;
      assert Escape(s) + ['"'] + rest == EscapeChar(s[0]) + t;
      UnescapeEscapeChar(s[0], t);
      UnescapeEscape(s[1..], rest);
      assert [s[0]] + s[1..] == s;
    }
  }

  /** Round trip: the reference decoder reads back what Quote wrote. */
  lemma ParseQuotedQuote(s: string, rest: string)
    ensures ParseQuoted(Quote(s) + rest) == Some((s, rest))
  {
    var t := Quote(s) + rest;
    assert t[0] == '"';
    assert t[1..] == Escape(s) + ['"'] + rest;
    UnescapeEscape(s, rest);
  }
}
