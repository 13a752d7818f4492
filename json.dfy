/** The part of serde_json the tools touch: the `Value` tree, `get`,
    `as_u64`, `as_str`, the outcome of `from_str`, and how `to_string`
    writes a string (with its escapes), which is what the unknown-tool
    error text consists of. */
module Json {
  import opened Wrappers
  import opened Text

  datatype Value =
    | Null
    | Bool(b: bool)
    | Int(i: int)          // a JSON number written without fraction or exponent
    | Float(repr: string)  // any other JSON number
    | Str(s: string)
    | Array(items: seq<Value>)
    | Object(fields: map<string, Value>)

  const EmptyObject: Value := Object(map[])

  /** `Value::get(key)`: only an object has members. */
  function Get(v: Value, key: string): (r: Option<Value>)
    ensures r.Some? <==> v.Object? && key in v.fields
  {
    if v.Object? && key in v.fields then Some(v.fields[key]) else None
  }

  /** `Value::as_u64` */
  function AsU64(v: Value): (r: Option<U64>)
    ensures r.Some? <==> v.Int? && 0 <= v.i <= U64_MAX
  {
    if v.Int? && 0 <= v.i <= U64_MAX then Some(v.i) else None
  }

  /** `Value::as_str` */
  function AsStr(v: Value): (r: Option<string>)
    ensures r.Some? <==> v.Str?
  {
    if v.Str? then Some(v.s) else None
  }

  /** The outcome of `serde_json::from_str` on a piece of text: the text is
      either well-formed JSON denoting a value, or it is not. */
  datatype RawJson = Wellformed(value: Value) | Malformed

  /** `serde_json::from_str(text).unwrap_or_else(|_| json!({}))` */
  function ParseOrEmpty(raw: RawJson): (v: Value)
    ensures raw.Malformed? ==> v == EmptyObject
    ensures raw.Wellformed? ==> v == raw.value
  {
    match raw
    case Wellformed(v) => v
    case Malformed => EmptyObject
  }

  function HexDigit(d: nat): (c: char)
    requires d < 16
  {
    if d < 10 then (('0' as int) + d) as char else (('a' as int) + d - 10) as char
  }

  function HexValue(c: char): Option<nat> {
    if '0' <= c <= '9' then Some((c as int) - ('0' as int))
    else if 'a' <= c <= 'f' then Some((c as int) - ('a' as int) + 10)
    else None
  }

  /** serde_json's escape of one character inside a string literal. */
  function EscapeChar(c: char): (e: string)
    ensures 1 <= |e| <= 6
  {
    if c == '"' then "\\\""
    else if c == '\\' then "\\\\"
    else if c as int == 8 then "\\b"
    else if c == '\t' then "\\t"
    else if c == '\n' then "\\n"
    else if c as int == 12 then "\\f"
    else if c == '\r' then "\\r"
    else if (c as int) < 0x20 then
      "\\u00" + [HexDigit((c as int) / 16), HexDigit((c as int) % 16)]
    else [c]
  }

  function Escape(s: string): string {
    if |s| == 0 then "" else EscapeChar(s[0]) + Escape(s[1..])
  }

  /** A JSON string literal as `to_string` writes it. */
  function Quote(s: string): string {
    "\"" + Escape(s) + "\""
  }

  /** Reading escaped text back (the inverse of `Escape`, for the escapes
      serde_json writes). */
  function Unescape(e: string): Option<string>
    decreases |e|
  {
    if |e| == 0 then Some("")
    else if e[0] == '"' then None
    else if e[0] != '\\' then
      match Unescape(e[1..])
      case Some(rest) => Some([e[0]] + rest)
      case None => None
    else if |e| < 2 then None
    else
      var k := e[1];
      var simple :=
        if k == '"' then Some('"') else if k == '\\' then Some('\\')
        else if k == 'b' then Some(8 as char) else if k == 't' then Some('\t')
        else if k == 'n' then Some('\n') else if k == 'f' then Some(12 as char)
        else if k == 'r' then Some('\r') else None;
      if simple.Some? then
        match Unescape(e[2..])
        case Some(rest) => Some([simple.value] + rest)
        case None => None
      else if k == 'u' && |e| >= 6 && e[2] == '0' && e[3] == '0'
              && HexValue(e[4]).Some? && HexValue(e[5]).Some? then
        var code := HexValue(e[4]).value * 16 + HexValue(e[5]).value;
        match Unescape(e[6..])
        case Some(rest) => Some([code as char] + rest)
        case None => None
      else None
  }

  lemma UnescapeChar(c: char, rest: string)
    ensures Unescape(EscapeChar(c) + rest) ==
      match Unescape(rest)
      case Some(r) => Some([c] + r)
      case None => None
  {
    var e := EscapeChar(c) + rest;
    var special := c == '"' || c == '\\' || c as int == 8 || c == '\t' || c == '\n' || c as int == 12 || c == '\r';
    if (c as int) < 0x20 && !special {
      var n := c as int;
      assert HexValue(HexDigit(n / 16)) == Some(n / 16);
      assert HexValue(HexDigit(n % 16)) == Some(n % 16);
      assert e[6..] == rest;
      assert (n / 16 * 16 + n % 16) as char == c;
    } else if special {
      assert e[2..] == rest;
    } else {
      assert e[1..] == rest;
    }
  }

  /** Escaping loses nothing: the escaped text reads back as the original. */
  lemma {:induction false} UnescapeEscape(s: string)
    ensures Unescape(Escape(s)) == Some(s)
  {
    if |s| > 0 {
      UnescapeEscape(s[1..]);
      UnescapeChar(s[0], Escape(s[1..]));
      assert [s[0]] + s[1..] == s;
    }
  }

  /** An escaped text never contains a bare quote, so `Quote` always ends
      where it should. */
  lemma {:induction false} EscapeHasNoBareQuote(s: string)
    ensures forall i | 0 <= i < |Escape(s)| :: Escape(s)[i] == '"' ==> i > 0 && Escape(s)[i - 1] == '\\'
  {
    if |s| > 0 {
      EscapeHasNoBareQuote(s[1..]);
      var e := Escape(s);
      var h := EscapeChar(s[0]);
      assert e == h + Escape(s[1..]);
      forall i | 0 <= i < |e| && e[i] == '"'
        ensures i > 0 && e[i - 1] == '\\'
      {
        if i >= |h| {
          assert Escape(s[1..])[i - |h|] == '"';
          if i - |h| == 0 {
            assert false;
          }
        }
      }
    }
  }

  /** `json!({ key: text }).to_string()` */
  function SingleFieldObjectText(key: string, text: string): string {
    "{" + Quote(key) + ":" + Quote(text) + "}"
  }

  /** Text without characters that need escaping is written as it is. */
  lemma {:induction false} EscapePlain(s: string)
    requires forall i | 0 <= i < |s| :: s[i] != '"' && s[i] != '\\' && (s[i] as int) >= 0x20
    ensures Escape(s) == s
  {
    if |s| > 0 {
      EscapePlain(s[1..]);
      assert [s[0]] + s[1..] == s;
    }
  }
}
