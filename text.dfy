/** Text primitives the Rust code gets from its standard library: the fixed
    width integers, `Display` of unsigned integers, `str::parse::<u64>`,
    `starts_with`, `trim`, `Vec<String>::join` and `str::split`. */
module Text {
  import opened Wrappers

  const U64_MAX: int := 0xFFFF_FFFF_FFFF_FFFF

  type U8 = x: int | 0 <= x < 0x100
  type U16 = x: int | 0 <= x < 0x1_0000
  type U32 = x: int | 0 <= x < 0x1_0000_0000
  type U64 = x: int | 0 <= x <= U64_MAX

  predicate IsDigit(c: char) {
    '0' <= c <= '9'
  }

  function DigitChar(d: nat): (c: char)
    requires d < 10
    ensures IsDigit(c) && DigitValue(c) == d
  {
    (('0' as int) + d) as char
  }

  function DigitValue(c: char): nat
    requires IsDigit(c)
  {
    (c as int) - ('0' as int)
  }

  predicate AllDigits(s: string) {
    forall i | 0 <= i < |s| :: IsDigit(s[i])
  }

  /** `Display` of an unsigned integer (ids, counts): decimal digits, no sign,
      no leading zero except for zero itself. */
  function Decimal(n: nat): (s: string)
    ensures |s| >= 1 && AllDigits(s)
    ensures s[0] == '0' ==> n == 0
  {
    if n < 10 then [DigitChar(n)] else Decimal(n / 10) + [DigitChar(n % 10)]
  }

  /** The value of a non-empty string of decimal digits. */
  function DigitsValue(s: string): nat
    requires |s| >= 1 && AllDigits(s)
  {
    if |s| == 1 then DigitValue(s[0])
    else DigitsValue(s[..|s| - 1]) * 10 + DigitValue(s[|s| - 1])
  }

  /** `s.parse::<u64>()`: one optional leading '+', then at least one ASCII
      digit and nothing else; the value must fit in 64 bits. */
  function ParseU64(s: string): (r: Option<U64>)
    ensures r.Some? ==> |s| >= 1
  {
    if |s| == 0 then None
    else
      var digits := if s[0] == '+' then s[1..] else s;
      if |digits| == 0 || !AllDigits(digits) then None
      else if DigitsValue(digits) <= U64_MAX then Some(DigitsValue(digits))
      else None
  }

  lemma {:induction false} DecimalValue(n: nat)
    ensures DigitsValue(Decimal(n)) == n
  {
    if n >= 10 {
      var s := Decimal(n);
      assert s[..|s| - 1] == Decimal(n / 10);
      DecimalValue(n / 10);
    }
  }

  /** Parsing the decimal rendering of a u64 gives the number back. */
  lemma ParseDecimal(n: U64)
    ensures ParseU64(Decimal(n)) == Some(n)
  {
    DecimalValue(n);
  }

  /** What `parse::<u64>` accepts, stated without the parser's own steps. */
  lemma ParseU64Accepts(s: string)
    ensures ParseU64(s).Some? <==>
      exists k: nat | k <= 1 && k < |s| ::
        (k == 1 ==> s[0] == '+') && AllDigits(s[k..]) && DigitsValue(s[k..]) <= U64_MAX
  {
    if ParseU64(s).Some? {
      var k := if s[0] == '+' then 1 else 0;
      assert (k == 1 ==> s[0] == '+') && AllDigits(s[k..]) && DigitsValue(s[k..]) <= U64_MAX;
    }
  }

  lemma PlusSignAccepted(n: U64)
    ensures ParseU64("+" + Decimal(n)) == Some(n)
  {
    var s := "+" + Decimal(n);
    assert s[1..] == Decimal(n);
    DecimalValue(n);
  }

  predicate StartsWith(s: string, prefix: string) {
    |prefix| <= |s| && s[..|prefix|] == prefix
  }

  /** `char::is_whitespace`: the Unicode White_Space property. */
  predicate IsWhitespace(c: char) {
    var n := c as int;
    (9 <= n <= 13) || n == 0x20 || n == 0x85 || n == 0xA0 || n == 0x1680
    || (0x2000 <= n <= 0x200A) || n == 0x2028 || n == 0x2029 || n == 0x202F
    || n == 0x205F || n == 0x3000
  }

  /** Number of leading whitespace characters. */
  function LeadingSpace(s: string): (n: nat)
    ensures n <= |s|
    ensures forall i | 0 <= i < n :: IsWhitespace(s[i])
    ensures n < |s| ==> !IsWhitespace(s[n])
  {
    if |s| > 0 && IsWhitespace(s[0]) then 1 + LeadingSpace(s[1..]) else 0
  }

  /** Number of trailing whitespace characters. */
  function TrailingSpace(s: string): (n: nat)
    ensures n <= |s|
    ensures forall i | |s| - n <= i < |s| :: IsWhitespace(s[i])
    ensures n < |s| ==> !IsWhitespace(s[|s| - n - 1])
  {
    if |s| > 0 && IsWhitespace(s[|s| - 1]) then 1 + TrailingSpace(s[..|s| - 1]) else 0
  }

  /** `str::trim`: the longest infix of `s` that neither starts nor ends
      with whitespace, everything cut off being whitespace. */
  function Trim(s: string): (r: string)
    ensures |r| <= |s|
    ensures r == [] <==> forall i | 0 <= i < |s| :: IsWhitespace(s[i])
    ensures r != [] ==> !IsWhitespace(r[0]) && !IsWhitespace(r[|r| - 1])
    ensures LeadingSpace(s) + |r| <= |s|
    ensures r == s[LeadingSpace(s)..LeadingSpace(s) + |r|]
    ensures forall k | LeadingSpace(s) + |r| <= k < |s| :: IsWhitespace(s[k])
  {
    var a := LeadingSpace(s);
    var t := s[a..];
    var r := t[..|t| - TrailingSpace(t)];
    assert r == s[a..a + |r|];
    r
  }

  /** `Vec<String>::join(sep)`. */
  function Join(parts: seq<string>, sep: string): string {
    if |parts| == 0 then ""
    else if |parts| == 1 then parts[0]
    else parts[0] + sep + Join(parts[1..], sep)
  }

  /** `str::split(c)`, collected: always at least one piece. */
  function Split(s: string, c: char): (r: seq<string>)
    ensures |r| >= 1
  {
    if |s| == 0 then [""]
    else if s[0] == c then [""] + Split(s[1..], c)
    else
      var rest := Split(s[1..], c);
      [[s[0]] + rest[0]] + rest[1..]
  }

  lemma {:induction false} SplitHead(x: string, c: char, y: string)
    requires c !in x
    ensures Split(x + [c] + y, c) == [x] + Split(y, c)
    ensures Split(x, c) == [x]
  {
    if |x| > 0 {
      assert (x + [c] + y)[1..] == x[1..] + [c] + y;
      SplitHead(x[1..], c, y);
      assert [x[0]] + x[1..] == x;
    } else {
      assert x + [c] + y == [c] + y;
    }
  }

  /** Splitting a `join` on its one-character separator gives the parts
      back, provided no part contains the separator. */
  lemma {:induction false} SplitJoin(parts: seq<string>, c: char)
    requires |parts| >= 1
    requires forall i | 0 <= i < |parts| :: c !in parts[i]
    ensures Split(Join(parts, [c]), c) == parts
  {
    if |parts| == 1 {
      SplitHead(parts[0], c, "");
    } else {
      SplitJoin(parts[1..], c);
      SplitHead(parts[0], c, Join(parts[1..], [c]));
    }
  }
}
