/** The UTF-8 view of Rust strings. A Rust `String` is a UTF-8 byte sequence;
    here a string is a sequence of Unicode scalar values and `Encode` gives
    its bytes. `len()`, byte slicing, `as_bytes().chunks(n)` and
    `str::from_utf8` are stated on that encoding. */
module Utf8 {
  import opened Text

  type Byte = U8

  function EncodeChar(c: char): (b: seq<Byte>)
    ensures 1 <= |b| <= 4
  {
    var n := c as int;
    if n < 0x80 then [n]
    else if n < 0x800 then [0xC0 + n / 64, 0x80 + n % 64]
    else if n < 0x10000 then [0xE0 + n / 4096, 0x80 + (n / 64) % 64, 0x80 + n % 64]
    else [0xF0 + n / 262144, 0x80 + (n / 4096) % 64, 0x80 + (n / 64) % 64, 0x80 + n % 64]
  }

  function Width(c: char): nat {
    |EncodeChar(c)|
  }

  function Encode(s: string): seq<Byte> {
    if |s| == 0 then [] else EncodeChar(s[0]) + Encode(s[1..])
  }

  /** `String::len`: the length in bytes. */
  function ByteLen(s: string): nat {
    |Encode(s)|
  }

  lemma {:induction false} EncodeConcat(a: string, b: string)
    ensures Encode(a + b) == Encode(a) + Encode(b)
  {
    if |a| > 0 {
      assert (a + b)[1..] == a[1..] + b;
      EncodeConcat(a[1..], b);
    } else {
      assert a + b == b;
    }
  }

  lemma {:induction false} EncodeAscii(s: string)
    requires forall i | 0 <= i < |s| :: (s[i] as int) < 0x80
    ensures |Encode(s)| == |s|
    ensures forall i | 0 <= i < |s| :: Encode(s)[i] == s[i] as int
  {
    if |s| > 0 {
      EncodeAscii(s[1..]);
    }
  }

  predicate Cont(b: Byte) {
    0x80 <= b <= 0xBF
  }

  /** The length of the well-formed character that starts `b` (Unicode,
      table 3-7 of chapter 3), or 0 when `b` does not start with one. */
  function FirstWidth(b: seq<Byte>): (w: nat)
    requires |b| > 0
    ensures w <= 4 && w <= |b|
  {
    var b0 := b[0];
    if b0 < 0x80 then 1
    else if 0xC2 <= b0 <= 0xDF then
      (if |b| >= 2 && Cont(b[1]) then 2 else 0)
    else if 0xE0 <= b0 <= 0xEF then
      var lo := if b0 == 0xE0 then 0xA0 else 0x80;
      var hi := if b0 == 0xED then 0x9F else 0xBF;
      (if |b| >= 3 && lo <= b[1] <= hi && Cont(b[2]) then 3 else 0)
    else if 0xF0 <= b0 <= 0xF4 then
      var lo := if b0 == 0xF0 then 0x90 else 0x80;
      var hi := if b0 == 0xF4 then 0x8F else 0xBF;
      (if |b| >= 4 && lo <= b[1] <= hi && Cont(b[2]) && Cont(b[3]) then 4 else 0)
    else 0
  }

  /** `str::from_utf8(b).is_ok()` */
  predicate Valid(b: seq<Byte>)
    decreases |b|
  {
    |b| == 0 || (FirstWidth(b) > 0 && Valid(b[FirstWidth(b)..]))
  }

  lemma EncodeCharFirst(c: char, rest: seq<Byte>)
    ensures FirstWidth(EncodeChar(c) + rest) == Width(c)
  {
  }

  /** Every string's encoding is well-formed UTF-8. */
  lemma {:induction false} EncodeValid(s: string)
    ensures Valid(Encode(s))
  {
    if |s| > 0 {
      var b := Encode(s);
      EncodeCharFirst(s[0], Encode(s[1..]));
      assert b[Width(s[0])..] == Encode(s[1..]);
      EncodeValid(s[1..]);
    }
  }

  /** A byte sequence that starts with a continuation byte is not UTF-8. */
  lemma LeadingContinuationInvalid(b: seq<Byte>)
    requires |b| > 0 && Cont(b[0])
    ensures !Valid(b)
  {
  }

  function Flatten<T>(ss: seq<seq<T>>): seq<T> {
    if |ss| == 0 then [] else ss[0] + Flatten(ss[1..])
  }

  /** `slice.chunks(n)`: consecutive pieces of `n` elements, the last one
      possibly shorter; no piece for an empty slice. */
  function Chunks<T>(b: seq<T>, n: nat): (r: seq<seq<T>>)
    requires n > 0
    ensures forall i | 0 <= i < |r| :: 0 < |r[i]| <= n
    ensures forall i | 0 <= i < |r| - 1 :: |r[i]| == n
    ensures Flatten(r) == b
    decreases |b|
  {
    if |b| == 0 then []
    else if |b| <= n then [b]
    else
      var rest := Chunks(b[n..], n);
      assert Flatten([b[..n]] + rest) == b[..n] + Flatten(rest);
      [b[..n]] + rest
  }

  /** Byte offset `k` of `s` falls between two characters (or at an end):
      Rust's `is_char_boundary`. */
  predicate IsCharBoundary(s: string, k: nat)
    decreases |s|
  {
    k == 0 || (|s| > 0 && Width(s[0]) <= k && IsCharBoundary(s[1..], k - Width(s[0])))
  }

  lemma {:induction false} BoundaryWithin(s: string, k: nat)
    requires IsCharBoundary(s, k)
    ensures k <= ByteLen(s)
  {
    if k > 0 {
      BoundaryWithin(s[1..], k - Width(s[0]));
    }
  }

  /** `&s[..k]` for a boundary `k`: the prefix of `s` holding its first `k` bytes. */
  function PrefixBytes(s: string, k: nat): (r: string)
    requires IsCharBoundary(s, k)
    ensures |r| <= |s| && r == s[..|r|]
    ensures k <= ByteLen(s) && Encode(r) == Encode(s)[..k]
    decreases |s|
  {
    BoundaryWithin(s, k);
    if k == 0 then ""
    else
      var rest := PrefixBytes(s[1..], k - Width(s[0]));
      assert Encode(s) == EncodeChar(s[0]) + Encode(s[1..]);
      EncodeConcat([s[0]], rest);
      assert [s[0]] + rest == s[..1 + |rest|];
      [s[0]] + rest
  }

  /** The longest prefix of `s` whose encoding has at most `k` bytes. */
  function FloorPrefix(s: string, k: nat): (r: string)
    ensures |r| <= |s| && r == s[..|r|]
    ensures ByteLen(r) <= k
    ensures |r| < |s| ==> ByteLen(r) + Width(s[|r|]) > k
    ensures IsCharBoundary(s, k) ==> r == PrefixBytes(s, k)
    decreases |s|
  {
    if |s| == 0 || Width(s[0]) > k then ""
    else
      var rest := FloorPrefix(s[1..], k - Width(s[0]));
      EncodeConcat([s[0]], rest);
      assert Encode([s[0]]) == EncodeChar(s[0]);
      assert [s[0]] + rest == s[..1 + |rest|];
      [s[0]] + rest
  }

  /** A string that fits in `k` bytes is its own longest prefix within `k` bytes. */
  lemma {:induction false} FloorPrefixWhole(s: string, k: nat)
    requires ByteLen(s) <= k
    ensures FloorPrefix(s, k) == s
    decreases |s|
  {
    if |s| > 0 {
      assert Encode(s) == EncodeChar(s[0]) + Encode(s[1..]);
      FloorPrefixWhole(s[1..], k - Width(s[0]));
      assert [s[0]] + s[1..] == s;
    }
  }

  /** A boundary of `p + q` past all of `p` is a boundary of `q`. */
  lemma {:induction false} BoundaryShift(p: string, q: string, m: nat)
    requires IsCharBoundary(p + q, ByteLen(p) + m)
    ensures IsCharBoundary(q, m)
    decreases |p|
  {
    if |p| == 0 {
      assert p + q == q;
    } else {
      assert (p + q)[0] == p[0] && (p + q)[1..] == p[1..] + q;
      assert Encode(p) == EncodeChar(p[0]) + Encode(p[1..]);
      BoundaryShift(p[1..], q, m);
    }
  }
}
