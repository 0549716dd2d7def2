/** Byte strings: big-endian integers and the UTF-8 form of text. */
module Bytes {
  import opened Wrappers

  type byte = x: int | 0 <= x < 256

  /** A SHA-256 digest. */
  type Digest32 = d: seq<byte> | |d| == 32 witness seq(32, _ => 0)

  const ZERO_HASH: Digest32 := BigEndian(0, 32)

  // ---------------------------------------------------------------- big endian

  function Pow256(width: nat): nat {
    if width == 0 then 1 else 256 * Pow256(width - 1)
  }

  /** The low `width` bytes of `value`, most significant first. */
  function BigEndian(value: nat, width: nat): (r: seq<byte>)
    ensures |r| == width
  {
    if width == 0 then [] else BigEndian(value / 256, width - 1) + [value % 256]
  }

  function FromBigEndian(b: seq<byte>): nat {
    if b == [] then 0 else FromBigEndian(b[..|b| - 1]) * 256 + b[|b| - 1]
  }

  lemma {:induction false} BigEndianRoundTrip(value: nat, width: nat)
    requires value < Pow256(width)
    ensures FromBigEndian(BigEndian(value, width)) == value
  {
    if width > 0 {
      var r := BigEndian(value, width);
      assert r[..|r| - 1] == BigEndian(value / 256, width - 1);
      BigEndianRoundTrip(value / 256, width - 1);
    }
  }

  lemma Pow256Values()
    ensures Pow256(4) == 0x1_0000_0000
    ensures Pow256(8) == 0x1_0000_0000_0000_0000
  {
    assert Pow256(1) == 256;
    assert Pow256(2) == 0x1_0000;
    assert Pow256(3) == 0x100_0000;
    assert Pow256(4) == 0x1_0000_0000;
    assert Pow256(5) == 0x100_0000_0000;
    assert Pow256(6) == 0x1_0000_0000_0000;
    assert Pow256(7) == 0x100_0000_0000_0000;
  }

  // --------------------------------------------------------------------- UTF-8

  function Utf8Char(c: char): (r: seq<byte>)
    ensures 1 <= |r| <= 4
  {
    var n := c as int;
    if n < 0x80 then [n]
    else if n < 0x800 then [0xC0 + n / 64, 0x80 + n % 64]
    else if n < 0x1_0000 then [0xE0 + n / 4096, 0x80 + n / 64 % 64, 0x80 + n % 64]
    else [0xF0 + n / 262144, 0x80 + n / 4096 % 64, 0x80 + n / 64 % 64, 0x80 + n % 64]
  }

  /** The bytes of a Rust `str`. */
  function Utf8(s: string): (r: seq<byte>)
    ensures |r| >= |s|
  {
    if s == "" then [] else Utf8Char(s[0]) + Utf8(s[1..])
  }

  /** How many bytes the character starting with `lead` takes; 0 when none starts so. */
  function LeadWidth(lead: byte): nat {
    if lead < 0x80 then 1
    else if 0xC0 <= lead < 0xE0 then 2
    else if 0xE0 <= lead < 0xF0 then 3
    else if 0xF0 <= lead < 0xF8 then 4
    else 0
  }

  function CodePoint(b: seq<byte>): int
    requires 1 <= |b| <= 4
  {
    var at := (i: nat) requires i < |b| => b[i] as int;
    if |b| == 1 then at(0)
    else if |b| == 2 then (at(0) - 0xC0) * 64 + (at(1) - 0x80)
    else if |b| == 3 then (at(0) - 0xE0) * 4096 + (at(1) - 0x80) * 64 + (at(2) - 0x80)
    else (at(0) - 0xF0) * 262144 + (at(1) - 0x80) * 4096 + (at(2) - 0x80) * 64 + (at(3) - 0x80)
  }

  predicate ScalarValue(n: int) {
    0 <= n < 0xD800 || 0xE000 <= n < 0x11_0000
  }

  function FromUtf8(b: seq<byte>): Option<string>
    decreases |b|
  {
    if b == [] then Some("")
    else
      var width := LeadWidth(b[0]);
      if width == 0 || width > |b| then None
      else
        var n := CodePoint(b[..width]);
        if !ScalarValue(n) then None
        else match FromUtf8(b[width..])
             case None => None
             case Some(rest) => Some([n as char] + rest)
  }

  lemma Utf8CharRoundTrip(c: char)
    ensures LeadWidth(Utf8Char(c)[0]) == |Utf8Char(c)|
    ensures CodePoint(Utf8Char(c)) == c as int
  {
    var n := c as int;
    assert n / 64 == n / 4096 * 64 + n / 64 % 64;
    assert n / 4096 == n / 262144 * 64 + n / 4096 % 64;
  }

  lemma {:induction false} Utf8RoundTrip(s: string)
    ensures FromUtf8(Utf8(s)) == Some(s)
  {
    if s != "" {
      var b := Utf8(s);
      var head := Utf8Char(s[0]);
      Utf8CharRoundTrip(s[0]);
      assert b[..|head|] == head && b[|head|..] == Utf8(s[1..]);
      Utf8RoundTrip(s[1..]);
      assert s == [s[0]] + s[1..];
    }
  }

  lemma Utf8Injective(a: string, b: string)
    requires Utf8(a) == Utf8(b)
    ensures a == b
  {
    Utf8RoundTrip(a);
    Utf8RoundTrip(b);
  }

  lemma {:induction false} Utf8Concat(a: string, b: string)
    ensures Utf8(a + b) == Utf8(a) + Utf8(b)
  {
    if a == "" {
      assert a + b == b;
    } else {
      assert (a + b)[1..] == a[1..] + b;
      Utf8Concat(a[1..], b);
    }
  }

  lemma {:induction false} AsciiLength(s: string)
    requires forall i | 0 <= i < |s| :: s[i] as int < 0x80
    ensures |Utf8(s)| == |s|
  {
    if s != "" {
      AsciiLength(s[1..]);
    }
  }

  // ------------------------------------------------------------ text predicates

  /** Unicode White_Space, which Rust's `trim` removes. */
  predicate IsWhitespace(c: char) {
    var n := c as int;
    || 9 <= n <= 13
    || n == 0x20 || n == 0x85 || n == 0xA0 || n == 0x1680
    || 0x2000 <= n <= 0x200A
    || n == 0x2028 || n == 0x2029 || n == 0x202F || n == 0x205F || n == 0x3000
  }

  /** Unicode general category Cc. */
  predicate IsControl(c: char) {
    var n := c as int;
    n < 0x20 || 0x7F <= n < 0xA0
  }

  /** `value.trim().is_empty()` */
  predicate Blank(s: string) {
    forall c | c in s :: IsWhitespace(c)
  }

  /** The pieces of `s` between occurrences of `c`. */
  function Split(s: string, c: char): (pieces: seq<string>)
    ensures |pieces| > 0
  {
    if s == "" then [""]
    else
      var rest := Split(s[1..], c);
      if s[0] == c then [""] + rest else [[s[0]] + rest[0]] + rest[1..]
  }
}
