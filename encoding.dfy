/**
 * Byte-level and text-level encodings used around the hash function:
 * lowercase hexadecimal rendering of a digest, decimal rendering of
 * integers (Rust `to_string`/`format!("{}")`, Python `str(int)`),
 * lowercase hexadecimal numerals (`format!("{:x}", n)`), UTF-8 encoding of
 * strings (`str::as_bytes`, Python `str.encode()`) and the little-endian
 * byte encoding of a `u64` (`u64::to_le_bytes`).
 */
module Encoding {

  type Byte = b: int | 0 <= b < 256
  type u32 = x: int | 0 <= x < 0x1_0000_0000
  type u64 = x: int | 0 <= x < 0x1_0000_0000_0000_0000

  // ---------------------------------------------------------------------
  // Hexadecimal digits

  predicate IsLowerHexDigit(c: char) {
    '0' <= c <= '9' || 'a' <= c <= 'f'
  }

  /** Rust's `char::is_ascii_hexdigit`: both letter cases are accepted. */
  predicate IsAsciiHexDigit(c: char) {
    IsLowerHexDigit(c) || 'A' <= c <= 'F'
  }

  predicate IsLowerHex(s: string) {
    forall i :: 0 <= i < |s| ==> IsLowerHexDigit(s[i])
  }

  function HexDigit(v: nat): (c: char)
    requires v < 16
    ensures IsLowerHexDigit(c)
  {
    if v < 10 then ('0' as int + v) as char else ('a' as int + v - 10) as char
  }

  function HexValue(c: char): (v: nat)
    requires IsLowerHexDigit(c)
    ensures v < 16 && HexDigit(v) == c
  {
    if c <= '9' then c as int - '0' as int else c as int - 'a' as int + 10
  }

  lemma HexValueOfDigit(v: nat)
    requires v < 16
    ensures HexValue(HexDigit(v)) == v
  {
  }

  // ---------------------------------------------------------------------
  // Digest rendering: two lowercase hex digits per byte

  /** The `{:x}` rendering of a byte string, high nibble first. */
  function ToHex(bytes: seq<Byte>): (s: string)
    ensures |s| == 2 * |bytes|
    ensures IsLowerHex(s)
  {
    if bytes == [] then []
    else [HexDigit(bytes[0] / 16), HexDigit(bytes[0] % 16)] + ToHex(bytes[1..])
  }

  function FromHex(s: string): (bytes: seq<Byte>)
    requires |s| % 2 == 0 && IsLowerHex(s)
    ensures |bytes| == |s| / 2
  {
    if s == [] then []
    else [HexValue(s[0]) * 16 + HexValue(s[1])] + FromHex(s[2..])
  }

  /** Rendering loses nothing: the bytes can be read back. */
  lemma {:induction false} FromHexToHex(bytes: seq<Byte>)
    ensures FromHex(ToHex(bytes)) == bytes
  {
    if bytes != [] {
      var s := ToHex(bytes);
      assert s[2..] == ToHex(bytes[1..]);
      HexValueOfDigit(bytes[0] / 16);
      HexValueOfDigit(bytes[0] % 16);
      FromHexToHex(bytes[1..]);
    }
  }

  /** Every even-length lowercase hex string is the rendering of some bytes. */
  lemma {:induction false} ToHexFromHex(s: string)
    requires |s| % 2 == 0 && IsLowerHex(s)
    ensures ToHex(FromHex(s)) == s
  {
    if s != [] {
      var b := HexValue(s[0]) * 16 + HexValue(s[1]);
      assert b / 16 == HexValue(s[0]) && b % 16 == HexValue(s[1]);
      ToHexFromHex(s[2..]);
      assert s == [s[0], s[1]] + s[2..];
    }
  }

  // ---------------------------------------------------------------------
  // Decimal and hexadecimal numerals

  predicate IsDecimalDigit(c: char) {
    '0' <= c <= '9'
  }

  predicate IsDecimalString(s: string) {
    forall i :: 0 <= i < |s| ==> IsDecimalDigit(s[i])
  }

  function DigitChar(d: nat): (c: char)
    requires d < 10
    ensures IsDecimalDigit(c)
  {
    ('0' as int + d) as char
  }

  /** Decimal rendering of a non-negative integer, without leading zeros. */
  function Decimal(n: nat): (s: string)
    ensures 1 <= |s| && IsDecimalString(s)
    ensures s[0] == '0' <==> n == 0
    ensures s[0] == '0' ==> |s| == 1
    decreases n
  {
    if n < 10 then [DigitChar(n)] else Decimal(n / 10) + [DigitChar(n % 10)]
  }

  function ParseDecimal(s: string): nat
    requires IsDecimalString(s)
  {
    if s == [] then 0
    else ParseDecimal(s[..|s| - 1]) * 10 + (s[|s| - 1] as int - '0' as int)
  }

  /** Decimal rendering is injective: the number can be read back. */
  lemma {:induction false} ParseDecimalOfDecimal(n: nat)
    ensures ParseDecimal(Decimal(n)) == n
    decreases n
  {
    if n >= 10 {
      var s := Decimal(n);
      assert s[..|s| - 1] == Decimal(n / 10);
      ParseDecimalOfDecimal(n / 10);
    }
  }

  /** Python's `str(i)` for any integer: a minus sign before negative values. */
  function IntString(i: int): (s: string)
    ensures 1 <= |s|
    ensures i >= 0 ==> s == Decimal(i)
  {
    if i < 0 then "-" + Decimal(-i) else Decimal(i)
  }

  /** `format!("{:x}", n)`: lowercase hexadecimal without leading zeros. */
  function HexNumeral(n: nat): (s: string)
    ensures 1 <= |s| && IsLowerHex(s)
    ensures s[0] == '0' <==> n == 0
    decreases n
  {
    if n < 16 then [HexDigit(n)] else HexNumeral(n / 16) + [HexDigit(n % 16)]
  }

  /** The value of a lowercase hexadecimal numeral, most significant digit first. */
  function ParseHex(s: string): nat
    requires IsLowerHex(s)
  {
    if s == [] then 0
    else ParseHex(s[..|s| - 1]) * 16 + HexValue(s[|s| - 1])
  }

  /** The hexadecimal numeral denotes its number, so the hash chain's seed determines the input. */
  lemma {:induction false} ParseHexOfHexNumeral(n: nat)
    ensures ParseHex(HexNumeral(n)) == n
    decreases n
  {
    HexValueOfDigit(n % 16);
    if n >= 16 {
      var s := HexNumeral(n);
      assert s[..|s| - 1] == HexNumeral(n / 16);
      ParseHexOfHexNumeral(n / 16);
    }
  }

  // ---------------------------------------------------------------------
  // UTF-8

  predicate IsAscii(s: string) {
    forall i :: 0 <= i < |s| ==> s[i] as int < 0x80
  }

  /** The UTF-8 encoding of one Unicode scalar value: one to four bytes. */
  function Utf8Char(c: char): (b: seq<Byte>)
    ensures 1 <= |b| <= 4
    ensures |b| == 1 <==> c as int < 0x80
  {
    var v := c as int;
    if v < 0x80 then [v]
    else if v < 0x800 then [0xC0 + v / 64, 0x80 + v % 64]
    else if v < 0x1_0000 then [0xE0 + v / 4096, 0x80 + (v / 64) % 64, 0x80 + v % 64]
    else [0xF0 + v / 262144, 0x80 + (v / 4096) % 64, 0x80 + (v / 64) % 64, 0x80 + v % 64]
  }

  function Utf8(s: string): (b: seq<Byte>)
    ensures |b| >= |s|
    ensures |b| == 0 <==> s == []
  {
    if s == [] then [] else Utf8Char(s[0]) + Utf8(s[1..])
  }

  /** Encoding distributes over concatenation. */
  lemma {:induction false} Utf8Append(a: string, b: string)
    ensures Utf8(a + b) == Utf8(a) + Utf8(b)
  {
    if a == [] {
      assert a + b == b;
    } else {
      assert (a + b)[0] == a[0] && (a + b)[1..] == a[1..] + b;
      Utf8Append(a[1..], b);
    }
  }

  /** An ASCII string encodes to one byte per character, each its code point. */
  lemma {:induction false} Utf8Ascii(s: string)
    requires IsAscii(s)
    ensures |Utf8(s)| == |s|
    ensures forall i :: 0 <= i < |s| ==> Utf8(s)[i] == s[i] as int
  {
    if s != [] {
      Utf8Ascii(s[1..]);
    }
  }

  /** A string with a non-ASCII character needs more bytes than characters. */
  lemma {:induction false} Utf8NonAscii(s: string)
    requires !IsAscii(s)
    ensures |Utf8(s)| > |s|
  {
    if s[0] as int < 0x80 {
      assert !IsAscii(s[1..]) by {
        var i :| 0 <= i < |s| && s[i] as int >= 0x80;
        assert s[1..][i - 1] == s[i];
      }
      Utf8NonAscii(s[1..]);
    }
  }

  lemma LowerHexIsAscii(s: string)
    requires IsLowerHex(s)
    ensures IsAscii(s)
  {
  }

  // ---------------------------------------------------------------------
  // Little-endian integers

  function Pow256(k: nat): (p: nat)
    ensures p >= 1
  {
    if k == 0 then 1 else 256 * Pow256(k - 1)
  }

  /** The lowest `width` bytes of `v`, least significant first. */
  function LeBytes(v: nat, width: nat): (b: seq<Byte>)
    ensures |b| == width
  {
    if width == 0 then [] else [v % 256] + LeBytes(v / 256, width - 1)
  }

  function FromLeBytes(b: seq<Byte>): nat {
    if b == [] then 0 else b[0] + 256 * FromLeBytes(b[1..])
  }

  lemma {:induction false} LeBytesRoundTrip(v: nat, width: nat)
    requires v < Pow256(width)
    ensures FromLeBytes(LeBytes(v, width)) == v
  {
    if width > 0 {
      assert v / 256 < Pow256(width - 1);
      LeBytesRoundTrip(v / 256, width - 1);
    }
  }

  /** `u64::to_le_bytes`: eight bytes that read back to the value. */
  function U64ToLeBytes(v: u64): (b: seq<Byte>)
    ensures |b| == 8
    ensures FromLeBytes(b) == v
  {
    assert Pow256(8) == 0x1_0000_0000_0000_0000;
    LeBytesRoundTrip(v, 8);
    LeBytes(v, 8)
  }
}
