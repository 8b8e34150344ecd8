/** Little-endian integers in byte sequences, as the binary codecs lay them out. */
module Bytes {

  newtype byte = x: int | 0 <= x < 256

  const U32: int := 0x1_0000_0000

  predicate IsU32(n: int) { 0 <= n < U32 }

  function U32LE(n: int): seq<byte>
    requires IsU32(n)
  {
    [(n % 256) as byte, (n / 256 % 256) as byte, (n / 65536 % 256) as byte, (n / 16777216) as byte]
  }

  function ReadU32LE(s: seq<byte>): int
    requires |s| == 4
  {
    s[0] as int + 256 * (s[1] as int) + 65536 * (s[2] as int) + 16777216 * (s[3] as int)
  }

  lemma U32RoundTrip(n: int)
    requires IsU32(n)
    ensures |U32LE(n)| == 4 && ReadU32LE(U32LE(n)) == n
  {
    assert n == 256 * (n / 256) + n % 256;
    assert n / 256 == 256 * (n / 256 / 256) + n / 256 % 256;
    assert n / 65536 == 256 * (n / 65536 / 256) + n / 65536 % 256;
    assert n / 256 / 256 == n / 65536 && n / 65536 / 256 == n / 16777216;
  }

  lemma U32Decodes(s: seq<byte>)
    requires |s| == 4
    ensures IsU32(ReadU32LE(s)) && U32LE(ReadU32LE(s)) == s
  {
    var a, b, c, d := s[0] as int, s[1] as int, s[2] as int, s[3] as int;
    var n := ReadU32LE(s);
    assert n == a + 256 * (b + 256 * (c + 256 * d));
    assert n % 256 == a && n / 256 == b + 256 * (c + 256 * d);
    assert n / 65536 == n / 256 / 256 == c + 256 * d && n / 16777216 == n / 65536 / 256 == d;
  }

  /** Little-endian: the first byte weighs one, and each next 256 times the one before. */
  lemma U32ByWeight(n: int, s: seq<byte>)
    requires IsU32(n) && |s| == 4
    ensures var b := U32LE(n);
            |b| == 4 && n == b[0] as int + 0x100 * (b[1] as int) + 0x1_0000 * (b[2] as int) + 0x100_0000 * (b[3] as int)
    ensures ReadU32LE(s) == s[0] as int + 0x100 * (s[1] as int) + 0x1_0000 * (s[2] as int) + 0x100_0000 * (s[3] as int)
  {
    U32RoundTrip(n);
  }

  // --------------------------------------------------------- sixteen bits

  const U16: int := 0x1_0000

  newtype int16 = x: int | -0x8000 <= x < 0x8000

  function U16LE(n: int): seq<byte>
    requires 0 <= n < U16
  {
    [(n % 256) as byte, (n / 256) as byte]
  }

  function ReadU16LE(s: seq<byte>): int
    requires |s| == 2
  {
    s[0] as int + 256 * (s[1] as int)
  }

  /** Two's complement. */
  function I16LE(x: int16): seq<byte> { U16LE(x as int % U16) }

  function ReadI16LE(s: seq<byte>): int16
    requires |s| == 2
  {
    var n := ReadU16LE(s);
    (if n < 0x8000 then n else n - U16) as int16
  }

  lemma I16ByWeight(x: int16, s: seq<byte>)
    requires |s| == 2
    ensures var b := I16LE(x);
            |b| == 2 && (if x < 0 then x as int + 0x1_0000 else x as int) == b[0] as int + 0x100 * (b[1] as int)
    ensures var n := s[0] as int + 0x100 * (s[1] as int);
            ReadU16LE(s) == n && ReadI16LE(s) as int == if s[1] as int < 0x80 then n else n - 0x1_0000
  {
    var n := x as int % U16;
    assert n == if x < 0 then x as int + U16 else x as int;
    assert n == 256 * (n / 256) + n % 256;
  }

  lemma I16RoundTrip(x: int16)
    ensures |I16LE(x)| == 2 && ReadI16LE(I16LE(x)) == x
  {
  }
}
