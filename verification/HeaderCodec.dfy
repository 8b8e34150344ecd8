/** Eighty-byte block headers: the v2 routes write them, the fixture chain reads them. */
module HeaderCodec {
  import opened Common
  import opened Bytes

  datatype Header = Header(version: int, previousHash: string, merkleRoot: string, time: int, bits: int, nonce: int)

  const HEADER_BYTES := 80

  // ----------------------------------------------------------------- hex

  function HexDigit(c: char): Option<int> {
    if '0' <= c <= '9' then Some(c as int - '0' as int)
    else if 'a' <= c <= 'f' then Some(c as int - 'a' as int + 10)
    else if 'A' <= c <= 'F' then Some(c as int - 'A' as int + 10)
    else None
  }

  predicate IsPair(c: char, e: char) { HexDigit(c).Some? && HexDigit(e).Some? }

  function PairByte(c: char, e: char): byte
    requires IsPair(c, e)
  {
    var n := 16 * HexDigit(c).value + HexDigit(e).value;
    assert 0 <= n < 256;
    n as byte
  }

  /** Decoding stops at the first pair that is not hexadecimal. */
  function FromHex(s: string): seq<byte> {
    if |s| < 2 || !IsPair(s[0], s[1]) then [] else [PairByte(s[0], s[1])] + FromHex(s[2..])
  }

  function Digit(n: int): char
    requires 0 <= n < 16
  {
    "0123456789abcdef"[n]
  }

  function ToHex(bytes: seq<byte>): string {
    if bytes == [] then [] else [Digit(bytes[0] as int / 16), Digit(bytes[0] as int % 16)] + ToHex(bytes[1..])
  }

  function Lower(c: char): char { if 'A' <= c <= 'F' then (c as int + 32) as char else c }

  function LowerCase(s: string): string { if s == [] then [] else [Lower(s[0])] + LowerCase(s[1..]) }

  /** An even number of hexadecimal digits. */
  predicate IsHex(s: string) {
    s == [] || (|s| >= 2 && IsPair(s[0], s[1]) && IsHex(s[2..]))
  }

  lemma {:induction false} HexRoundTrip(s: string)
    requires IsHex(s)
    ensures 2 * |FromHex(s)| == |s| && ToHex(FromHex(s)) == LowerCase(s)
  {
    if s != [] {
      var rest := s[2..];
      HexRoundTrip(rest);
      PairRoundTrip(s[0], s[1]);
      LowerPair(s);
      ToHexCons(PairByte(s[0], s[1]), FromHex(rest));
    }
  }

  const DIGITS := "0123456789abcdef"
  const CAPITALS := "0123456789ABCDEF"

  /** The sixteen digits have their values, in either case. */
  lemma DigitValues(n: nat)
    requires n < 16
    ensures HexDigit(DIGITS[n]) == Some(n) && HexDigit(CAPITALS[n]) == Some(n) && Digit(n) == DIGITS[n]
  {
  }

  /** Each byte is the value of its two digits, the first one the higher. */
  lemma {:induction false} BytesOfHex(s: string, i: nat)
    requires IsHex(s) && 2 * i + 1 < |s|
    ensures |FromHex(s)| * 2 == |s| && HexDigit(s[2 * i]).Some? && HexDigit(s[2 * i + 1]).Some?
    ensures FromHex(s)[i] as int == 16 * HexDigit(s[2 * i]).value + HexDigit(s[2 * i + 1]).value
  {
    HexRoundTrip(s);
    if i > 0 {
      HexRoundTrip(s[2..]);
      BytesOfHex(s[2..], i - 1);
      assert FromHex(s) == [PairByte(s[0], s[1])] + FromHex(s[2..]);
    }
  }

  /** Decoding reads the longest beginning of whole digit pairs and nothing after it. */
  lemma {:induction false} DecodingStops(s: string)
    ensures var n := |FromHex(s)|;
            && 2 * n <= |s| && IsHex(s[..2 * n]) && FromHex(s[..2 * n]) == FromHex(s)
            && (2 * n + 2 <= |s| ==> !IsPair(s[2 * n], s[2 * n + 1]))
  {
    if |s| >= 2 && IsPair(s[0], s[1]) {
      var n := |FromHex(s[2..])|;
      DecodingStops(s[2..]);
      assert s[..2 * n + 2][2..] == s[2..][..2 * n];
    }
  }

  lemma {:induction false} BytesRoundTrip(bytes: seq<byte>)
    ensures IsHex(ToHex(bytes)) && FromHex(ToHex(bytes)) == bytes && |ToHex(bytes)| == 2 * |bytes|
    ensures LowerCase(ToHex(bytes)) == ToHex(bytes)
  {
    if bytes != [] {
      BytesRoundTrip(bytes[1..]);
      var n := bytes[0] as int;
      DigitValues(n / 16);
      DigitValues(n % 16);
      LowerPair(ToHex(bytes));
      assert ToHex(bytes)[2..] == ToHex(bytes[1..]);
    }
  }

  lemma LowerPair(s: string)
    requires |s| >= 2
    ensures LowerCase(s) == [Lower(s[0]), Lower(s[1])] + LowerCase(s[2..])
  {
  }

  lemma ToHexCons(b: byte, bytes: seq<byte>)
    ensures ToHex([b] + bytes) == [Digit(b as int / 16), Digit(b as int % 16)] + ToHex(bytes)
  {
  }

  lemma PairRoundTrip(c: char, e: char)
    requires IsPair(c, e)
    ensures Digit(PairByte(c, e) as int / 16) == Lower(c) && Digit(PairByte(c, e) as int % 16) == Lower(e)
  {
    DigitOfHexDigit(c);
    DigitOfHexDigit(e);
    var a, b := HexDigit(c).value, HexDigit(e).value;
    SplitPair(a, b);
    assert PairByte(c, e) as int == 16 * a + b;
  }

  lemma SplitPair(a: int, b: int)
    requires 0 <= b < 16
    ensures (16 * a + b) / 16 == a && (16 * a + b) % 16 == b
  {
  }

  lemma DigitOfHexDigit(c: char)
    requires HexDigit(c).Some?
    ensures 0 <= HexDigit(c).value < 16 && Digit(HexDigit(c).value) == Lower(c)
  {
  }

  function Reverse(s: seq<byte>): (r: seq<byte>)
    ensures |r| == |s| && forall i :: 0 <= i < |s| ==> r[i] == s[|s| - 1 - i]
  {
    if s == [] then [] else Reverse(s[1..]) + [s[0]]
  }

  lemma ReverseTwice(s: seq<byte>)
    ensures Reverse(Reverse(s)) == s
  {
  }

  // -------------------------------------------------------------- encoding

  /** What a copy at an offset leaves in a buffer; it stops at the buffer's end. */
  function Overlay(buf: seq<byte>, src: seq<byte>, at: nat): seq<byte>
    requires at <= |buf|
  {
    var n := if at + |src| <= |buf| then |src| else |buf| - at;
    buf[..at] + src[..n] + buf[at + n..]
  }

  lemma OverlayAt(buf: seq<byte>, src: seq<byte>, at: nat, k: nat)
    requires at <= |buf| && k < |buf|
    ensures |Overlay(buf, src, at)| == |buf|
    ensures Overlay(buf, src, at)[k] == if at <= k < at + |src| then src[k - at] else buf[k]
  {
  }

  predicate Writable(h: Header) { IsU32(h.version) && IsU32(h.time) && IsU32(h.bits) && IsU32(h.nonce) }

  function HeaderBytes(h: Header): seq<byte>
    requires Writable(h)
  {
    var b0 := Overlay(seq(HEADER_BYTES, _ => 0), U32LE(h.version), 0);
    var b1 := Overlay(b0, Reverse(FromHex(h.previousHash)), 4);
    var b2 := Overlay(b1, Reverse(FromHex(h.merkleRoot)), 36);
    var b3 := Overlay(b2, U32LE(h.time), 68);
    var b4 := Overlay(b3, U32LE(h.bits), 72);
    Overlay(b4, U32LE(h.nonce), 76)
  }

  method CopyInto(buf: array<byte>, src: seq<byte>, at: nat)
    requires at <= buf.Length
    modifies buf
    ensures buf[..] == old(Overlay(buf[..], src, at))
  {
    var n := if at + |src| <= buf.Length then |src| else buf.Length - at;
    for i := 0 to n
      invariant forall k :: 0 <= k < buf.Length ==>
        buf[k] == if at <= k < at + i then src[k - at] else old(buf[k])
    {
      buf[at + i] := src[i];
    }
  }

  /** The buffer is filled in place, field by field; a field outside u32 is a range error. */
  method HeaderToBytes(h: Header) returns (r: Result<array<byte>, ()>)
    ensures r.Success? <==> Writable(h)
    ensures r.Success? ==> fresh(r.value) && r.value[..] == HeaderBytes(h)
  {
    if !IsU32(h.version) || !IsU32(h.time) || !IsU32(h.bits) || !IsU32(h.nonce) { return Failure(()); }
    var buf := new byte[80](_ => 0);
    assert buf[..] == seq(HEADER_BYTES, _ => 0);
    CopyInto(buf, U32LE(h.version), 0);
    CopyInto(buf, Reverse(FromHex(h.previousHash)), 4);
    CopyInto(buf, Reverse(FromHex(h.merkleRoot)), 36);
    CopyInto(buf, U32LE(h.time), 68);
    CopyInto(buf, U32LE(h.bits), 72);
    CopyInto(buf, U32LE(h.nonce), 76);
    r := Success(buf);
  }

  // -------------------------------------------------------------- decoding

  /** The fields as the fixture chain reads them; hashes are byte-reversed back for display. */
  function Decode(bytes: seq<byte>): Option<Header> {
    if |bytes| != HEADER_BYTES then None
    else Some(Header(ReadU32LE(bytes[0..4]), ToHex(Reverse(bytes[4..36])), ToHex(Reverse(bytes[36..68])),
                     ReadU32LE(bytes[68..72]), ReadU32LE(bytes[72..76]), ReadU32LE(bytes[76..80])))
  }

  predicate WellFormed(h: Header) {
    Writable(h) && IsHex(h.previousHash) && |h.previousHash| == 64 && IsHex(h.merkleRoot) && |h.merkleRoot| == 64
  }

  lemma HeaderBytesLength(h: Header)
    requires Writable(h)
    ensures |HeaderBytes(h)| == HEADER_BYTES
  {
  }

  lemma LayOut(h: Header)
    requires WellFormed(h)
    ensures HeaderBytes(h)
         == U32LE(h.version) + Reverse(FromHex(h.previousHash)) + Reverse(FromHex(h.merkleRoot))
            + U32LE(h.time) + U32LE(h.bits) + U32LE(h.nonce)
  {
    HexRoundTrip(h.previousHash);
    HexRoundTrip(h.merkleRoot);
  }

  /** Where the fields of a written header are: the hashes in reverse byte order, all integers little-endian. */
  lemma FieldOffsets(h: Header)
    requires WellFormed(h)
    ensures LiesAt(HeaderBytes(h), U32LE(h.version), Reverse(FromHex(h.previousHash)), Reverse(FromHex(h.merkleRoot)),
                   U32LE(h.time), U32LE(h.bits), U32LE(h.nonce))
  {
    LayOut(h);
    HexRoundTrip(h.previousHash);
    HexRoundTrip(h.merkleRoot);
    SixFields(U32LE(h.version), Reverse(FromHex(h.previousHash)), Reverse(FromHex(h.merkleRoot)),
              U32LE(h.time), U32LE(h.bits), U32LE(h.nonce));
  }

  /** Version, the two hashes, time, bits and nonce at their offsets. */
  predicate LiesAt(s: seq<byte>, v: seq<byte>, p: seq<byte>, m: seq<byte>, t: seq<byte>, b: seq<byte>, n: seq<byte>) {
    && |s| == 80 && |p| == 32 == |m|
    && s[0..4] == v && s[4..36] == p && s[36..68] == m && s[68..72] == t && s[72..76] == b && s[76..80] == n
  }

  lemma SixFields(v: seq<byte>, p: seq<byte>, m: seq<byte>, t: seq<byte>, b: seq<byte>, n: seq<byte>)
    requires |v| == |t| == |b| == |n| == 4 && |p| == |m| == 32
    ensures LiesAt(v + p + m + t + b + n, v, p, m, t, b, n)
  {
  }

  /** The header with its hashes in lower case. */
  function Normal(h: Header): Header {
    h.(previousHash := LowerCase(h.previousHash), merkleRoot := LowerCase(h.merkleRoot))
  }

  /** Decoding inverts encoding, up to the case of the hexadecimal digits. */
  lemma DecodeInvertsEncode(h: Header)
    requires WellFormed(h)
    ensures Decode(HeaderBytes(h)) == Some(Normal(h))
  {
    LayOut(h);
    HexRoundTrip(h.previousHash);
    HexRoundTrip(h.merkleRoot);
    U32RoundTrip(h.version);
    U32RoundTrip(h.time);
    U32RoundTrip(h.bits);
    U32RoundTrip(h.nonce);
    var b := HeaderBytes(h);
    assert b[0..4] == U32LE(h.version);
    assert b[4..36] == Reverse(FromHex(h.previousHash));
    assert b[36..68] == Reverse(FromHex(h.merkleRoot));
    assert b[68..72] == U32LE(h.time) && b[72..76] == U32LE(h.bits) && b[76..80] == U32LE(h.nonce);
    ReverseTwice(FromHex(h.previousHash));
    ReverseTwice(FromHex(h.merkleRoot));
  }

  /** Encoding inverts decoding on every eighty bytes, and nothing else decodes. */
  lemma EncodeInvertsDecode(bytes: seq<byte>)
    ensures Decode(bytes).Some? <==> |bytes| == HEADER_BYTES
    ensures Decode(bytes).Some? ==> WellFormed(Decode(bytes).value) && HeaderBytes(Decode(bytes).value) == bytes
  {
    if |bytes| == HEADER_BYTES {
      var h := Decode(bytes).value;
      HashDecodes(bytes[4..36]);
      HashDecodes(bytes[36..68]);
      U32Decodes(bytes[0..4]);
      U32Decodes(bytes[68..72]);
      U32Decodes(bytes[72..76]);
      U32Decodes(bytes[76..80]);
      LayOut(h);
      SixParts(bytes);
    }
  }

  lemma HashDecodes(hash: seq<byte>)
    requires |hash| == 32
    ensures var s := ToHex(Reverse(hash)); IsHex(s) && |s| == 64 && Reverse(FromHex(s)) == hash
  {
    BytesRoundTrip(Reverse(hash));
    ReverseTwice(hash);
  }

  lemma SixParts(s: seq<byte>)
    requires |s| == HEADER_BYTES
    ensures s[0..4] + s[4..36] + s[36..68] + s[68..72] + s[72..76] + s[76..80] == s
  {
  }

  // ---------------------------------------------------------------- ranges

  /** The first offset without a header, or `count`. */
  ghost predicate RangeEnd(chain: map<nat, Header>, height: nat, count: nat, n: nat) {
    && n <= count
    && (forall k :: height <= k < height + n ==> k in chain)
    && (n < count ==> height + n !in chain)
  }

  function Slice(r: seq<byte>, i: nat): seq<byte>
    requires HEADER_BYTES * (i + 1) <= |r|
  {
    r[HEADER_BYTES * i..HEADER_BYTES * (i + 1)]
  }

  /** Slice i holds the header at the height plus i, and decodes to it when its hashes are well formed. */
  ghost predicate Holds(r: seq<byte>, i: nat, h: Header) {
    && HEADER_BYTES * (i + 1) <= |r| && Writable(h)
    && Slice(r, i) == HeaderBytes(h)
    && (WellFormed(h) ==> Decode(Slice(r, i)) == Some(Normal(h)))
  }

  lemma AppendHolds(r: seq<byte>, n: nat, h: Header)
    requires |r| == HEADER_BYTES * n && Writable(h)
    ensures Holds(r + HeaderBytes(h), n, h)
    ensures forall i, g :: 0 <= i < n && Holds(r, i, g) ==> Holds(r + HeaderBytes(h), i, g)
  {
    HeaderBytesLength(h);
    var longer := r + HeaderBytes(h);
    assert Slice(longer, n) == HeaderBytes(h);
    if WellFormed(h) { DecodeInvertsEncode(h); }
    forall i, g | 0 <= i < n && Holds(r, i, g) ensures Holds(longer, i, g) {
      assert HEADER_BYTES * (i + 1) <= |r|;
      assert Slice(longer, i) == Slice(r, i);
    }
  }

  /** The response so far: eighty bytes for each of the first `n` headers from the height. */
  ghost predicate HoldsAll(chain: map<nat, Header>, height: nat, body: seq<byte>, n: nat) {
    && |body| == HEADER_BYTES * n
    && forall k :: height <= k < height + n ==> k in chain && Holds(body, k - height, chain[k])
  }

  lemma AppendHoldsAll(chain: map<nat, Header>, height: nat, body: seq<byte>, n: nat)
    requires HoldsAll(chain, height, body, n) && height + n in chain && Writable(chain[height + n])
    ensures HoldsAll(chain, height, body + HeaderBytes(chain[height + n]), n + 1)
  {
    HeaderBytesLength(chain[height + n]);
    AppendHolds(body, n, chain[height + n]);
  }

  /**
    The range loop. The response holds eighty bytes for each header, in order, up to
    the first missing height; it fails only on a header with a field outside u32.
  */
  method HeadersRange(chain: map<nat, Header>, height: nat, count: nat) returns (r: Result<seq<byte>, ()>, headerCount: nat)
    ensures r.Success? ==>
              && RangeEnd(chain, height, count, headerCount)
              && |r.value| == HEADER_BYTES * headerCount
              && forall k :: height <= k < height + headerCount ==> Holds(r.value, k - height, chain[k])
    ensures r.Failure? ==> exists k :: height <= k < height + count && k in chain && !Writable(chain[k])
  {
    var body: seq<byte> := [];
    headerCount := 0;
    for i := 0 to count
      invariant headerCount == i && HoldsAll(chain, height, body, i)
    {
      if height + i !in chain { break; }
      var header := HeaderToBytes(chain[height + i]);
      if header.Failure? { return Failure(()), headerCount; }
      AppendHoldsAll(chain, height, body, i);
      body := body + header.value[..];
      headerCount := headerCount + 1;
    }
    r := Success(body);
  }
}
