/** The PCM 16-bit mono WAV codec and the editorial transforms on its samples. */
module Wav {
  import opened Common
  import opened Bytes

  const HEADER := 44

  /** ASCII text as bytes. */
  function Ascii(s: string): seq<byte>
    requires forall c :: c in s ==> c as int < 128
    ensures |Ascii(s)| == |s|
  {
    seq(|s|, i requires 0 <= i < |s| => assert s[i] in s; s[i] as int as byte)
  }

  const RIFF: seq<byte> := Ascii("RIFF")
  const WAVEFMT: seq<byte> := Ascii("WAVEfmt ")
  const DATA: seq<byte> := Ascii("data")

  function SampleBytes(samples: seq<int16>): seq<byte> {
    if samples == [] then [] else SampleBytes(samples[..|samples| - 1]) + I16LE(samples[|samples| - 1])
  }

  /** A 32-bit field keeps its value modulo 2^32. */
  function Field(n: nat): seq<byte> { U32LE(n % U32) }

  function Encode(samples: seq<int16>, sampleRate: nat): seq<byte> {
    RIFF + Field(36 + 2 * |samples|) + WAVEFMT + Field(16) + U16LE(1) + U16LE(1) + Field(sampleRate)
    + Field(sampleRate * 2) + U16LE(2) + U16LE(16) + DATA + Field(2 * |samples|) + SampleBytes(samples)
  }

  datatype Audio = Audio(samples: seq<int16>, sampleRate: nat)

  function Decode(bytes: seq<byte>): Option<Audio> {
    if |bytes| < HEADER || bytes[0..4] != RIFF || bytes[8..12] != Ascii("WAVE") then None
    else if ReadU16LE(bytes[20..22]) != 1 || ReadU16LE(bytes[22..24]) != 1 || ReadU16LE(bytes[34..36]) != 16 then None
    else
      var sampleBytes := ReadU32LE(bytes[40..44]);
      if HEADER + sampleBytes != |bytes| || sampleBytes % 2 != 0 then None
      else Some(Audio(SamplesFrom(bytes, sampleBytes / 2), ReadU32LE(bytes[24..28])))
  }

  function SamplesFrom(bytes: seq<byte>, n: nat): seq<int16>
    requires HEADER + 2 * n <= |bytes|
  {
    seq(n, i requires 0 <= i < n => SampleAt(bytes, i))
  }

  function SampleAt(bytes: seq<byte>, i: nat): int16
    requires HEADER + 2 * i + 2 <= |bytes|
  {
    ReadI16LE(bytes[HEADER + 2 * i..HEADER + 2 * i + 2])
  }

  /** Exactly which files decode, and to what: each sample from its own two bytes, and the rate. */
  lemma DecodeExactly(bytes: seq<byte>)
    ensures Decode(bytes).Some? <==>
              && |bytes| >= 44 && bytes[0..4] == Ascii("RIFF") && bytes[8..12] == Ascii("WAVE")
              && ReadU16LE(bytes[20..22]) == 1 && ReadU16LE(bytes[22..24]) == 1 && ReadU16LE(bytes[34..36]) == 16
              && exists n: nat :: ReadU32LE(bytes[40..44]) == 2 * n && |bytes| == 44 + 2 * n
    ensures Decode(bytes).Some? ==>
              && 2 * |Decode(bytes).value.samples| + 44 == |bytes|
              && Decode(bytes).value.sampleRate == ReadU32LE(bytes[24..28])
              && forall i :: 0 <= i < |Decode(bytes).value.samples| ==>
                   Decode(bytes).value.samples[i] == ReadI16LE(bytes[44 + 2 * i..46 + 2 * i])
  {
    if Decode(bytes).Some? {
      var n := ReadU32LE(bytes[40..44]) / 2;
      assert ReadU32LE(bytes[40..44]) == 2 * n;
    }
  }

  // ------------------------------------------------------------ round trip

  lemma {:induction false} SampleBytesAt(samples: seq<int16>)
    ensures |SampleBytes(samples)| == 2 * |samples|
    ensures forall i :: 0 <= i < |samples| ==> SampleBytes(samples)[2 * i..2 * i + 2] == I16LE(samples[i])
  {
    if samples != [] {
      var n := |samples| - 1;
      SampleBytesAt(samples[..n]);
      I16RoundTrip(samples[n]);
      forall i | 0 <= i < |samples| ensures SampleBytes(samples)[2 * i..2 * i + 2] == I16LE(samples[i]) {
        if i < n {
          SliceOfPrefix(SampleBytes(samples[..n]), I16LE(samples[n]), 2 * i);
          assert samples[..n][i] == samples[i];
        } else {
          SliceOfRest(SampleBytes(samples[..n]), I16LE(samples[n]));
        }
      }
    }
  }

  lemma SliceOfRest(a: seq<byte>, b: seq<byte>)
    ensures (a + b)[|a|..|a| + |b|] == b
  {
  }

  lemma SliceOfPrefix(a: seq<byte>, b: seq<byte>, i: nat)
    requires i + 2 <= |a|
    ensures (a + b)[i..i + 2] == a[i..i + 2]
  {
  }

  /** What a reader finds in a file: the tags, the format, the fields modulo 2^32 and the data chunk. */
  predicate LaidOut(b: seq<byte>, n: nat, sampleRate: nat, data: seq<byte>) {
    && |b| == HEADER + 2 * n
    && b[0..4] == RIFF && b[8..12] == Ascii("WAVE")
    && ReadU16LE(b[20..22]) == 1 && ReadU16LE(b[22..24]) == 1 && ReadU16LE(b[34..36]) == 16
    && ReadU32LE(b[24..28]) == sampleRate % U32 && ReadU32LE(b[40..44]) == 2 * n % U32
    && b[HEADER..] == data
  }

  lemma LayOut(samples: seq<int16>, sampleRate: nat)
    ensures LaidOut(Encode(samples, sampleRate), |samples|, sampleRate, SampleBytes(samples))
  {
    SampleBytesAt(samples);
    var fixed := Header(|samples|, sampleRate);
    HeaderLayOut(|samples|, sampleRate);
    FieldsReadBack(|samples|, sampleRate);
    Extend(fixed, SampleBytes(samples));
    assert Encode(samples, sampleRate) == fixed + SampleBytes(samples);
  }

  lemma Extend(fixed: seq<byte>, data: seq<byte>)
    requires |fixed| == HEADER
    ensures var b := fixed + data;
            && b[0..4] == fixed[0..4] && b[8..12] == fixed[8..12] && b[20..22] == fixed[20..22] && b[22..24] == fixed[22..24]
            && b[24..28] == fixed[24..28] && b[34..36] == fixed[34..36] && b[40..44] == fixed[40..44] && b[HEADER..] == data
  {
  }

  function Header(n: nat, sampleRate: nat): seq<byte> {
    HeaderOf(Field(36 + 2 * n), Field(sampleRate), Field(sampleRate * 2), Field(2 * n))
  }

  function HeaderOf(size: seq<byte>, rate: seq<byte>, byteRate: seq<byte>, length: seq<byte>): seq<byte> {
    HeadOf(size) + rate + byteRate + U16LE(2) + U16LE(16) + DATA + length
  }

  function HeadOf(size: seq<byte>): seq<byte> { RIFF + size + WAVEFMT + Field(16) + U16LE(1) + U16LE(1) }

  lemma HeadLayOut(size: seq<byte>)
    requires |size| == 4
    ensures var h := HeadOf(size);
            |h| == 24 && h[0..4] == RIFF && h[8..12] == Ascii("WAVE") && h[20..22] == U16LE(1) && h[22..24] == U16LE(1)
  {
    assert WAVEFMT[0..4] == Ascii("WAVE");
  }

  lemma TailLayOut(head: seq<byte>, rate: seq<byte>, byteRate: seq<byte>, length: seq<byte>)
    requires |head| == 24 && |rate| == |byteRate| == |length| == 4
    ensures var h := head + rate + byteRate + U16LE(2) + U16LE(16) + DATA + length;
            && |h| == HEADER && h[..24] == head
            && h[24..28] == rate && h[34..36] == U16LE(16) && h[40..44] == length
  {
  }

  lemma HeaderLayOut(n: nat, sampleRate: nat)
    ensures var h := Header(n, sampleRate);
            && |h| == HEADER && h[0..4] == RIFF && h[8..12] == Ascii("WAVE")
            && h[20..22] == U16LE(1) && h[22..24] == U16LE(1) && h[34..36] == U16LE(16)
            && h[24..28] == Field(sampleRate) && h[40..44] == Field(2 * n)
  {
    var head := HeadOf(Field(36 + 2 * n));
    HeadLayOut(Field(36 + 2 * n));
    TailLayOut(head, Field(sampleRate), Field(sampleRate * 2), Field(2 * n));
    var h := Header(n, sampleRate);
    assert h[0..4] == h[..24][0..4] && h[8..12] == h[..24][8..12] && h[20..22] == h[..24][20..22] && h[22..24] == h[..24][22..24];
  }

  /** What decoding finds in such a file. */
  lemma DecodeLaidOut(b: seq<byte>, n: nat, sampleRate: nat, data: seq<byte>)
    requires LaidOut(b, n, sampleRate, data)
    ensures 2 * n % U32 != 2 * n ==> Decode(b) == None
    ensures 2 * n % U32 == 2 * n ==> Decode(b) == Some(Audio(SamplesFrom(b, n), sampleRate % U32))
  {
  }

  /** Every field of a written file, at its offset. */
  lemma FieldsOfFile(samples: seq<int16>, sampleRate: nat)
    ensures var b, n := Encode(samples, sampleRate), |samples|;
            && |b| == 44 + 2 * n
            && b[0..4] == Ascii("RIFF") && b[4..8] == Field(36 + 2 * n) && b[8..16] == Ascii("WAVEfmt ") && b[16..20] == Field(16)
            && b[20..22] == U16LE(1) && b[22..24] == U16LE(1) && b[24..28] == Field(sampleRate) && b[28..32] == Field(2 * sampleRate)
            && b[32..34] == U16LE(2) && b[34..36] == U16LE(16) && b[36..40] == Ascii("data") && b[40..44] == Field(2 * n)
            && forall i :: 0 <= i < n ==> b[44 + 2 * i..46 + 2 * i] == I16LE(samples[i])
  {
    var n := |samples|;
    SampleBytesAt(samples);
    var h := Header(n, sampleRate);
    HeaderFields(n, sampleRate);
    var b := Encode(samples, sampleRate);
    assert b == h + SampleBytes(samples);
    assert b[..44] == h && b[44..] == SampleBytes(samples);
    forall i | 0 <= i < n ensures b[44 + 2 * i..46 + 2 * i] == I16LE(samples[i]) {
      assert b[44 + 2 * i..46 + 2 * i] == b[44..][2 * i..2 * i + 2];
    }
    HeadOfFile(b, h);
  }

  lemma HeadOfFile(b: seq<byte>, h: seq<byte>)
    requires |h| == 44 <= |b| && b[..44] == h
    ensures forall i, j :: 0 <= i <= j <= 44 ==> b[i..j] == h[i..j]
  {
    forall i, j | 0 <= i <= j <= 44 ensures b[i..j] == h[i..j] { assert b[i..j] == b[..44][i..j]; }
  }

  lemma HeaderFields(n: nat, sampleRate: nat)
    ensures var h := Header(n, sampleRate);
            && |h| == 44
            && h[0..4] == Ascii("RIFF") && h[4..8] == Field(36 + 2 * n) && h[8..16] == Ascii("WAVEfmt ") && h[16..20] == Field(16)
            && h[20..22] == U16LE(1) && h[22..24] == U16LE(1) && h[24..28] == Field(sampleRate) && h[28..32] == Field(2 * sampleRate)
            && h[32..34] == U16LE(2) && h[34..36] == U16LE(16) && h[36..40] == Ascii("data") && h[40..44] == Field(2 * n)
  {
    var head := HeadOf(Field(36 + 2 * n));
    HeadLayOut(Field(36 + 2 * n));
    HeadFields(Field(36 + 2 * n));
    TailFields(head, Field(sampleRate), Field(sampleRate * 2), Field(2 * n));
    HeadOfHead(Header(n, sampleRate), head);
  }

  lemma HeadOfHead(h: seq<byte>, head: seq<byte>)
    requires |head| == 24 <= |h| && h[..24] == head
    ensures forall i, j :: 0 <= i <= j <= 24 ==> h[i..j] == head[i..j]
  {
    forall i, j | 0 <= i <= j <= 24 ensures h[i..j] == head[i..j] { assert h[i..j] == h[..24][i..j]; }
  }

  lemma HeadFields(size: seq<byte>)
    requires |size| == 4
    ensures var h := HeadOf(size);
            && |h| == 24 && h[0..4] == Ascii("RIFF") && h[4..8] == size && h[8..16] == Ascii("WAVEfmt ") && h[16..20] == Field(16)
            && h[20..22] == U16LE(1) && h[22..24] == U16LE(1)
  {
  }

  lemma TailFields(head: seq<byte>, rate: seq<byte>, byteRate: seq<byte>, length: seq<byte>)
    requires |head| == 24 && |rate| == |byteRate| == |length| == 4
    ensures var h := head + rate + byteRate + U16LE(2) + U16LE(16) + DATA + length;
            && |h| == 44 && h[..24] == head && h[24..28] == rate && h[28..32] == byteRate
            && h[32..34] == U16LE(2) && h[34..36] == U16LE(16) && h[36..40] == Ascii("data") && h[40..44] == length
  {
  }

  lemma FieldsReadBack(n: nat, sampleRate: nat)
    ensures ReadU32LE(Field(sampleRate)) == sampleRate % U32 && ReadU32LE(Field(2 * n)) == 2 * n % U32
    ensures ReadU16LE(U16LE(1)) == 1 && ReadU16LE(U16LE(16)) == 16
  {
    U32RoundTrip(sampleRate % U32);
    U32RoundTrip(2 * n % U32);
  }

  lemma SamplesComeBack(b: seq<byte>, samples: seq<int16>)
    requires |b| == HEADER + 2 * |samples| && b[HEADER..] == SampleBytes(samples)
    ensures SamplesFrom(b, |samples|) == samples
  {
    SampleBytesAt(samples);
    forall i | 0 <= i < |samples| ensures SampleAt(b, i) == samples[i] {
      assert b[HEADER + 2 * i..HEADER + 2 * i + 2] == b[HEADER..][2 * i..2 * i + 2];
      I16RoundTrip(samples[i]);
    }
  }

  /** Decoding inverts encoding exactly when the byte count and the rate fit their 32-bit fields. */
  lemma DecodeInvertsEncode(samples: seq<int16>, sampleRate: nat)
    ensures Decode(Encode(samples, sampleRate)) == Some(Audio(samples, sampleRate))
       <==> 2 * |samples| < U32 && sampleRate < U32
  {
    var b, n := Encode(samples, sampleRate), |samples|;
    LayOut(samples, sampleRate);
    DecodeLaidOut(b, n, sampleRate, SampleBytes(samples));
    SamplesComeBack(b, samples);
    FieldFits(2 * n);
    FieldFits(sampleRate);
  }

  lemma FieldFits(n: nat)
    ensures n % U32 == n <==> n < U32
  {
  }

  // ------------------------------------------------------------ the buffer

  method WriteAt(bytes: array<byte>, at: nat, src: seq<byte>, ghost before: seq<byte>) returns (ghost after: seq<byte>)
    requires at + |src| <= bytes.Length && bytes[..at] == before
    modifies bytes
    ensures after == before + src && bytes[..at + |src|] == after
  {
    for i := 0 to |src|
      invariant bytes[..at + i] == before + src[..i]
    {
      bytes[at + i] := src[i];
      assert bytes[..at + i + 1] == before + src[..i + 1];
    }
    assert src[..|src|] == src;
    after := before + src;
  }

  /** Fails exactly when the engine has no buffer that long. */
  method EncodePcm16MonoWav(samples: seq<int16>, sampleRate: nat, capacity: nat) returns (r: Option<array<byte>>)
    ensures r.Some? <==> HEADER + 2 * |samples| <= capacity
    ensures r.Some? ==> fresh(r.value) && r.value[..] == Encode(samples, sampleRate)
  {
    if HEADER + |samples| * 2 > capacity { return None; }
    var bytes := new byte[HEADER + |samples| * 2](_ => 0);
    WriteHeader(bytes, |samples|, sampleRate);
    ghost var header := bytes[..HEADER];
    for i := 0 to |samples|
      invariant bytes[..HEADER + 2 * i] == header + SampleBytes(samples[..i])
    {
      SampleBytesStep(samples, i);
      ghost var written := WriteAt(bytes, HEADER + i * 2, I16LE(samples[i]), bytes[..HEADER + 2 * i]);
      Associate(header, SampleBytes(samples[..i]), I16LE(samples[i]));
    }
    assert samples[..|samples|] == samples && bytes[..bytes.Length] == bytes[..];
    r := Some(bytes);
  }

  lemma Associate(a: seq<byte>, b: seq<byte>, c: seq<byte>)
    ensures a + b + c == a + (b + c)
  {
  }

  lemma SampleBytesStep(samples: seq<int16>, i: nat)
    requires i < |samples|
    ensures SampleBytes(samples[..i + 1]) == SampleBytes(samples[..i]) + I16LE(samples[i])
  {
    assert samples[..i + 1][..i] == samples[..i];
  }

  method WriteHeader(bytes: array<byte>, n: nat, sampleRate: nat)
    requires bytes.Length == HEADER + n * 2
    modifies bytes
    ensures bytes[..HEADER] == Header(n, sampleRate)
  {
    WriteFields(bytes, Field(bytes.Length - 8), Field(sampleRate), Field(sampleRate * 2), Field(n * 2));
  }

  method WriteFields(bytes: array<byte>, size: seq<byte>, rate: seq<byte>, byteRate: seq<byte>, length: seq<byte>)
    requires bytes.Length >= HEADER && |size| == |rate| == |byteRate| == |length| == 4
    modifies bytes
    ensures bytes[..HEADER] == HeaderOf(size, rate, byteRate, length)
  {
    WriteHead(bytes, size);
    HeadLayOut(size);
    ghost var w := WriteThree(bytes, 24, rate, byteRate, U16LE(2), HeadOf(size));
    w := WriteThree(bytes, 34, U16LE(16), DATA, length, w);
  }

  method WriteHead(bytes: array<byte>, size: seq<byte>)
    requires bytes.Length >= HEADER && |size| == 4
    modifies bytes
    ensures bytes[..24] == HeadOf(size)
  {
    ghost var w := WriteAt(bytes, 0, RIFF, []);
    w := WriteThree(bytes, 4, size, WAVEFMT, Field(16), w);
    w := WriteAt(bytes, 20, U16LE(1), w);
    w := WriteAt(bytes, 22, U16LE(1), w);
  }

  method WriteThree(bytes: array<byte>, at: nat, a: seq<byte>, b: seq<byte>, c: seq<byte>, ghost before: seq<byte>)
    returns (ghost after: seq<byte>)
    requires at + |a| + |b| + |c| <= bytes.Length && bytes[..at] == before
    modifies bytes
    ensures after == before + a + b + c && bytes[..at + |a| + |b| + |c|] == after
  {
    after := WriteAt(bytes, at, a, before);
    after := WriteAt(bytes, at + |a|, b, after);
    after := WriteAt(bytes, at + |a| + |b|, c, after);
  }

  method DecodePcm16MonoWav(bytes: seq<byte>) returns (audio: Option<Audio>)
    ensures audio == Decode(bytes)
  {
    if |bytes| < HEADER || bytes[0..4] != RIFF || bytes[8..12] != Ascii("WAVE") { return None; }
    if ReadU16LE(bytes[20..22]) != 1 || ReadU16LE(bytes[22..24]) != 1 || ReadU16LE(bytes[34..36]) != 16 { return None; }
    var sampleBytes := ReadU32LE(bytes[40..44]);
    if HEADER + sampleBytes != |bytes| || sampleBytes % 2 != 0 { return None; }
    var samples: seq<int16> := [];
    for i := 0 to sampleBytes / 2
      invariant samples == SamplesFrom(bytes, i)
    {
      samples := samples + [SampleAt(bytes, i)];
    }
    audio := Some(Audio(samples, ReadU32LE(bytes[24..28])));
  }

  // ------------------------------------------------------------- transforms

  datatype Kind = Identity | TimeWarp | Backwards

  /** A rate as a ratio of positive integers. */
  datatype Placement = Placement(kind: Kind, numerator: int, denominator: int)

  predicate Positive(p: Placement) { p.numerator > 0 && p.denominator > 0 }

  /** The ratios the source accepts. */
  predicate SafeRatio(p: Placement) {
    0 < p.numerator <= MAX_SAFE_INTEGER && 0 < p.denominator <= MAX_SAFE_INTEGER
  }

  /** Round half up of samples / rate, and at least one. */
  function OutputLength(n: nat, p: Placement): nat
    requires Positive(p)
  {
    var rounded := (2 * n * p.denominator + p.numerator) / (2 * p.numerator);
    if rounded < 1 then 1 else rounded
  }

  /** The length is the quotient of samples and rate, rounded to the nearest, half up, and at least one. */
  lemma OutputLengthRounds(n: nat, p: Placement)
    requires Positive(p)
    ensures var k := OutputLength(n, p);
            && k >= 1
            && 2 * n * p.denominator < 2 * k * p.numerator + p.numerator
            && (k > 1 ==> 2 * k * p.numerator - p.numerator <= 2 * n * p.denominator)
  {
    var total := 2 * n * p.denominator + p.numerator;
    var rounded := total / (2 * p.numerator);
    RoundsDown(total, 2 * p.numerator);
    assert rounded * (2 * p.numerator) == 2 * rounded * p.numerator;
    if rounded < 1 { assert 2 * n * p.denominator + p.numerator < 2 * p.numerator; }
  }

  lemma RoundsDown(total: int, unit: int)
    requires unit > 0
    ensures total / unit * unit <= total < total / unit * unit + unit
  {
  }

  /** The source index is the sample position rounded down, at most the last one, and counted from the end in reverse. */
  lemma SourceIndexRounds(i: nat, n: nat, p: Placement)
    requires Positive(p) && n > 0
    ensures exists k: nat ::
              && k * p.denominator <= i * p.numerator < k * p.denominator + p.denominator
              && SourceIndex(i, n, p) == (if p.kind.Backwards? then n - 1 - Lesser(k, n - 1) else Lesser(k, n - 1))
  {
    var k := i * p.numerator / p.denominator;
    SourceIndexInRange(i, n, p);
    assert i * p.numerator >= 0;
    RoundsDown(i * p.numerator, p.denominator);
    assert k >= 0;
  }

  function Lesser(a: int, b: int): int { if a < b then a else b }

  function SourceIndex(i: nat, n: nat, p: Placement): int
    requires Positive(p)
  {
    var position := i * p.numerator / p.denominator;
    var offset := if position < n - 1 then position else n - 1;
    if p.kind.Backwards? then n - offset - 1 else offset
  }

  /** Scaling by 1/32767 and back, clamped to one: only -32768 changes. */
  function Clamp(s: int16): int16 { if s == -0x8000 then -0x7fff else s }

  /** One output sample; reading past empty audio yields zero. */
  function OutputSample(samples: seq<int16>, p: Placement, i: nat): int16
    requires Positive(p)
  {
    var at := SourceIndex(i, |samples|, p);
    if 0 <= at < |samples| then Clamp(samples[at]) else 0
  }

  function Transform(samples: seq<int16>, p: Placement): seq<int16>
    requires Positive(p)
  {
    seq(OutputLength(|samples|, p), i requires 0 <= i => OutputSample(samples, p, i))
  }

  /** For non-empty audio every source index is in range, whatever the ratio. */
  lemma SourceIndexInRange(i: nat, n: nat, p: Placement)
    requires Positive(p) && n > 0
    ensures 0 <= SourceIndex(i, n, p) < n
  {
    assert i * p.numerator >= 0;
    assert i * p.numerator / p.denominator >= 0;
  }

  /** The rounded position in the source, `k`, and the sample read for it. */
  ghost predicate ReadsAt(n: nat, p: Placement, i: nat, at: nat, k: nat)
    requires Positive(p)
  {
    && k * p.denominator <= i * p.numerator < k * p.denominator + p.denominator
    && at < n && at == (if p.kind.Backwards? then n - 1 - Lesser(k, n - 1) else Lesser(k, n - 1))
  }

  predicate Raised(s: int16, t: int16) { t as int == if s as int < -32767 then -32767 else s as int }

  /** Every sample of an edit is the one at its own place in the source, with -32768 raised; of empty audio it is a silent one. */
  lemma SamplesComeFromTheirPlaces(samples: seq<int16>, p: Placement, i: nat)
    requires Positive(p) && i < OutputLength(|samples|, p)
    ensures |Transform(samples, p)| == OutputLength(|samples|, p)
    ensures samples == [] ==> OutputLength(0, p) == 1 && Transform(samples, p)[i] == 0
    ensures samples != [] ==> exists at: nat, k: nat :: ReadsAt(|samples|, p, i, at, k) && Raised(samples[at], Transform(samples, p)[i])
  {
    if samples == [] {
      EmptyLength(p);
    } else {
      SourceIndexInRange(i, |samples|, p);
      SourceIndexRounds(i, |samples|, p);
      var k: nat :| k * p.denominator <= i * p.numerator < k * p.denominator + p.denominator
        && SourceIndex(i, |samples|, p)
           == (if p.kind.Backwards? then |samples| - 1 - Lesser(k, |samples| - 1) else Lesser(k, |samples| - 1));
      assert ReadsAt(|samples|, p, i, SourceIndex(i, |samples|, p), k);
    }
  }

  lemma EmptyLength(p: Placement)
    requires Positive(p)
    ensures OutputLength(0, p) == 1
  {
    RoundsDown(p.numerator, 2 * p.numerator);
  }

  /** What an edit makes of a file. */
  function Edit(source: seq<byte>, p: Placement): Option<seq<byte>>
    requires Positive(p)
  {
    if Decode(source).None? then None
    else Some(Encode(Transform(Decode(source).value.samples, p), Decode(source).value.sampleRate))
  }

  /** `capacity` is the greatest length in bytes that the engine gives a buffer. */
  method TransformToneWav(source: seq<byte>, p: Placement, capacity: nat) returns (r: Option<array<byte>>)
    ensures r.Some? <==>
              && Decode(source).Some?
              && 1 <= p.numerator <= 0x1f_ffff_ffff_ffff && 1 <= p.denominator <= 0x1f_ffff_ffff_ffff
              && 44 + 2 * OutputLength(|Decode(source).value.samples|, p) <= capacity
    ensures r.Some? ==> fresh(r.value) && Some(r.value[..]) == Edit(source, p)
  {
    var audio := DecodePcm16MonoWav(source);
    if audio.None? || !SafeRatio(p) { return None; }
    var samples := audio.value.samples;
    if 2 * OutputLength(|samples|, p) > capacity { return None; }
    var output := new int16[OutputLength(|samples|, p)](_ => 0);
    for index := 0 to output.Length
      invariant forall k :: 0 <= k < index ==> output[k] == OutputSample(samples, p, k)
    {
      output[index] := OutputSample(samples, p, index);
    }
    assert output[..] == Transform(samples, p);
    r := EncodePcm16MonoWav(output[..], audio.value.sampleRate, capacity);
  }

  // ----------------------------------------------------- edits that undo edits

  function Clamped(samples: seq<int16>): seq<int16> {
    seq(|samples|, i requires 0 <= i < |samples| => Clamp(samples[i]))
  }

  const HALF_SPEED := Placement(TimeWarp, 1, 2)
  const DOUBLE_SPEED := Placement(TimeWarp, 2, 1)
  const REVERSED := Placement(Backwards, 1, 1)

  /** Half speed and then double speed gives the samples back, with -32768 raised to -32767. */
  lemma HalfThenDouble(samples: seq<int16>)
    requires samples != []
    ensures Transform(Transform(samples, HALF_SPEED), DOUBLE_SPEED) == Clamped(samples)
  {
    var n := |samples|;
    var slow := Transform(samples, HALF_SPEED);
    assert |slow| == 2 * n;
    assert OutputLength(2 * n, DOUBLE_SPEED) == n;
    forall i | 0 <= i < n ensures OutputSample(slow, DOUBLE_SPEED, i) == Clamp(samples[i]) {
      assert SourceIndex(i, 2 * n, DOUBLE_SPEED) == 2 * i;
      assert SourceIndex(2 * i, n, HALF_SPEED) == i;
      assert slow[2 * i] == Clamp(samples[i]);
    }
  }

  /** Reversing twice gives the samples back, with -32768 raised to -32767. */
  lemma ReverseTwice(samples: seq<int16>)
    requires samples != []
    ensures Transform(Transform(samples, REVERSED), REVERSED) == Clamped(samples)
  {
    var n := |samples|;
    var back := Transform(samples, REVERSED);
    assert |back| == n;
    forall i | 0 <= i < n ensures OutputSample(back, REVERSED, i) == Clamp(samples[i]) {
      assert SourceIndex(i, n, REVERSED) == n - 1 - i && SourceIndex(n - 1 - i, n, REVERSED) == i;
      assert back[n - 1 - i] == Clamp(samples[i]);
    }
  }

  /** Editing a written file edits its samples, exactly when their byte count fits its field, whatever the rate. */
  lemma EditOfEncode(samples: seq<int16>, sampleRate: nat, p: Placement)
    requires Positive(p)
    ensures Edit(Encode(samples, sampleRate), p)
         == if 2 * |samples| < U32 then Some(Encode(Transform(samples, p), sampleRate)) else None
  {
    var b, n := Encode(samples, sampleRate), |samples|;
    LayOut(samples, sampleRate);
    DecodeLaidOut(b, n, sampleRate, SampleBytes(samples));
    SamplesComeBack(b, samples);
    FieldFits(2 * n);
    RateWraps(Transform(samples, p), sampleRate);
  }

  /** A file holds its rate modulo 2^32 only. */
  lemma RateWraps(samples: seq<int16>, sampleRate: nat)
    ensures Encode(samples, sampleRate % U32) == Encode(samples, sampleRate)
  {
    RateFieldsWrap(sampleRate);
  }

  lemma RateFieldsWrap(n: nat)
    ensures Field(n % U32) == Field(n) && Field(n % U32 * 2) == Field(n * 2)
  {
    TwiceWraps(n / U32, n % U32);
    assert n == U32 * (n / U32) + n % U32;
  }

  lemma TwiceWraps(k: int, r: int)
    ensures 2 * r % U32 == 2 * (U32 * k + r) % U32
  {
    assert 2 * (U32 * k + r) == 2 * r + U32 * (2 * k);
  }

  /**
    The same through the files: a file edited to half speed and then, read again, to
    double speed is the file of the clamped samples, exactly when the byte count of the
    slow one fits its field.
  */
  lemma FilesComeBack(samples: seq<int16>, sampleRate: nat)
    requires samples != []
    ensures (var slow := Edit(Encode(samples, sampleRate), HALF_SPEED);
             slow.Some? && Edit(slow.value, DOUBLE_SPEED) == Some(Encode(Clamped(samples), sampleRate)))
       <==> 4 * |samples| < U32
  {
    HalfThenDouble(samples);
    assert |Transform(samples, HALF_SPEED)| == 2 * |samples|;
    EditOfEncode(samples, sampleRate, HALF_SPEED);
    EditOfEncode(Transform(samples, HALF_SPEED), sampleRate, DOUBLE_SPEED);
  }

  /** A file reversed twice is the file of the clamped samples, exactly when its byte count fits its field. */
  lemma ReversedFilesComeBack(samples: seq<int16>, sampleRate: nat)
    requires samples != []
    ensures (var back := Edit(Encode(samples, sampleRate), REVERSED);
             back.Some? && Edit(back.value, REVERSED) == Some(Encode(Clamped(samples), sampleRate)))
       <==> 2 * |samples| < U32
  {
    ReverseTwice(samples);
    assert |Transform(samples, REVERSED)| == |samples|;
    EditOfEncode(samples, sampleRate, REVERSED);
    EditOfEncode(Transform(samples, REVERSED), sampleRate, REVERSED);
  }
}
