/** WAV files: the writer of server/internal/app/dsp.go and the chunk walker and mono mix of
    server/internal/app/decoder_runner.go. */
module Wav {
  import opened Bytes
  import opened Wrappers

  const RIFF: seq<byte> := [82, 73, 70, 70]
  const WAVE: seq<byte> := [87, 65, 86, 69]
  const FMT: seq<byte> := [102, 109, 116, 32]
  const DATA: seq<byte> := [100, 97, 116, 97]

  // ---- chunks ----

  datatype Chunk = Chunk(id: seq<byte>, body: seq<byte>)

  predicate WellFormed(c: Chunk) { |c.id| == 4 && |c.body| < TWO_TO_THE_32 }

  // The bytes of a chunk; an odd body is followed by a padding byte.
  function Flat(c: Chunk): seq<byte> {
    c.id + U32(|c.body|) + c.body + (if |c.body| % 2 == 1 then [0] else [])
  }

  function FlatAll(cs: seq<Chunk>): seq<byte> {
    if |cs| == 0 then [] else Flat(cs[0]) + FlatAll(cs[1..])
  }

  // ---- the writer ----

  function FormatBody(rate: int): (r: seq<byte>)
    ensures |r| == 16
  {
    U16(1) + U16(1) + U32(rate) + U32(rate * 2) + U16(2) + U16(16)
  }

  // The header; sizes and rate are taken modulo 2^32.
  function MonoHeader(count: nat, rate: int): (r: seq<byte>)
    ensures |r| == 44
  {
    [] + Tag(RIFF) + U32(36 + 2 * count) + Tag(WAVE) + Tag(FMT) + U32(16) + U16(1) + U16(1) + U32(rate) + U32(rate * 2) + U16(2) + U16(16)
    + Tag(DATA) + U32(2 * count)
  }

  function MonoFile(samples: seq<int16>, rate: int): (r: seq<byte>)
    ensures |r| == 44 + 2 * |samples|
  {
    MonoHeader(|samples|, rate) + EncodeSamples(samples)
  }

  method Put(a: array<byte>, at: nat, bytes: seq<byte>)
    requires at + |bytes| <= a.Length
    modifies a
    ensures a[..at + |bytes|] == old(a[..at]) + bytes
  {
    for k := 0 to |bytes|
      invariant a[..at] == old(a[..at])
      invariant a[at..at + k] == bytes[..k]
    {
      a[at + k] := bytes[k];
      assert a[at..at + k + 1] == a[at..at + k] + [a[at + k]];
    }
    assert a[..at + |bytes|] == a[..at] + a[at..at + |bytes|];
  }

  // The chunk identifiers as fields of four bytes.
  function Tag(id: seq<byte>): (r: seq<byte>)
    requires |id| == 4
    ensures |r| == 4
  {
    id
  }

  method FillHeader(header: array<byte>, count: nat, rate: int)
    requires header.Length == 44
    modifies header
    ensures header[..] == MonoHeader(count, rate)
  {
    hide U16, U32, Tag;
    Put(header, 0, Tag(RIFF));
    Put(header, 4, U32(36 + 2 * count));
    Put(header, 8, Tag(WAVE));
    Put(header, 12, Tag(FMT));
    Put(header, 16, U32(16));
    Put(header, 20, U16(1));
    Put(header, 22, U16(1));
    Put(header, 24, U32(rate));
    Put(header, 28, U32(rate * 2));
    Put(header, 32, U16(2));
    Put(header, 34, U16(16));
    Put(header, 36, Tag(DATA));
    Put(header, 40, U32(2 * count));
    assert header[..0] == [];
    assert header[..] == header[..44];
  }

  /** WriteMonoWAV: refused for a rate that is not positive. */
  method WriteMonoWAV(samples: seq<int16>, sampleRate: int) returns (file: Option<seq<byte>>)
    ensures file == if sampleRate <= 0 then None else Some(MonoFile(samples, sampleRate))
    ensures file.Some? ==> |file.value| == 44 + 2 * |samples| && Canonical(file.value, |samples|, sampleRate)
    ensures file.Some? ==> forall k | 0 <= k < |samples| :: SampleAt(file.value, 44 + 2 * k) == samples[k]
  {
    hide MonoHeader, Canonical, MonoFile, SampleAt;
    if sampleRate > 0 { FileReads(samples, sampleRate); }
    if sampleRate <= 0 { return None; }
    var header := new byte[44];
    FillHeader(header, |samples|, sampleRate);
    file := Some(header[..] + EncodeSamples(samples));
    assert file.value == MonoFile(samples, sampleRate) by { FileIs(samples, sampleRate); }
  }

  lemma FileIs(samples: seq<int16>, rate: int)
    ensures MonoFile(samples, rate) == MonoHeader(|samples|, rate) + EncodeSamples(samples)
  {
  }

  // ---- the header as it reads ----

  /** The fields of the 44 bytes: one channel of 16 bits without compression, two bytes a frame and twice the rate a
      second, and the sizes of all that follows each of them; what takes more than 32 bits is cut off. */
  predicate Canonical(file: seq<byte>, count: nat, rate: int)
    requires |file| >= 44
  {
    && file[..4] == [82, 73, 70, 70] && file[8..12] == [87, 65, 86, 69]
    && file[12..16] == [102, 109, 116, 32] && file[36..40] == [100, 97, 116, 97]
    && ReadU32(file, 4) == (44 + 2 * count - 8) % 0x1_0000_0000 && ReadU32(file, 16) == 36 - 20
    && ReadU16(file, 20) == 1 && ReadU16(file, 22) == 1 && ReadU32(file, 24) == rate % 0x1_0000_0000
    && ReadU32(file, 28) == 2 * rate % 0x1_0000_0000 && ReadU16(file, 32) == 2 && ReadU16(file, 34) == 16
    && ReadU32(file, 40) == 2 * count % 0x1_0000_0000
  }

  // The part of a file that holds a field reads as the field.
  lemma FieldU32(file: seq<byte>, at: nat, v: int)
    requires at + 4 <= |file| && file[at..at + 4] == U32(v)
    ensures ReadU32(file, at) == v % TWO_TO_THE_32
  {
    hide U32, ReadU32;
    ReadsWithin(file, U32(v), at);
    ReadsBackU32(v);
  }

  lemma FieldU16(file: seq<byte>, at: nat, v: int)
    requires at + 2 <= |file| && file[at..at + 2] == U16(v)
    ensures ReadU16(file, at) == v % TWO_TO_THE_16
  {
    hide U16, ReadU16;
    ReadsWithin(file, U16(v), at);
    ReadsBackU16(v);
  }

  lemma HeaderFields(count: nat, rate: int)
    ensures var f := MonoHeader(count, rate);
            && f[..4] == RIFF && f[4..8] == U32(36 + 2 * count) && f[8..12] == WAVE && f[12..16] == FMT && f[16..20] == U32(16)
            && f[20..22] == U16(1) && f[22..24] == U16(1) && f[24..28] == U32(rate) && f[28..32] == U32(rate * 2)
            && f[32..34] == U16(2) && f[34..36] == U16(16) && f[36..40] == DATA && f[40..44] == U32(2 * count)
  {
    hide U16, U32, Tag;
    TagIs();
    var f := MonoHeader(count, rate);
    assert f[8..12] == Tag(WAVE) && f[12..16] == Tag(FMT) && f[36..40] == Tag(DATA) && f[..4] == Tag(RIFF);
  }

  lemma TagIs()
    ensures Tag(RIFF) == RIFF && Tag(WAVE) == WAVE && Tag(FMT) == FMT && Tag(DATA) == DATA
  {
  }

  lemma FrontOf(a: seq<byte>, b: seq<byte>)
    ensures forall i, j | 0 <= i <= j <= |a| :: (a + b)[i..j] == a[i..j]
  {
  }

  lemma HeaderReads(count: nat, rate: int, more: seq<byte>)
    ensures Canonical(MonoHeader(count, rate) + more, count, rate)
  {
    hide U16, U32, ReadU16, ReadU32, MonoHeader;
    var f := MonoHeader(count, rate) + more;
    HeaderFields(count, rate);
    FrontOf(MonoHeader(count, rate), more);
    FieldU32(f, 4, 36 + 2 * count);
    FieldU32(f, 16, 16);
    FieldU16(f, 20, 1);
    FieldU16(f, 22, 1);
    FieldU32(f, 24, rate);
    FieldU32(f, 28, rate * 2);
    FieldU16(f, 32, 2);
    FieldU16(f, 34, 16);
    FieldU32(f, 40, 2 * count);
  }

  lemma FileReads(samples: seq<int16>, rate: int)
    ensures var f := MonoFile(samples, rate);
            Canonical(f, |samples|, rate) && forall k | 0 <= k < |samples| :: SampleAt(f, 44 + 2 * k) == samples[k]
  {
    hide MonoHeader, Canonical, ReadU16, Signed16;
    HeaderReads(|samples|, rate, EncodeSamples(samples));
    forall k | 0 <= k < |samples| ensures SampleAt(MonoFile(samples, rate), 44 + 2 * k) == samples[k] {
      EncodedSampleAt(samples, k);
      ReadBehind(MonoHeader(|samples|, rate), EncodeSamples(samples), 2 * k);
    }
  }

  // ---- the length of a recording met at startup ----

  /** How long a recording lasts in seconds, as the startup pass reads it from the first 44 bytes: nothing unless
      they are such a header, some bytes are played per second, and the file holds the data it announces. */
  function HeaderSeconds(file: seq<byte>): Option<real> {
    if |file| < 44 || file[..4] != RIFF || file[8..12] != WAVE || file[36..40] != DATA || ReadU16(file, 20) != 1 then None
    else if ReadU32(file, 28) == 0 || ReadU32(file, 40) + 44 > |file| then None
    else Some(ReadU32(file, 40) as real / ReadU32(file, 28) as real)
  }

  /** The length read from a written file is the number of samples over the rate exactly when the bytes per second
      and the data size lose proportional parts to 32 bits: where the data fits, exactly for rates below 2^31. */
  lemma SecondsExactly(samples: seq<int16>, rate: int)
    requires rate > 0
    ensures HeaderSeconds(MonoFile(samples, rate)) == Some(|samples| as real / rate as real)
       <==> 2 * rate % TWO_TO_THE_32 != 0 && 2 * |samples| / TWO_TO_THE_32 * rate == 2 * rate / TWO_TO_THE_32 * |samples|
    ensures 0 < 2 * |samples| < TWO_TO_THE_32 ==>
              (HeaderSeconds(MonoFile(samples, rate)) == Some(|samples| as real / rate as real) <==> 2 * rate < TWO_TO_THE_32)
  {
    hide MonoFile, ReadU16, ReadU32;
    FileReads(samples, rate);
    var n := |samples|;
    if 2 * rate % TWO_TO_THE_32 != 0 { InProportion(n, rate); }
    if 0 < 2 * n < TWO_TO_THE_32 { NoneLost(n, rate); }
  }

  // With m cut off as often as it fits, the quotient stays exactly when the parts lost are in proportion.
  lemma InProportion(n: nat, rate: int)
    requires rate > 0 && 2 * rate % TWO_TO_THE_32 != 0
    ensures (2 * n % TWO_TO_THE_32) as real / (2 * rate % TWO_TO_THE_32) as real == n as real / rate as real
       <==> 2 * n / TWO_TO_THE_32 * rate == 2 * rate / TWO_TO_THE_32 * n
  {
    var a, b := 2 * n % TWO_TO_THE_32, 2 * rate % TWO_TO_THE_32;
    var k, j := 2 * n / TWO_TO_THE_32, 2 * rate / TWO_TO_THE_32;
    SameQuotient(a, b, n, rate);
    LossInProportion(a, b, n, rate, k, j);
  }

  lemma LossInProportion(a: int, b: int, n: int, rate: int, k: int, j: int)
    requires a == 2 * n - k * TWO_TO_THE_32 && b == 2 * rate - j * TWO_TO_THE_32
    ensures a * rate == n * b <==> k * rate == j * n
  {
    assert a * rate == 2 * n * rate - k * rate * TWO_TO_THE_32;
    assert n * b == 2 * n * rate - j * n * TWO_TO_THE_32;
  }

  lemma SameQuotient(a: int, b: int, n: int, rate: int)
    requires b > 0 && rate > 0
    ensures a as real / b as real == n as real / rate as real <==> a * rate == n * b
  {
    Crossed(a as real, b as real, n as real, rate as real);
    assert (a * rate) as real == a as real * rate as real && (n * b) as real == n as real * b as real;
  }

  lemma Crossed(a: real, b: real, n: real, rate: real)
    requires b > 0.0 && rate > 0.0
    ensures a / b == n / rate <==> a * rate == n * b
  {
    var p, q := a / b, n / rate;
    assert p * b == a && q * rate == n;
    if p == q {
      assert a * rate == p * b * rate == q * rate * b;
    } else {
      assert a * rate == p * (b * rate) && n * b == q * (b * rate);
      assert (p - q) * (b * rate) != 0.0;
    }
  }

  lemma NoneLost(n: nat, rate: int)
    requires rate > 0 && 0 < 2 * n < TWO_TO_THE_32
    ensures 2 * rate % TWO_TO_THE_32 != 0 && 2 * n / TWO_TO_THE_32 * rate == 2 * rate / TWO_TO_THE_32 * n
       <==> 2 * rate < TWO_TO_THE_32
  {
    var j := 2 * rate / TWO_TO_THE_32;
    assert 2 * n / TWO_TO_THE_32 == 0;
    assert j > 0 ==> j * n > 0;
  }

  // ---- the reader ----

  datatype WavError = NotWav | Truncated | NoVoice | IncompleteFrame

  datatype Result = Ok(samples: seq<int16>, rate: int) | Err(error: WavError)

  // What the walker has seen so far: the last usable format and the last data.
  datatype Seen = Seen(channels: int, rate: int, bits: int, pcm: seq<byte>)

  const NOTHING := Seen(0, 0, 0, [])

  function Apply(s: Seen, id: seq<byte>, body: seq<byte>): Seen {
    if id == FMT then
      if |body| >= 16 && ReadU16(body, 0) == 1 then Seen(ReadU16(body, 2), ReadU32(body, 4), ReadU16(body, 14), s.pcm) else s
    else if id == DATA then s.(pcm := body)
    else s
  }

  // The bytes after a chunk whose body has the given size; a padding byte may be missing at the end.
  function AfterChunk(b: seq<byte>, size: nat): (r: seq<byte>)
    requires 8 + size <= |b|
    ensures |r| < |b|
  {
    if size % 2 == 1 && |b| > 8 + size then b[9 + size..] else b[8 + size..]
  }

  /** None: a chunk claims more bytes than are left. */
  function Walk(b: seq<byte>, s: Seen): Option<Seen>
    decreases |b|
  {
    if |b| < 8 then Some(s)
    else
      var size := ReadU32(b, 4);
      if size > |b| - 8 then None else Walk(AfterChunk(b, size), Apply(s, b[..4], b[8..8 + size]))
  }

  // int16(total / channels): Go's division truncates toward zero.
  function Mean(a: int16, b: int16): int16 {
    var total := a as int + b as int;
    if total < 0 then -(-total / 2) else total / 2
  }

  function Mono(pcm: seq<byte>, channels: int, frame: nat): int16
    requires channels == 1 || channels == 2
    requires 2 * channels * (frame + 1) <= |pcm|
  {
    if channels == 1 then SampleAt(pcm, 2 * frame) else Mean(SampleAt(pcm, 4 * frame), SampleAt(pcm, 4 * frame + 2))
  }

  function Finish(s: Seen): Result {
    if s.channels < 1 || s.channels > 2 || s.rate <= 0 || s.bits != 16 || |s.pcm| < s.channels * 2 then Err(NoVoice)
    else if |s.pcm| % (s.channels * 2) != 0 then Err(IncompleteFrame)
    else Ok(seq(|s.pcm| / (s.channels * 2), k requires 0 <= k < |s.pcm| / (s.channels * 2) => Mono(s.pcm, s.channels, k)), s.rate)
  }

  predicate Prefaced(data: seq<byte>) { |data| >= 44 && data[..4] == RIFF && data[8..12] == WAVE }

  function Decode(data: seq<byte>): Result {
    if !Prefaced(data) then Err(NotWav)
    else match Walk(data[12..], NOTHING)
      case None => Err(Truncated)
      case Some(s) => Finish(s)
  }

  method MixFrames(pcm: seq<byte>, channels: int) returns (samples: seq<int16>)
    requires (channels == 1 || channels == 2) && |pcm| % (channels * 2) == 0
    ensures samples == seq(|pcm| / (channels * 2), k requires 0 <= k < |pcm| / (channels * 2) => Mono(pcm, channels, k))
  {
    hide SampleAt;
    var frames := |pcm| / (channels * 2);
    samples := [];
    for frame := 0 to frames
      invariant |samples| == frame && forall k | 0 <= k < frame :: samples[k] == Mono(pcm, channels, k)
    {
      var total := 0;
      for channel := 0 to channels
        invariant channel == 0 ==> total == 0
        invariant channel == 1 ==> total == SampleAt(pcm, frame * channels * 2)
        invariant channel == 2 ==> total == SampleAt(pcm, 4 * frame) as int + SampleAt(pcm, 4 * frame + 2) as int
      {
        var offset := (frame * channels + channel) * 2;
        total := total + SampleAt(pcm, offset);
      }
      var mean := if channels == 1 then total else if total < 0 then -(-total / 2) else total / 2;
      samples := samples + [mean];
    }
  }

  /** decodePCM16WAV: the walk, the checks and the mix. */
  method DecodePCM16WAV(data: seq<byte>) returns (result: Result)
    ensures result == Decode(data)
  {
    hide ReadU16, ReadU32, Mono, AfterChunk;
    if |data| < 44 || data[..4] != RIFF || data[8..12] != WAVE { return Err(NotWav); }
    var channels, rate, bits := 0, 0, 0;
    var pcm: seq<byte> := [];
    var reader := data[12..];
    while |reader| >= 8
      invariant Walk(data[12..], NOTHING) == Walk(reader, Seen(channels, rate, bits, pcm))
      decreases |reader|
    {
      var id, size := reader[..4], ReadU32(reader, 4);
      if size > |reader| - 8 { return Err(Truncated); }
      var chunk := reader[8..8 + size];
      reader := AfterChunk(reader, size);
      if id == FMT {
        if |chunk| >= 16 && ReadU16(chunk, 0) == 1 {
          channels, rate, bits := ReadU16(chunk, 2), ReadU32(chunk, 4), ReadU16(chunk, 14);
        }
      } else if id == DATA {
        pcm := chunk;
      }
    }
    if channels < 1 || channels > 2 || rate <= 0 || bits != 16 || |pcm| < channels * 2 { return Err(NoVoice); }
    if |pcm| % (channels * 2) != 0 { return Err(IncompleteFrame); }
    var samples := MixFrames(pcm, channels);
    result := Ok(samples, rate);
  }

  // ---- walking whole chunks ----

  function ApplyAll(cs: seq<Chunk>, s: Seen): Seen {
    if |cs| == 0 then s else ApplyAll(cs[1..], Apply(s, cs[0].id, cs[0].body))
  }

  lemma FlatRead(c: Chunk, more: seq<byte>)
    requires WellFormed(c)
    ensures var b := Flat(c) + more;
            && |b| >= 8 && ReadU32(b, 4) == |c.body| <= |b| - 8 && b[..4] == c.id && b[8..8 + |c.body|] == c.body
            && AfterChunk(b, |c.body|) == more
  {
    hide U32, ReadU32;
    var b := Flat(c) + more;
    assert b[4..8] == U32(|c.body|);
    ReadsWithin(b, U32(|c.body|), 4);
    ReadsBackU32(|c.body|);
  }

  /** Chunks in front of any bytes are walked one by one, pads skipped, and then the bytes. */
  lemma {:induction false} WalkChunks(cs: seq<Chunk>, rest: seq<byte>, s: Seen)
    requires forall c | c in cs :: WellFormed(c)
    ensures Walk(FlatAll(cs) + rest, s) == Walk(rest, ApplyAll(cs, s))
  {
    hide WellFormed, Flat, Apply, AfterChunk, ReadU32;
    if |cs| == 0 {
      assert FlatAll(cs) + rest == rest;
    } else {
      var more := FlatAll(cs[1..]) + rest;
      assert FlatAll(cs) + rest == Flat(cs[0]) + more;
      FlatRead(cs[0], more);
      WalkChunks(cs[1..], rest, Apply(s, cs[0].id, cs[0].body));
    }
  }

  predicate Known(c: Chunk) { c.id == FMT || c.id == DATA }

  function KnownOf(cs: seq<Chunk>): seq<Chunk> {
    if |cs| == 0 then [] else (if Known(cs[0]) then [cs[0]] else []) + KnownOf(cs[1..])
  }

  lemma {:induction false} KnownSuffice(cs: seq<Chunk>, s: Seen)
    ensures ApplyAll(KnownOf(cs), s) == ApplyAll(cs, s)
  {
    hide Apply;
    if |cs| > 0 {
      if Known(cs[0]) {
        assert KnownOf(cs)[1..] == KnownOf(cs[1..]) && KnownOf(cs)[0] == cs[0];
        KnownSuffice(cs[1..], Apply(s, cs[0].id, cs[0].body));
      } else {
        assert KnownOf(cs) == KnownOf(cs[1..]);
        UnknownIgnored(s, cs[0]);
        KnownSuffice(cs[1..], s);
      }
    }
  }

  lemma UnknownIgnored(s: Seen, c: Chunk)
    requires !Known(c)
    ensures Apply(s, c.id, c.body) == s
  {
  }

  predicate Preface(p: seq<byte>) { |p| == 12 && p[..4] == RIFF && p[8..12] == WAVE }

  /** Two files whose chunks differ only in unknown ones, wherever they stand and whether or not they are
      padded, decode alike, whatever follows the chunks and whatever size the preface claims. */
  lemma UnknownChunksDoNotMatter(p: seq<byte>, q: seq<byte>, a: seq<Chunk>, b: seq<Chunk>, rest: seq<byte>)
    requires Preface(p) && Preface(q) && KnownOf(a) == KnownOf(b)
    requires (forall c | c in a :: WellFormed(c)) && (forall c | c in b :: WellFormed(c))
    requires |p + FlatAll(a) + rest| >= 44 && |q + FlatAll(b) + rest| >= 44
    ensures Decode(p + FlatAll(a) + rest) == Decode(q + FlatAll(b) + rest)
  {
    hide Walk, Finish, WellFormed, KnownOf, ApplyAll;
    DecodeChunks(p, a, rest);
    DecodeChunks(q, b, rest);
    KnownSuffice(a, NOTHING);
    KnownSuffice(b, NOTHING);
  }

  lemma DecodeChunks(p: seq<byte>, cs: seq<Chunk>, rest: seq<byte>)
    requires Preface(p) && (forall c | c in cs :: WellFormed(c)) && |p + FlatAll(cs) + rest| >= 44
    ensures Decode(p + FlatAll(cs) + rest) ==
            match Walk(rest, ApplyAll(cs, NOTHING)) case None => Err(Truncated) case Some(s) => Finish(s)
  {
    hide Walk, Finish, WellFormed, ApplyAll;
    var data := p + FlatAll(cs) + rest;
    assert data[..4] == p[..4] && data[8..12] == p[8..12] && data[12..] == FlatAll(cs) + rest;
    WalkChunks(cs, rest, NOTHING);
  }

  // ---- round trip ----

  function FormatChunk(rate: int): Chunk { Chunk(FMT, FormatBody(rate)) }

  function DataChunk(samples: seq<int16>): Chunk { Chunk(DATA, EncodeSamples(samples)) }

  lemma FormatRead(rate: int, s: Seen)
    ensures Apply(s, FMT, FormatBody(rate)) == Seen(1, rate % TWO_TO_THE_32, 16, s.pcm)
  {
    hide U16, U32, ReadU16, ReadU32;
    var body := FormatBody(rate);
    assert body[0..2] == U16(1) && body[2..4] == U16(1) && body[4..8] == U32(rate) && body[14..16] == U16(16);
    ReadsWithin(body, U16(1), 0);
    ReadsWithin(body, U16(1), 2);
    ReadsWithin(body, U32(rate), 4);
    ReadsWithin(body, U16(16), 14);
    ReadsBackU16(1);
    ReadsBackU16(16);
    ReadsBackU32(rate);
  }

  lemma ApplyTwo(f: Chunk, d: Chunk, s: Seen)
    ensures ApplyAll([f, d], s) == Apply(Apply(s, f.id, f.body), d.id, d.body)
  {
    hide Apply;
    assert [f, d][1..] == [d] && [d][1..] == [];
    assert ApplyAll([d], Apply(s, f.id, f.body)) == Apply(Apply(s, f.id, f.body), d.id, d.body);
  }

  lemma FlatTwo(f: Chunk, d: Chunk)
    ensures FlatAll([f, d]) == Flat(f) + Flat(d)
  {
    hide Flat;
    assert [f, d][1..] == [d] && [d][1..] == [];
    assert FlatAll([d]) == Flat(d) + FlatAll([]) == Flat(d);
  }

  // Format and data together, whatever unknown chunks stand around them.
  lemma WrittenSeen(samples: seq<int16>, rate: int, cs: seq<Chunk>)
    requires KnownOf(cs) == [FormatChunk(rate), DataChunk(samples)]
    ensures ApplyAll(cs, NOTHING) == Seen(1, rate % TWO_TO_THE_32, 16, EncodeSamples(samples))
  {
    hide U16, U32, EncodeSamples, FormatBody, Apply, ApplyAll, KnownOf;
    var f, d := FormatChunk(rate), DataChunk(samples);
    KnownSuffice(cs, NOTHING);
    ApplyTwo(f, d, NOTHING);
    FormatRead(rate, NOTHING);
    DataApplied(Seen(1, rate % TWO_TO_THE_32, 16, []), EncodeSamples(samples));
  }

  lemma DataApplied(s: Seen, body: seq<byte>)
    ensures Apply(s, DATA, body) == s.(pcm := body)
  {
  }

  lemma WalkNothing(s: Seen)
    ensures Walk([], s) == Some(s)
  {
  }

  lemma FinishWritten(samples: seq<int16>, rate: int)
    ensures Finish(Seen(1, rate, 16, EncodeSamples(samples)))
         == if |samples| > 0 && rate > 0 then Ok(samples, rate) else Err(NoVoice)
  {
    hide SampleAt, EncodeSamples;
    forall k | 0 <= k < |samples| ensures SampleAt(EncodeSamples(samples), 2 * k) == samples[k] { EncodedSampleAt(samples, k); }
  }

  /** A written recording with unknown chunks inserted anywhere still decodes to its samples and rate. */
  lemma WrittenWithExtras(samples: seq<int16>, rate: int, p: seq<byte>, cs: seq<Chunk>)
    requires |samples| > 0 && 2 * |samples| < TWO_TO_THE_32 && 0 < rate < TWO_TO_THE_32
    requires Preface(p) && (forall c | c in cs :: WellFormed(c)) && KnownOf(cs) == [FormatChunk(rate), DataChunk(samples)]
    requires |p + FlatAll(cs)| >= 44
    ensures Decode(p + FlatAll(cs)) == Ok(samples, rate)
  {
    hide Walk, Decode, WellFormed, KnownOf, ApplyAll, Finish, FormatChunk, DataChunk, EncodeSamples, FlatAll;
    WalkNothing(ApplyAll(cs, NOTHING));
    assert p + FlatAll(cs) + [] == p + FlatAll(cs);
    DecodeChunks(p, cs, []);
    WrittenSeen(samples, rate, cs);
    FinishWritten(samples, rate);
  }

  function PrefaceFor(count: nat): (p: seq<byte>)
    ensures Preface(p)
  {
    RIFF + U32(36 + 2 * count) + WAVE
  }

  lemma HeaderParts(count: nat, rate: int)
    ensures MonoHeader(count, rate) == PrefaceFor(count) + (FMT + U32(16) + FormatBody(rate)) + (DATA + U32(2 * count))
  {
    hide U16, U32;
    assert Tag(RIFF) == RIFF && Tag(WAVE) == WAVE && Tag(FMT) == FMT && Tag(DATA) == DATA;
  }

  lemma MonoFileIsChunks(samples: seq<int16>, rate: int)
    requires 2 * |samples| < TWO_TO_THE_32
    ensures MonoFile(samples, rate) == PrefaceFor(|samples|) + FlatAll([FormatChunk(rate), DataChunk(samples)])
  {
    hide U16, U32, EncodeSamples, FormatBody, PrefaceFor, FlatAll, MonoHeader;
    var f, d := FormatChunk(rate), DataChunk(samples);
    FlatTwo(f, d);
    HeaderParts(|samples|, rate);
    assert Flat(f) == FMT + U32(16) + FormatBody(rate);
    assert Flat(d) == DATA + U32(2 * |samples|) + EncodeSamples(samples);
  }

  // No file yields 2^31 samples or a rate of 2^32.
  predicate InBounds(s: Seen) { |s.pcm| < TWO_TO_THE_32 && s.rate < TWO_TO_THE_32 }

  lemma {:induction false} WalkBounds(b: seq<byte>, s: Seen)
    requires InBounds(s)
    ensures Walk(b, s).Some? ==> InBounds(Walk(b, s).value)
    decreases |b|
  {
    hide ReadU16, ReadU32;
    if |b| >= 8 && ReadU32(b, 4) <= |b| - 8 {
      WalkBounds(AfterChunk(b, ReadU32(b, 4)), Apply(s, b[..4], b[8..8 + ReadU32(b, 4)]));
    }
  }

  lemma FinishBounds(s: Seen)
    requires InBounds(s)
    ensures Finish(s).Ok? ==> 0 < 2 * |Finish(s).samples| < TWO_TO_THE_32 && 0 < Finish(s).rate < TWO_TO_THE_32
  {
    hide Mono;
  }

  lemma DecodeBounds(data: seq<byte>)
    ensures Decode(data).Ok? ==> 0 < 2 * |Decode(data).samples| < TWO_TO_THE_32 && 0 < Decode(data).rate < TWO_TO_THE_32
  {
    hide Finish, Walk;
    if Prefaced(data) {
      WalkBounds(data[12..], NOTHING);
      if Walk(data[12..], NOTHING).Some? { FinishBounds(Walk(data[12..], NOTHING).value); }
    }
  }

  /** A recording survives writing and reading exactly when it is not empty, its data size fits 32 bits
      and so does its rate; outside that the writer still writes a file for every positive rate. */
  lemma RoundTripExactly(samples: seq<int16>, rate: int)
    ensures Decode(MonoFile(samples, rate)) == Ok(samples, rate)
       <==> |samples| > 0 && 2 * |samples| < TWO_TO_THE_32 && 0 < rate < TWO_TO_THE_32
  {
    hide WellFormed, Decode, FormatBody, MonoFile, EncodeSamples, PrefaceFor;
    DecodeBounds(MonoFile(samples, rate));
    if |samples| > 0 && 2 * |samples| < TWO_TO_THE_32 && 0 < rate < TWO_TO_THE_32 {
      var p := PrefaceFor(|samples|);
      var cs := [FormatChunk(rate), DataChunk(samples)];
      MonoFileIsChunks(samples, rate);
      WrittenChunksFit(samples, rate);
      WrittenWithExtras(samples, rate, p, cs);
    }
  }

  lemma WrittenChunksFit(samples: seq<int16>, rate: int)
    requires |samples| > 0 && 2 * |samples| < TWO_TO_THE_32
    ensures var cs := [FormatChunk(rate), DataChunk(samples)];
            (forall c | c in cs :: WellFormed(c)) && KnownOf(cs) == cs && |FlatAll(cs)| >= 32
  {
    hide U16, U32, EncodeSamples, FormatBody;
    var f, d := FormatChunk(rate), DataChunk(samples);
    assert [f, d][1..] == [d] && [d][1..] == [];
    assert KnownOf([d]) == [d] + KnownOf([]) == [d];
    assert KnownOf([f, d]) == [f] + KnownOf([d]);
    FlatTwo(f, d);
  }
}
