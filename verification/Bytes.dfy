/** Bytes, and the little-endian integers both audio formats are made of. */
module Bytes {

  type byte = b: int | 0 <= b < 256

  type int16 = v: int | -32768 <= v < 32768

  const TWO_TO_THE_16: int := 0x1_0000
  const TWO_TO_THE_32: int := 0x1_0000_0000

  // binary.Write of a uint16 and of a uint32: a conversion from int keeps the low bits.
  function U16(v: int): (r: seq<byte>)
    ensures |r| == 2
  {
    [v % 256, v / 256 % 256]
  }

  function U32(v: int): (r: seq<byte>)
    ensures |r| == 4
  {
    [v % 256, v / 256 % 256, v / 65536 % 256, v / 16777216 % 256]
  }

  function ReadU16(s: seq<byte>, at: nat): (v: int)
    requires at + 2 <= |s|
    ensures 0 <= v < TWO_TO_THE_16
  {
    s[at] as int + 256 * (s[at + 1] as int)
  }

  function ReadU32(s: seq<byte>, at: nat): (v: int)
    requires at + 4 <= |s|
    ensures 0 <= v < TWO_TO_THE_32
  {
    s[at] as int + 256 * (s[at + 1] as int) + 65536 * (s[at + 2] as int) + 16777216 * (s[at + 3] as int)
  }

  lemma ReadsBackU16(v: int)
    ensures ReadU16(U16(v), 0) == v % TWO_TO_THE_16
  {
  }

  lemma ReadsBackU32(v: int)
    ensures ReadU32(U32(v), 0) == v % TWO_TO_THE_32
  {
    var a, b, c := v / 256, v / 65536, v / 16777216;
    assert a / 256 == b && b / 256 == c;
  }

  // A read depends on the bytes read only.
  lemma ReadsWithin(s: seq<byte>, a: seq<byte>, at: nat)
    requires at + |a| <= |s| && s[at..at + |a|] == a
    ensures |a| == 2 ==> ReadU16(s, at) == ReadU16(a, 0)
    ensures |a| == 4 ==> ReadU32(s, at) == ReadU32(a, 0)
  {
    assert forall k {:trigger a[k]} | 0 <= k < |a| :: a[k] == s[at + k];
  }

  // ---- samples ----

  function Unsigned16(v: int16): (u: int)
    ensures 0 <= u < TWO_TO_THE_16
  {
    if v < 0 then v + TWO_TO_THE_16 else v
  }

  // int16(uint16)
  function Signed16(u: int): int16
    requires 0 <= u < TWO_TO_THE_16
  {
    if u < 32768 then u else u - TWO_TO_THE_16
  }

  function SampleAt(s: seq<byte>, at: nat): int16
    requires at + 2 <= |s|
  {
    Signed16(ReadU16(s, at))
  }

  function EncodeSamples(samples: seq<int16>): (r: seq<byte>)
    ensures |r| == 2 * |samples|
  {
    if |samples| == 0 then [] else U16(Unsigned16(samples[0])) + EncodeSamples(samples[1..])
  }

  lemma {:induction false} EncodedSampleAt(samples: seq<int16>, i: nat)
    requires i < |samples|
    ensures SampleAt(EncodeSamples(samples), 2 * i) == samples[i]
  {
    hide U16, ReadU16, Signed16, Unsigned16;
    var head, tail := U16(Unsigned16(samples[0])), EncodeSamples(samples[1..]);
    if i == 0 {
      ReadFront(head, tail);
      ReadsBackU16(Unsigned16(samples[0]));
      SignsBack(samples[0]);
    } else {
      EncodedSampleAt(samples[1..], i - 1);
      ReadBehind(head, tail, 2 * (i - 1));
    }
  }

  lemma SignsBack(v: int16)
    ensures Signed16(Unsigned16(v) % TWO_TO_THE_16) == v
  {
  }

  lemma ReadFront(a: seq<byte>, b: seq<byte>)
    requires |a| == 2
    ensures ReadU16(a + b, 0) == ReadU16(a, 0)
  {
  }

  lemma ReadBehind(a: seq<byte>, b: seq<byte>, at: nat)
    requires at + 2 <= |b|
    ensures ReadU16(a + b, |a| + at) == ReadU16(b, at)
  {
  }
}
